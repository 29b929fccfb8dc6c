/**
 * The bot's automation flags and the `SetMode` switch shared by both UsherBot
 * variants: the named modes citadel, lockdown, debug, pause and passive, each
 * turned on or off by an administrator's chat command or a remote command.
 */
module Modes {
  import opened Wrappers

  /**
   * `BotAutomationFlag`, an eleven-bit flag set, with the values of the Demo
   * enum; the ZoomController version's `Global.BotAutomationFlag` is taken to
   * have the same ones.
   */
  type Flags = bv11

  const NoFlags: Flags := 0
  const SendTopicOnJoin: Flags := 1
  const RenameMyself: Flags := 2
  const ReclaimHost: Flags := 4
  const ProcessParticipants: Flags := 8
  const ProcessChat: Flags := 16
  const CoHostKnown: Flags := 32
  const AdmitKnown: Flags := 64
  const AdmitOthers: Flags := 128
  const Converse: Flags := 256
  const Speak: Flags := 512
  const UnmuteMyself: Flags := 1024
  const AllFlags: Flags := 0x7FF

  /** The flags lockdown mode clears: admitting anyone and promoting known users. */
  const LockdownMask: Flags := AdmitOthers | AdmitKnown | CoHostKnown

  predicate Has(f: Flags, flag: Flags) { f & flag != 0 }

  /** The part of the configuration that `SetMode` reads and writes. */
  datatype ModeState = ModeState(flags: Flags, debug: bool, paused: bool)

  predicate IsCitadel(st: ModeState) { st.flags & AdmitOthers == 0 }
  predicate IsLockdown(st: ModeState) { st.flags & LockdownMask == 0 }
  predicate IsPassive(st: ModeState) { st.flags == NoFlags }

  predicate IsModeName(name: string) {
    name == "citadel" || name == "lockdown" || name == "debug" || name == "pause" || name == "passive"
  }

  /** Whether the named mode is currently on, as `SetMode` decides it. */
  function ModeIsOn(st: ModeState, name: string): bool
    requires IsModeName(name)
  {
    if name == "citadel" then IsCitadel(st)
    else if name == "lockdown" then IsLockdown(st)
    else if name == "debug" then st.debug
    else if name == "pause" then st.paused
    else IsPassive(st)
  }

  /** What a successful `SetMode` call returns: whether it changed anything, and the new state. */
  datatype Switch = Switch(changed: bool, next: ModeState)

  /**
   * `SetMode(sName, bNewState)`: nothing happens when the mode already is as
   * requested; otherwise citadel and lockdown flip their bits on with an
   * exclusive or and set them with an or, debug and pause store the request,
   * and passive assigns `None` if the flags were `None` before and `All`
   * otherwise. Any other name throws.
   */
  function SetMode(st: ModeState, name: string, on: bool): (r: Result<Switch>)
    ensures r.Fault? <==> !IsModeName(name)
    ensures r.Ok? ==> (r.value.changed <==> ModeIsOn(st, name) != on)
    ensures r.Ok? && !r.value.changed ==> r.value.next == st
  {
    if name == "citadel" then
      if IsCitadel(st) == on then Ok(Switch(false, st))
      else Ok(Switch(true, st.(flags := if on then st.flags ^ AdmitOthers else st.flags | AdmitOthers)))
    else if name == "lockdown" then
      if IsLockdown(st) == on then Ok(Switch(false, st))
      else Ok(Switch(true, st.(flags := if on then st.flags ^ LockdownMask else st.flags | LockdownMask)))
    else if name == "debug" then
      if st.debug == on then Ok(Switch(false, st)) else Ok(Switch(true, st.(debug := on)))
    else if name == "pause" then
      if st.paused == on then Ok(Switch(false, st)) else Ok(Switch(true, st.(paused := on)))
    else if name == "passive" then
      var passive := IsPassive(st);
      if passive == on then Ok(Switch(false, st))
      else Ok(Switch(true, st.(flags := if passive then NoFlags else AllFlags)))
    else Fault("Unknown mode: " + name)
  }

  /** Citadel mode ends up as requested, and no other flag or setting moves. */
  lemma CitadelReachesRequest(st: ModeState, on: bool)
    ensures var r := SetMode(st, "citadel", on);
      r.Ok? && IsCitadel(r.value.next) == on
      && r.value.next.flags | AdmitOthers == st.flags | AdmitOthers
      && r.value.next.debug == st.debug && r.value.next.paused == st.paused
  {
    assert SetMode(st, "citadel", on) == (if IsCitadel(st) == on then Ok(Switch(false, st))
      else Ok(Switch(true, st.(flags := if on then st.flags ^ AdmitOthers else st.flags | AdmitOthers))));
    if IsCitadel(st) != on {
      if on {
        FlipClearsAdmitOthers(st.flags);
      } else {
        SetKeepsAdmitOthers(st.flags);
      }
    }
  }

  lemma FlipClearsAdmitOthers(f: Flags)
    requires f & AdmitOthers != 0
    ensures (f ^ AdmitOthers) & AdmitOthers == 0 && (f ^ AdmitOthers) | AdmitOthers == f | AdmitOthers
  {
  }

  lemma SetKeepsAdmitOthers(f: Flags)
    ensures (f | AdmitOthers) & AdmitOthers != 0 && (f | AdmitOthers) | AdmitOthers == f | AdmitOthers
  {
  }

  /**
   * Turning lockdown off sets all three of its flags when lockdown was on, and
   * changes nothing when any one of them was already set.
   */
  lemma LockdownOffSetsMask(st: ModeState)
    ensures var r := SetMode(st, "lockdown", false);
      r.Ok? && !IsLockdown(r.value.next)
      && r.value.next.flags == (if IsLockdown(st) then st.flags | LockdownMask else st.flags)
  {
  }

  /**
   * Turning lockdown on flips its three flags rather than clearing them, so
   * lockdown mode is reached only when all three were set beforehand.
   */
  lemma LockdownOnFlipsMask(st: ModeState)
    requires !IsLockdown(st)
    ensures var r := SetMode(st, "lockdown", true);
      r.Ok? && r.value.next.flags == st.flags ^ LockdownMask
      && (IsLockdown(r.value.next) <==> st.flags & LockdownMask == LockdownMask)
  {
  }

  /** Lockdown requested while citadel mode is on re-enables admitting unknown participants. */
  lemma LockdownDuringCitadelAdmitsOthers(st: ModeState)
    requires IsCitadel(st) && !IsLockdown(st)
    ensures var r := SetMode(st, "lockdown", true);
      r.Ok? && r.value.changed && !IsCitadel(r.value.next) && !IsLockdown(r.value.next)
  {
  }

  /**
   * A passive request never changes whether the bot is passive: turning it on
   * from an active state assigns every flag, and turning it off from the
   * passive state assigns no flag, though both report a change.
   */
  lemma PassiveNeverToggles(st: ModeState, on: bool)
    ensures var r := SetMode(st, "passive", on);
      r.Ok? && IsPassive(r.value.next) == IsPassive(st)
      && (r.value.changed ==> r.value.next.flags == (if on then AllFlags else NoFlags))
  {
  }

  /** Debug and pause store the request and touch nothing else. */
  lemma StoredModesReachRequest(st: ModeState, name: string, on: bool)
    requires name == "debug" || name == "pause"
    ensures var r := SetMode(st, name, on);
      r.Ok? && ModeIsOn(r.value.next, name) == on && r.value.next.flags == st.flags
      && (name == "debug" ==> r.value.next.paused == st.paused)
      && (name == "pause" ==> r.value.next.debug == st.debug)
  {
  }

  /**
   * Repeating a request reports no change the second time for every mode and
   * direction except lockdown on, which can flip the flags back, and passive.
   */
  lemma SecondRequestIsNoChange(st: ModeState, name: string, on: bool)
    requires IsModeName(name) && name != "passive"
    requires name == "lockdown" && on ==> st.flags & LockdownMask == LockdownMask || IsLockdown(st)
    ensures var r := SetMode(st, name, on);
      r.Ok? && SetMode(r.value.next, name, on) == Ok(Switch(false, r.value.next))
  {
    var r := SetMode(st, name, on);
    if name == "citadel" {
      CitadelReachesRequest(st, on);
    } else if name == "lockdown" {
      if on {
        if !IsLockdown(st) { LockdownOnFlipsMask(st); }
      } else {
        LockdownOffSetsMask(st);
      }
    } else {
      StoredModesReachRequest(st, name, on);
    }
  }

  /** With only some lockdown flags set, two lockdown requests in a row restore the flags. */
  lemma LockdownOnTwiceRestores(st: ModeState)
    requires st.flags & LockdownMask != 0 && st.flags & LockdownMask != LockdownMask
    ensures var r := SetMode(st, "lockdown", true);
      r.Ok? && r.value.changed
      && var r2 := SetMode(r.value.next, "lockdown", true);
         r2.Ok? && r2.value.changed && r2.value.next == st
  {
    var n := st.(flags := st.flags ^ LockdownMask);
    PartialLockdownFlips(st);
    PartialLockdownFlips(n);
    assert n.(flags := n.flags ^ LockdownMask) == st;
  }

  /** With only some lockdown flags set, lockdown on flips them and leaves only some set. */
  lemma PartialLockdownFlips(st: ModeState)
    requires st.flags & LockdownMask != 0 && st.flags & LockdownMask != LockdownMask
    ensures SetMode(st, "lockdown", true) == Ok(Switch(true, st.(flags := st.flags ^ LockdownMask)))
    ensures var f := st.flags ^ LockdownMask; f & LockdownMask != 0 && f & LockdownMask != LockdownMask
    ensures (st.flags ^ LockdownMask) ^ LockdownMask == st.flags
  {
  }
}
