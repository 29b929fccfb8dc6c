/**
 * The moderation bot of ZoomController (ZoomController/UsherBot.cs), the
 * variant that keys participants by name, admits waiting participants in its
 * idle-timer tick and answers small talk with the bots, the small-talk table
 * and a random line. Its static state becomes the fields of `Bot`; every call
 * into `ZoomController` and `Sound` is appended to `calls`, and the few whose
 * outcome the code reads are answered by the `answer` oracle.
 */
module ZcUsher {
  import opened Wrappers
  import opened Strings
  import opened Modes
  import opened KnownUsers
  import opened Platform
  import opened Phrases
  import opened Commands

  // ---------------------------------------------------------------------------
  // Participants and controller calls
  // ---------------------------------------------------------------------------

  datatype Status = Waiting | Attending | OtherStatus

  datatype Role = NoRole | CoHost | Host

  datatype AudioStatus = Muted | Unmuted | Disconnected

  /** What the bot reads of a `ZoomController.Participant`. */
  datatype Participant = Participant(
    name: string, isMe: bool, role: Role, status: Status, dtWaiting: int,
    computerAudio: bool, audio: AudioStatus, videoOn: bool)

  /** The `ZoomController` and `Sound` calls the bot makes. */
  datatype Call =
    | Reclaim
    | RenameParticipant(who: Participant, newName: string)
    | UnmuteParticipant(who: Participant)
    | MuteParticipant(who: Participant)
    | UpdateParticipants
    | UpdateMeetingOptions
    | AdmitParticipant(who: Participant)
    /** `PromoteParticipant(p)`, with the default role */
    | PromoteParticipant(who: Participant)
    /** `PromoteParticipant(p, ParticipantRole.Host)` */
    | PromoteToHost(who: Participant)
    | DemoteParticipant(who: Participant)
    /** `SendChatMessage(to, text)`, and the formatting overload with its text already formatted */
    | Chat(to: string, text: string)
    /** `SendChatMessage(to, speak, text)` */
    | ChatSpoken(to: string, speak: bool, text: string)
    | SendEmail(subject: string, body: string, address: string)
    /** `Sound.Play` */
    | PlaySound(sound: string)
    /** `Sound.Speak` */
    | SpeakText(text: string)
    | LayoutWindows
    | UpdateChat
    | SendQueuedChatMessages
    | LeaveMeeting(endForAll: bool)

  /** The configuration the bot reads but never writes. */
  datatype Settings = Settings(
    myName: string,
    /** `UnknownParticipantWaitSecs` */
    waitSecs: int,
    /** `UnknownParticipantThrottleSecs` */
    throttleSecs: int,
    /** `BroadcastCommandGuardTimeSecs` */
    guardSecs: int,
    broadcasts: map<string, string>,
    /** the enumeration order of `BroadcastCommands` */
    broadcastOrder: seq<string>,
    emails: map<string, EmailArgs>,
    oneTimeHis: map<string, string>,
    smallTalk: map<string, string>,
    /** `WaitingRoomAnnouncementDelaySecs` */
    announceDelay: int,
    /** `ZoomController.ZoomAlreadyRunning` */
    zoomAlreadyRunning: bool)

  /** The settings a bot runs with: `broadcastOrder` enumerates the `BroadcastCommands` table. */
  type BotSettings = s: Settings | EnumeratesKeys(s.broadcastOrder, s.broadcasts)
    witness Settings("", 0, 0, 0, map[], [], map[], map[], map[], 0, false)

  /** One chat message event: sender, addressee and text as the controller reports them. */
  datatype ChatEvent = ChatEvent(from: string, to: string, text: string, isPrivate: bool)

  // ---------------------------------------------------------------------------
  // The participant tick, as functions
  // ---------------------------------------------------------------------------

  /** The calls the bot makes about itself: reclaim host, rename itself, unmute itself, then the meeting options. */
  function SelfCare(flags: Flags, me: Option<Participant>, myName: string): seq<Call> {
    if me.None? then []
    else ReclaimCalls(flags, me.value) + RenameCalls(flags, me.value, myName) + UnmuteCalls(flags, me.value) + [UpdateMeetingOptions]
  }

  function ReclaimCalls(flags: Flags, p: Participant): seq<Call> {
    if Has(flags, ReclaimHost) && p.role != Host then [Reclaim] else []
  }

  function RenameCalls(flags: Flags, p: Participant, myName: string): seq<Call> {
    if Has(flags, RenameMyself) && p.name != myName then [RenameParticipant(p, myName)] else []
  }

  function UnmuteCalls(flags: Flags, p: Participant): seq<Call> {
    if Has(flags, UnmuteMyself) && p.audio == Muted then [UnmuteParticipant(p)] else []
  }

  /**
   * Self care makes each of its three calls exactly when its flag is set and
   * the bot's own record needs it, and always ends with the meeting options;
   * without an own record it makes no call at all.
   */
  lemma SelfCareFacts(flags: Flags, me: Option<Participant>, myName: string)
    ensures var cs := SelfCare(flags, me, myName);
      (me.None? ==> cs == [])
      && (me.Some? ==> |cs| >= 1 && cs[|cs| - 1] == UpdateMeetingOptions)
      && (Reclaim in cs <==> me.Some? && Has(flags, ReclaimHost) && me.value.role != Host)
      && (me.Some? ==> (RenameParticipant(me.value, myName) in cs <==> Has(flags, RenameMyself) && me.value.name != myName))
      && (me.Some? ==> (UnmuteParticipant(me.value) in cs <==> Has(flags, UnmuteMyself) && me.value.audio == Muted))
      && (forall c :: c in cs ==>
            c == Reclaim || c == RenameParticipant(me.value, myName) || c == UnmuteParticipant(me.value) || c == UpdateMeetingOptions)
  {
    if me.Some? {
      var p := me.value;
      var r, n, m := ReclaimCalls(flags, p), RenameCalls(flags, p, myName), UnmuteCalls(flags, p);
      var cs := SelfCare(flags, me, myName);
      assert cs == r + n + m + [UpdateMeetingOptions];
      assert forall c :: c in cs <==> c in r || c in n || c in m || c == UpdateMeetingOptions;
      assert Reclaim !in n && Reclaim !in m;
      assert RenameParticipant(p, myName) !in r && RenameParticipant(p, myName) !in m;
      assert UnmuteParticipant(p) !in r && UnmuteParticipant(p) !in n;
    }
  }

  /**
   * What the admission loop updates: whether anyone waits, `dtNextAdmission`,
   * `HsParticipantMessages`, the calls, and whether it stopped on an exception.
   */
  datatype Pass = Pass(waiting: bool, next: int, messages: set<string>, calls: seq<Call>, failed: bool)

  /** What the admission loop reads: the flags, the roster, the bot's own record, the two timings, the clock and the oracles. */
  datatype PassEnv = PassEnv(
    flags: Flags, users: map<string, bool>, me: Option<Participant>,
    waitSecs: int, throttleSecs: int, now: int, answer: (nat, Call) -> bool, u: Utils)

  /** The de-duplicated log line of an unknown participant. */
  function AdmitMessage(u: Utils, name: string, admitting: bool): string {
    u.format("BOT Admit {0} : Unknown participant waiting room time reached", [name]) + (if admitting then " : Admitting" else "")
  }

  /** `dtWhenToAdmit`: the later of the end of the participant's wait and `dtNextAdmission`. */
  function WhenToAdmit(p: Participant, next: int, waitSecs: int): (t: int)
    ensures t >= p.dtWaiting + waitSecs && t >= next
    ensures t == p.dtWaiting + waitSecs || t == next
  {
    if p.dtWaiting + waitSecs > next then p.dtWaiting + waitSecs else next
  }

  /** A waiting participant other than the bot whose cleaned name is not on the roster, with AdmitOthers set. */
  predicate UnknownWaiting(a: Pass, p: Participant, e: PassEnv) {
    !a.failed && !p.isMe && p.status == Waiting && !IsKnown(e.users, p.name) && Has(e.flags, AdmitOthers)
  }

  /** `bAdmit = dtWhenToAdmit >= dtNow`, as written: the admission is tried while that time is still ahead. */
  predicate Attempts(a: Pass, p: Participant, e: PassEnv) {
    UnknownWaiting(a, p, e) && WhenToAdmit(p, a.next, e.waitSecs) >= e.now
  }

  /** An attending participant with no role, CoHostKnown set: the code then reads the bot's own role. */
  predicate NeedsMyRole(a: Pass, p: Participant, e: PassEnv) {
    !a.failed && !p.isMe && p.status == Attending && Has(e.flags, CoHostKnown) && p.role == NoRole
  }

  /** One participant of the loop; a missing own record at the co-host check throws and ends the loop. */
  function AdmitStep(a: Pass, p: Participant, e: PassEnv): Pass {
    if a.failed || p.isMe then a
    else match p.status
      case OtherStatus => a
      case Attending => AttendingStep(a, p, e)
      case Waiting => WaitingStep(a, p, e)
  }

  /** An attending participant: promoted when the roster marks it administrator and the bot is host. */
  function AttendingStep(a: Pass, p: Participant, e: PassEnv): (b: Pass)
    ensures b.waiting == a.waiting && b.next == a.next && b.messages == a.messages
    ensures b.calls == a.calls || b.calls == a.calls + [PromoteParticipant(p)]
  {
    if !(Has(e.flags, CoHostKnown) && p.role == NoRole) then a
    else if e.me.None? then a.(failed := true)
    else if e.me.value.role == Host && IsAdmin(e.users, p.name) then a.(calls := a.calls + [PromoteParticipant(p)])
    else a
  }

  /** A waiting participant: admitted when known and AdmitKnown is set, or unknown and tried under AdmitOthers. */
  function WaitingStep(a: Pass, p: Participant, e: PassEnv): (b: Pass)
    ensures b.waiting && b.failed == a.failed
    ensures b.calls == a.calls || b.calls == a.calls + [AdmitParticipant(p)]
  {
    var a1 := a.(waiting := true);
    if !(Has(e.flags, AdmitKnown) || Has(e.flags, AdmitOthers)) then a1
    else if IsKnown(e.users, p.name) then KnownStep(a1, p, e)
    else UnknownStep(a1, p, e)
  }

  /** A known waiting participant: admitted exactly when AdmitKnown is set. */
  function KnownStep(a: Pass, p: Participant, e: PassEnv): (b: Pass)
    ensures b.waiting == a.waiting && b.failed == a.failed && b.next == a.next && b.messages == a.messages
    ensures Has(e.flags, AdmitKnown) <==> b.calls == a.calls + [AdmitParticipant(p)]
    ensures !Has(e.flags, AdmitKnown) <==> b.calls == a.calls
  {
    if Has(e.flags, AdmitKnown) then a.(calls := a.calls + [AdmitParticipant(p)]) else a
  }

  /**
   * An unknown waiting participant under AdmitOthers: the log line goes into
   * the set, and while the admission time is ahead the admission is tried;
   * a delivered one removes the line again and pushes `dtNextAdmission` on.
   */
  function UnknownStep(a: Pass, p: Participant, e: PassEnv): (b: Pass)
    ensures b.waiting == a.waiting && b.failed == a.failed
    ensures b.calls == a.calls || b.calls == a.calls + [AdmitParticipant(p)]
  {
    if !Has(e.flags, AdmitOthers) then a
    else
      var admitting := WhenToAdmit(p, a.next, e.waitSecs) >= e.now;
      var msg := AdmitMessage(e.u, p.name, admitting);
      var a2 := a.(messages := a.messages + {msg});
      if !admitting then a2
      else
        var c := AdmitParticipant(p);
        if e.answer(|a.calls|, c) then a2.(messages := a2.messages - {msg}, next := e.now + e.throttleSecs, calls := a.calls + [c])
        else a2.(calls := a.calls + [c])
  }

  /** The whole admission loop over `participants.Values`. */
  function AdmitPass(a: Pass, ps: seq<Participant>, e: PassEnv): Pass
    decreases |ps|
  {
    if ps == [] then a else AdmitStep(AdmitPass(a, ps[..|ps| - 1], e), ps[|ps| - 1], e)
  }

  /**
   * A known waiting participant is admitted only through AdmitKnown, never by
   * the unknown path: the throttle time and the log lines stay as they were.
   */
  lemma KnownWaitingUsesAdmitKnown(a: Pass, p: Participant, e: PassEnv)
    requires !a.failed && !p.isMe && p.status == Waiting && IsKnown(e.users, p.name)
    ensures var b := AdmitStep(a, p, e);
      b.waiting && b.next == a.next && b.messages == a.messages && !b.failed
      && b.calls == a.calls + (if Has(e.flags, AdmitKnown) then [AdmitParticipant(p)] else [])
  {
  }

  /** With AdmitKnown and AdmitOthers both off, a waiting participant is only noted as waiting. */
  lemma NoAdmitFlagsLeaveWaitingAlone(a: Pass, p: Participant, e: PassEnv)
    requires !a.failed && !p.isMe && p.status == Waiting
    requires !Has(e.flags, AdmitKnown) && !Has(e.flags, AdmitOthers)
    ensures AdmitStep(a, p, e) == a.(waiting := true)
  {
  }

  /**
   * The unknown path: the log line is added to the set (a set holds it at
   * most once); an attempt makes exactly one admission call; a delivered one
   * removes the line and moves the next admission to now plus the throttle.
   */
  lemma UnknownWaitingEffect(a: Pass, p: Participant, e: PassEnv)
    requires UnknownWaiting(a, p, e)
    ensures var b := AdmitStep(a, p, e);
      var msg := AdmitMessage(e.u, p.name, Attempts(a, p, e));
      b.waiting && !b.failed
      && (!Attempts(a, p, e) ==> b.calls == a.calls && b.next == a.next && b.messages == a.messages + {msg})
      && (Attempts(a, p, e) ==> b.calls == a.calls + [AdmitParticipant(p)])
      && (Attempts(a, p, e) && e.answer(|a.calls|, AdmitParticipant(p)) ==>
            b.next == e.now + e.throttleSecs && b.messages == a.messages - {msg})
      && (Attempts(a, p, e) && !e.answer(|a.calls|, AdmitParticipant(p)) ==>
            b.next == a.next && b.messages == a.messages + {msg})
  {
  }

  /**
   * As written, the comparison admits a participant who has just arrived: one
   * whose wait has not yet run out is tried at once, whatever the throttle.
   */
  lemma FreshArrivalIsTriedAtOnce(a: Pass, p: Participant, e: PassEnv)
    requires UnknownWaiting(a, p, e) && p.dtWaiting + e.waitSecs >= e.now
    ensures AdmitStep(a, p, e).calls == a.calls + [AdmitParticipant(p)]
  {
  }

  /** As written, a participant whose wait has run out is never tried once the next-admission time has passed too. */
  lemma LongWaiterIsNeverTried(a: Pass, p: Participant, e: PassEnv)
    requires UnknownWaiting(a, p, e) && p.dtWaiting + e.waitSecs < e.now && a.next < e.now
    ensures AdmitStep(a, p, e).calls == a.calls
  {
  }

  /**
   * As written, a delivered admission does not hold the next one back: with
   * a throttle of zero or more, every later unknown participant of the same
   * pass is tried as well.
   */
  lemma ThrottleDoesNotHoldBack(a: Pass, p: Participant, q: Participant, e: PassEnv)
    requires e.throttleSecs >= 0 && Attempts(a, p, e) && e.answer(|a.calls|, AdmitParticipant(p))
    requires UnknownWaiting(AdmitStep(a, p, e), q, e)
    ensures Attempts(AdmitStep(a, p, e), q, e)
  {
    assert AdmitStep(a, p, e).next == e.now + e.throttleSecs;
  }

  /**
   * An attending participant is promoted exactly when CoHostKnown is set, it
   * has no role, the bot is host and the roster marks it administrator; the
   * check throws when the bot has no record of itself.
   */
  lemma PromotionRule(a: Pass, p: Participant, e: PassEnv)
    requires !a.failed && !p.isMe && p.status == Attending
    ensures var b := AdmitStep(a, p, e);
      (b.failed <==> NeedsMyRole(a, p, e) && e.me.None?)
      && b.waiting == a.waiting && b.next == a.next && b.messages == a.messages
      && (b.calls == a.calls + [PromoteParticipant(p)] <==>
            Has(e.flags, CoHostKnown) && p.role == NoRole && e.me.Some? && e.me.value.role == Host && IsAdmin(e.users, p.name))
      && (b.calls != a.calls ==> b.calls == a.calls + [PromoteParticipant(p)])
  {
    var b := AdmitStep(a, p, e);
    if b.calls != a.calls {
      assert b.calls == a.calls + [PromoteParticipant(p)];
    }
    if b.calls == a.calls {
      assert b.calls != a.calls + [PromoteParticipant(p)] by {
        assert |a.calls + [PromoteParticipant(p)]| == |a.calls| + 1;
      }
    }
  }

  /** The calls a pass may make: admit a waiting participant (known or not) or promote an attending one. */
  predicate PassCall(c: Call, ps: seq<Participant>, e: PassEnv) {
    Concerns(c, ps) && Justified(c, e)
  }

  /** An admission or a promotion about one of `ps`. */
  predicate Concerns(c: Call, ps: seq<Participant>) {
    (c.AdmitParticipant? || c.PromoteParticipant?) && c.who in ps
  }

  /** Why the pass may make an admission or a promotion call about `c.who`. */
  predicate Justified(c: Call, e: PassEnv)
    requires c.AdmitParticipant? || c.PromoteParticipant?
  {
    if c.AdmitParticipant? then
      c.who.status == Waiting && !c.who.isMe
      && (IsKnown(e.users, c.who.name) ==> Has(e.flags, AdmitKnown))
      && (!IsKnown(e.users, c.who.name) ==> Has(e.flags, AdmitOthers))
    else
      c.who.status == Attending && !c.who.isMe && c.who.role == NoRole
      && Has(e.flags, CoHostKnown) && e.me.Some? && e.me.value.role == Host && IsAdmin(e.users, c.who.name)
  }

  /** One step adds at most one call, about the participant it looks at, and justified. */
  lemma StepCall(m: Pass, p: Participant, e: PassEnv)
    ensures var b := AdmitStep(m, p, e);
      |m.calls| <= |b.calls| <= |m.calls| + 1 && b.calls[..|m.calls|] == m.calls
      && (|b.calls| > |m.calls| ==>
            var c := b.calls[|m.calls|];
            (c.AdmitParticipant? || c.PromoteParticipant?) && c.who == p && Justified(c, e))
  {
    var b := AdmitStep(m, p, e);
    if b.calls != m.calls {
      if p.status == Waiting {
        assert b == WaitingStep(m, p, e);
      } else {
        assert b == AttendingStep(m, p, e);
      }
    }
  }

  /** Every call of a pass is justified by the flags, the roster and the participant it is about. */
  lemma {:induction false} PassCallsJustified(a: Pass, ps: seq<Participant>, e: PassEnv)
    ensures var b := AdmitPass(a, ps, e);
      |b.calls| >= |a.calls| && b.calls[..|a.calls|] == a.calls
      && forall i :: |a.calls| <= i < |b.calls| ==> PassCall(b.calls[i], ps, e)
    decreases |ps|
  {
    if ps != [] {
      var init := ps[..|ps| - 1];
      var p := ps[|ps| - 1];
      PassCallsJustified(a, init, e);
      var m := AdmitPass(a, init, e);
      var b := AdmitStep(m, p, e);
      StepCall(m, p, e);
      var ok := (c: Call) => (c.AdmitParticipant? || c.PromoteParticipant?) && Justified(c, e);
      assert |b.calls| > |m.calls| ==> Concerns(b.calls[|m.calls|], [p]) && ok(b.calls[|m.calls|]);
      ExtendCalls(a.calls, m.calls, b.calls, init, ps, ok);
    }
  }

  /** Calls about a prefix of the participants, followed by at most one about the last participant, all passing `ok`. */
  lemma ExtendCalls(start: seq<Call>, mid: seq<Call>, end: seq<Call>, init: seq<Participant>, ps: seq<Participant>, ok: Call -> bool)
    requires ps != [] && init == ps[..|ps| - 1]
    requires |start| <= |mid| && mid[..|start|] == start
    requires forall i :: |start| <= i < |mid| ==> Concerns(mid[i], init) && ok(mid[i])
    requires |mid| <= |end| <= |mid| + 1 && end[..|mid|] == mid
    requires |end| > |mid| ==> Concerns(end[|mid|], [ps[|ps| - 1]]) && ok(end[|mid|])
    ensures |end| >= |start| && end[..|start|] == start
    ensures forall i :: |start| <= i < |end| ==> Concerns(end[i], ps) && ok(end[i])
  {
    forall i | |start| <= i < |end| ensures Concerns(end[i], ps) && ok(end[i]) {
      if i < |mid| {
        assert end[i] == mid[i];
        var k :| 0 <= k < |init| && init[k] == mid[i].who;
        assert ps[k] == mid[i].who;
      } else {
        assert ps[|ps| - 1] in ps;
      }
    }
    assert end[..|start|] == mid[..|start|];
  }

  /** The waiting-room announcement is configured: a non-empty message and a positive delay. */
  predicate AnnouncementConfigured(message: Option<string>, delay: int) {
    message.Some? && message.value != [] && delay > 0
  }

  /** The first-greeting candidate: not me, on computer audio, audio connected, and a known user. */
  predicate Greetable(p: Participant, users: map<string, bool>) {
    !p.isMe && p.computerAudio && p.audio != Disconnected && IsKnown(users, p.name)
  }

  /** `plist.FindIndex(...)` for the first greeting. */
  function FirstGreetable(ps: seq<Participant>, users: map<string, bool>): (r: Option<nat>)
    ensures r.Some? ==> r.value < |ps| && Greetable(ps[r.value], users)
    ensures r.Some? ==> forall j :: 0 <= j < r.value ==> !Greetable(ps[j], users)
    ensures r.None? ==> forall j :: 0 <= j < |ps| ==> !Greetable(ps[j], users)
  {
    FindIndex(ps, p => Greetable(p, users))
  }

  /** The host hand-off candidate: the first co-host of `participants.Values`. */
  function FirstCoHost(ps: seq<Participant>): (r: Option<nat>)
    ensures r.Some? ==> r.value < |ps| && ps[r.value].role == CoHost && forall j :: 0 <= j < r.value ==> ps[j].role != CoHost
    ensures r.None? ==> forall j :: 0 <= j < |ps| ==> ps[j].role != CoHost
  {
    FindIndex(ps, (p: Participant) => p.role == CoHost)
  }

  // ---------------------------------------------------------------------------
  // The chat interpreter, as functions
  // ---------------------------------------------------------------------------

  /**
   * The message text and the reply recipient once the addressing test is
   * passed: a public message must name the bot (the name is removed and the
   * reply goes to everyone); a private one must be sent to "me".
   */
  function Addressed(e: ChatEvent, myName: string, everyone: string, u: Utils): (r: Option<(string, string)>)
    ensures e.isPrivate ==> (r.Some? <==> Lower(e.to) == "me") && (r.Some? ==> r.value == (Trim(e.text), e.from))
    ensures !e.isPrivate ==>
      (r.Some? <==> u.stripWord(Trim(e.text), myName) != Trim(e.text))
      && (r.Some? ==> r.value == (u.stripWord(Trim(e.text), myName), everyone))
  {
    var msg := Trim(e.text);
    if !e.isPrivate then
      var without := u.stripWord(msg, myName);
      if without == msg then None else Some((without, everyone))
    else if Lower(e.to) != "me" then None
    else Some((msg, e.from))
  }

  /** Where a chat message goes. */
  datatype Route =
    | Ignored
    | SmallTalk(text: string, replyTo: string)
    | TopicRequest(replyTo: string)
    | NotForMe
    | NotAdmin
    | UnknownSender
    | Command(line: CommandLine, replyTo: string, sender: Participant)

  /**
   * The checks at the top of `OnChatMessageReceive`: messages from "me" and
   * messages not addressed to the bot are dropped; text without a leading
   * slash is small talk; the exact text "/topic" is answered for anyone before
   * the addressee test; every other command must be sent to "me" by an
   * administrator the controller knows by name.
   */
  function RouteChat(e: ChatEvent, myName: string, users: map<string, bool>, participants: map<string, Participant>,
                     everyone: string, u: Utils): (r: Route)
    ensures r == Ignored <==> Lower(e.from) == "me" || Addressed(e, myName, everyone, u).None?
    ensures r != Ignored ==>
      var (text, replyTo) := Addressed(e, myName, everyone, u).value;
      (!StartsWith(text, "/") <==> r == SmallTalk(text, replyTo))
      && (StartsWith(text, "/") && text == "/topic" <==> r == TopicRequest(replyTo))
      && (r.Command? <==>
            StartsWith(text, "/") && text != "/topic" && Lower(e.to) == "me" && IsAdmin(users, e.from) && e.from in participants)
      && (r.Command? ==> r == Command(SplitCommand(text), replyTo, participants[e.from]))
  {
    if Lower(e.from) == "me" then Ignored
    else
      match Addressed(e, myName, everyone, u)
      case None => Ignored
      case Some(a) =>
        var (text, replyTo) := a;
        if !StartsWith(text, "/") then SmallTalk(text, replyTo)
        else if text == "/topic" then TopicRequest(replyTo)
        else if Lower(e.to) != "me" then NotForMe
        else if !IsAdmin(users, e.from) then NotAdmin
        else if e.from !in participants then UnknownSender
        else Command(SplitCommand(text), replyTo, participants[e.from])
  }

  /** "/topic" gets the same route whatever the roster and the participant list say about the sender. */
  lemma TopicIgnoresPrivilege(e: ChatEvent, myName: string, users1: map<string, bool>, users2: map<string, bool>,
                              ps1: map<string, Participant>, ps2: map<string, Participant>, everyone: string, u: Utils)
    requires Lower(e.from) != "me" && Addressed(e, myName, everyone, u).Some?
    requires Addressed(e, myName, everyone, u).value.0 == "/topic"
    ensures RouteChat(e, myName, users1, ps1, everyone, u) == RouteChat(e, myName, users2, ps2, everyone, u)
    ensures RouteChat(e, myName, users1, ps1, everyone, u) == TopicRequest(Addressed(e, myName, everyone, u).value.1)
  {
    assert StartsWith("/topic", "/");
  }

  /** What a command about one participant does: a reply, a reply and then a controller call, or the speaker notice. */
  datatype TargetAction =
    | Reply(text: string)
    | ReplyThen(text: string, call: Call)
    | SpeakerNotice

  predicate IsParticipantCall(c: Call) {
    c.RenameParticipant? || c.AdmitParticipant? || c.PromoteParticipant? || c.DemoteParticipant?
    || c.MuteParticipant? || c.UnmuteParticipant?
  }

  /** "me" names the sender; any other name is looked up in `participants`, where case matters. */
  function TargetName(target: string, from: string): string {
    if Lower(target) == "me" then from else target
  }

  /** The reply to a command aimed at the bot itself. */
  const UntouchableReply := "U Can't Touch This\n* MC Hammer Music *\nhttps://youtu.be/otCpCn0l4Wo"

  /**
   * The checks before a command about one participant: the name must be in
   * the participant list and not be the bot; rename refuses the sender's own
   * record; admit needs a waiting participant; the others an attending one,
   * promote one without a role and with video on, demote a co-host.
   */
  function TargetCommand(command: string, target: string, newName: Option<string>, from: string, sender: Participant,
                         participants: map<string, Participant>, u: Utils): (r: TargetAction)
    ensures TargetName(target, from) !in participants ==>
      r == Reply(u.format("Sorry, I don't see anyone named here named {0}. Remember, Case Matters!", [u.repr(TargetName(target, from))]))
    ensures r.ReplyThen? ==>
      TargetName(target, from) in participants && IsParticipantCall(r.call)
      && r.call.who == participants[TargetName(target, from)] && !r.call.who.isMe
  {
    var name := TargetName(target, from);
    if name !in participants then
      Reply(u.format("Sorry, I don't see anyone named here named {0}. Remember, Case Matters!", [u.repr(name)]))
    else
      var p := participants[name];
      if p.isMe then Reply(UntouchableReply)
      else ActOn(command, p, newName, sender, u)
  }

  /** What `TargetCommand` does to a participant found in the list who is not the bot. */
  function ActOn(command: string, p: Participant, newName: Option<string>, sender: Participant, u: Utils): (r: TargetAction)
    ensures r.ReplyThen? ==> IsParticipantCall(r.call) && r.call.who == p
    ensures r.ReplyThen? && r.call.RenameParticipant? <==> r.ReplyThen? && newName.Some?
    ensures r.ReplyThen? && r.call.RenameParticipant? ==> r.call.newName == newName.value && p.name != sender.name
    ensures r.ReplyThen? && r.call.AdmitParticipant? ==> command == "admit" && p.status == Waiting
    ensures r.ReplyThen? && !r.call.RenameParticipant? && !r.call.AdmitParticipant? ==> p.status == Attending
    ensures r.ReplyThen? && r.call.PromoteParticipant? ==> (command == "cohost" || command == "promote") && p.role == NoRole && p.videoOn
    ensures r.ReplyThen? && r.call.DemoteParticipant? ==> command == "demote" && p.role == CoHost
    ensures r.ReplyThen? && r.call.MuteParticipant? ==> command == "mute"
    ensures r.ReplyThen? && r.call.UnmuteParticipant? ==> command == "unmute"
    ensures r.SpeakerNotice? ==> command == "speaker" && newName.None?
  {
    var who := u.repr(p.name);
    if newName.Some? then
      if p.name == sender.name then Reply("Why don't you just rename yourself?")
      else ReplyThen(u.format("Renaming {0} to {1}", [who, u.repr(newName.value)]), RenameParticipant(p, newName.value))
    else if command == "admit" then
      if p.status != Waiting then Reply(u.format("Sorry, {0} is not waiting", [who]))
      else ReplyThen(u.format("Admitting {0}", [who]), AdmitParticipant(p))
    else if p.status != Attending then Reply(u.format("Sorry, {0} is not attending", [who]))
    else if command == "cohost" || command == "promote" then
      if p.role != NoRole then Reply(u.format("Sorry, {0} is already Host or Co-Host so cannot be promoted", [who]))
      else if !p.videoOn then Reply(u.format("Co-Host name matched for {0}, but video is off", [who]))
      else ReplyThen(u.format("Promoting {0} to Co-Host", [who]), PromoteParticipant(p))
    else if command == "demote" then
      if p.role != CoHost then Reply(u.format("Sorry, {0} isn't Co-Host so cannot be demoted", [who]))
      else ReplyThen(u.format("Demoting {0}", [who]), DemoteParticipant(p))
    else if command == "mute" then ReplyThen(u.format("Muting {0}", [who]), MuteParticipant(p))
    else if command == "unmute" then ReplyThen(u.format("Requesting {0} to Unmute", [who]), UnmuteParticipant(p))
    else if command == "speaker" then SpeakerNotice
    else Reply(u.format("Sorry, I don't know the command {0}", [u.repr(command)]))
  }

  /** The calls `LeaveMeeting` of a remote script makes. */
  function LeaveCalls(ends: seq<bool>): (cs: seq<Call>)
    ensures |cs| == |ends| && forall i :: 0 <= i < |ends| ==> cs[i] == LeaveMeeting(ends[i])
  {
    seq(|ends|, i requires 0 <= i < |ends| => LeaveMeeting(ends[i]))
  }

  /** The reply to `/waitmsg`; the last two go through the formatting overload with the argument as given. */
  function WaitReplyText(reply: WaitReply, target: string, u: Utils): string {
    match reply
    case TurnedOff => "Waiting room message has been turned off"
    case AlreadyOff => "Waiting room message is already off"
    case AlreadySetTo => u.format("Waiting room message is already set to:\n{0}", [target])
    case NowSetTo => u.format("Waiting room message has set to:\n{0}", [target])
  }

  /** The reply to a broadcast command the guard refuses. */
  function RefusalText(v: GuardVerdict, command: string): string {
    if v == AlreadySent then command + ": This broadcast message was already sent."
    else command + ": This broadcast message was already sent recently. Please try again later."
  }

  /** The fields the participant actions of a tick read and write. */
  datatype PartState = PartState(next: int, messages: set<string>, calls: seq<Call>,
                                 announced: int, first: Option<string>, greeted: map<string, string>)

  /** A participant-actions state and the exception that ended the step, if any. */
  datatype PartOutcome = PartOutcome(state: PartState, fault: Option<string>)

  /** The fields the chat handler reads and writes. */
  datatype ChatState = ChatState(greeted: map<string, string>, calls: seq<Call>, topic: Option<string>,
                                 broadcastSent: map<string, int>, mode: ModeState, waitMsg: Option<string>)

  /** A chat-handler state and the exception that ended the handler, if any. */
  datatype Outcome = Outcome(state: ChatState, fault: Option<string>)

  /** A chat-handler state and what `SendTopic` returned. */
  datatype TopicSent = TopicSent(state: ChatState, result: Result<bool>)

  /** The exception of a `SendTopic` result, if it threw. */
  function TopicFault(t: TopicSent): Outcome {
    Outcome(t.state, if t.result.Fault? then Some(t.result.reason) else None)
  }

  /** `b` is `a` followed by more calls. */
  predicate Extends(a: seq<Call>, b: seq<Call>) {
    |b| >= |a| && b[..|a|] == a
  }

  /** `calls1` is `calls0` and one more chat message to `to` that ends with `line`. */
  predicate SendsLine(calls0: seq<Call>, calls1: seq<Call>, to: string, line: string) {
    |calls1| == |calls0| + 1 && calls1[..|calls0|] == calls0
    && calls1[|calls0|].Chat? && calls1[|calls0|].to == to && EndsWith(calls1[|calls0|].text, line)
  }

  /** The calls of `DoChatActions`: the chat refresh and the queued messages, when ProcessChat is set. */
  function ChatActionCalls(flags: Flags): seq<Call> {
    if Has(flags, ProcessChat) then [UpdateChat, SendQueuedChatMessages] else []
  }

  // ---------------------------------------------------------------------------
  // The bot's state and handlers
  // ---------------------------------------------------------------------------

  /** The static state of `UsherBot`, the controller it drives, and the handlers. */
  class Bot {
    const settings: BotSettings
    const u: Utils
    /** `SpecialRecipient.EveryoneInMeeting` */
    const everyone: string
    /** `SpecialRecipient.EveryoneInWaitingRoom` */
    const waitingRoom: string
    /** `SpecialRecipient.IsEveryone` */
    const isEveryone: string -> bool
    /** the outcome of the `n`-th controller call: a delivered admission, a host hand-off that did not throw, a sent mail */
    const answer: (nat, Call) -> bool
    /** `chatBots`: loaded by `Run` only when Converse is set */
    const chatBots: Option<seq<ChatBotInfo>>
    /** `IChatBot.Converse(text, from)`; an exception is `None` */
    const converse: (ChatBotInfo, string, string) -> Option<string>

    /** `cfg.BotAutomationFlags`, `cfg.DebugLoggingEnabled`, `cfg.IsPaused` */
    var mode: ModeState
    /** `cfg.WaitingRoomAnnouncementMessage` */
    var waitMsg: Option<string>
    var goodUsers: map<string, bool>
    var dtLastGoodUserMod: int
    var topic: Option<string>
    /** `BroadcastSentTime` */
    var broadcastSent: map<string, int>
    var dtLastWaitingRoomAnnouncement: int
    var dtNextAdmission: int
    /** `HsParticipantMessages` */
    var messages: set<string>
    var firstParticipantGreeted: Option<string>
    /** `DicOneTimeHis`, keyed by name */
    var greeted: map<string, string>
    var shouldExit: bool
    var calls: seq<Call>

    /**
     * The static initialisers and `Run`: times start at `DateTime.MinValue`,
     * which is 0 here, and the plugins are sorted by intelligence level,
     * most intelligent first, when Converse is set.
     */
    constructor (settings: BotSettings, u: Utils, everyone: string, waitingRoom: string, isEveryone: string -> bool,
                 answer: (nat, Call) -> bool, plugins: seq<ChatBotInfo>, converse: (ChatBotInfo, string, string) -> Option<string>,
                 mode: ModeState, waitMsg: Option<string>)
      ensures this.settings == settings && this.u == u && this.everyone == everyone && this.waitingRoom == waitingRoom
      ensures this.isEveryone == isEveryone && this.answer == answer && this.converse == converse
      ensures Has(mode.flags, Converse) ==>
        chatBots.Some? && ByLevelDescending(chatBots.value) && multiset(chatBots.value) == multiset(plugins)
      ensures !Has(mode.flags, Converse) ==> chatBots.None?
      ensures this.mode == mode && this.waitMsg == waitMsg
      ensures goodUsers == map[] && dtLastGoodUserMod == 0 && topic.None? && broadcastSent == map[]
      ensures dtLastWaitingRoomAnnouncement == 0 && dtNextAdmission == 0 && messages == {}
      ensures firstParticipantGreeted.None? && greeted == map[] && !shouldExit && calls == []
    {
      this.settings, this.u, this.everyone, this.waitingRoom := settings, u, everyone, waitingRoom;
      this.isEveryone, this.answer, this.converse := isEveryone, answer, converse;
      this.chatBots := if Has(mode.flags, Converse) then Some(SortByLevel(plugins)) else None;
      this.mode, this.waitMsg := mode, waitMsg;
      goodUsers, dtLastGoodUserMod, topic, broadcastSent := map[], 0, None, map[];
      dtLastWaitingRoomAnnouncement, dtNextAdmission, messages := 0, 0, {};
      firstParticipantGreeted, greeted, shouldExit, calls := None, map[], false, [];
    }

    /** One controller call: logged, and answered by the oracle. */
    method Do(c: Call) returns (ok: bool)
      modifies this`calls
      ensures calls == old(calls) + [c]
      ensures ok == answer(|old(calls)|, c)
    {
      ok := answer(|calls|, c);
      calls := calls + [c];
    }

    static lemma AppendEmpty(a: seq<Call>)
      ensures a + [] == a
    {
    }

    static lemma AppendAssociates(a: seq<Call>, b: seq<Call>, c: seq<Call>)
      ensures (a + b) + c == a + (b + c)
    {
    }

    /** `SetMode`: `Ok(changed)`, or the exception for an unknown mode name. */
    method SetMode(name: string, on: bool) returns (r: Result<bool>)
      modifies this`mode
      ensures Modes.SetMode(old(mode), name, on).Fault? ==> r.Fault? && mode == old(mode)
      ensures Modes.SetMode(old(mode), name, on).Ok? ==>
        r == Ok(Modes.SetMode(old(mode), name, on).value.changed) && mode == Modes.SetMode(old(mode), name, on).value.next
    {
      match Modes.SetMode(mode, name, on)
      case Fault(reason) =>
        r := Fault(reason);
      case Ok(sw) =>
        mode := sw.next;
        r := Ok(sw.changed);
    }

    /** The one-time greeting `OneTimeHi(text, to)` gives from greeting table `greeted0`. */
    function HiFor(greeted0: map<string, string>, text: string, to: string): Option<string> {
      Phrases.OneTimeHi(greeted0, to, u.wordsOf(text), settings.oneTimeHis).reply
    }

    /** `OneTimeHi(text, to)`: nothing for a name already greeted, else the reply of the first word in the table, remembered. */
    method OneTimeHi(text: string, to: string) returns (reply: Option<string>)
      modifies this`greeted
      ensures var g := Phrases.OneTimeHi(old(greeted), to, u.wordsOf(text), settings.oneTimeHis);
        reply == g.reply && greeted == g.greeted
    {
      if to in greeted {
        return None;
      }
      reply := LookupFirst(u.wordsOf(text), settings.oneTimeHis);
      if reply.Some? {
        greeted := greeted[to := reply.value];
      }
    }

    /** `LoadGoodUsers`: rebuilds the roster from scratch when the file exists and its write time changed. */
    method LoadGoodUsers(file: Option<GoodUsersFile>)
      modifies this`goodUsers, this`dtLastGoodUserMod
      ensures file.None? || file.value.lastWrite == old(dtLastGoodUserMod) ==>
        goodUsers == old(goodUsers) && dtLastGoodUserMod == old(dtLastGoodUserMod)
      ensures file.Some? && file.value.lastWrite != old(dtLastGoodUserMod) ==>
        goodUsers == Directory(ParseAll(file.value.lines)) && dtLastGoodUserMod == file.value.lastWrite
    {
      if file.None? || file.value.lastWrite == dtLastGoodUserMod {
        return;
      }
      dtLastGoodUserMod := file.value.lastWrite;
      goodUsers := BuildDirectory(file.value.lines);
    }

    /** The fields the chat handler reads and writes, as one value. */
    function ChatFields(): ChatState
      reads this
    {
      ChatState(greeted, calls, topic, broadcastSent, mode, waitMsg)
    }

    /** The greeting table `OneTimeHi(text, to)` leaves, from table `greeted0`. */
    function HiGreeted(greeted0: map<string, string>, text: string, to: string): map<string, string> {
      Phrases.OneTimeHi(greeted0, to, u.wordsOf(text), settings.oneTimeHis).greeted
    }

    /**
     * `SendTopic(recipient, useDefault)`: `Ok(false)` and no message when
     * there is no topic line; otherwise the one-time "morning" greeting is
     * looked up, and the line, after that greeting formatted for the
     * recipient, goes to the recipient and the result is `Ok(true)` whatever
     * the send did.
     */
    function SendTopicOutcome(s: ChatState, recipient: string, useDefault: bool, hour: Hour): TopicSent {
      match GetTopic(s.topic, useDefault, hour, u)
      case None => TopicSent(s, Ok(false))
      case Some(line) =>
        var s1 := s.(greeted := HiGreeted(s.greeted, "morning", recipient));
        match TopicText(HiFor(s.greeted, "morning", recipient), recipient, line, hour, u)
        case Fault(reason) => TopicSent(s1, Fault(reason))
        case Ok(text) => TopicSent(s1.(calls := s.calls + [Chat(recipient, text)]), Ok(true))
    }

    /**
     * `SendTopic` changes no setting and sends at most one message: none
     * without a topic line or when formatting throws, otherwise one to the
     * recipient that ends with the line.
     */
    lemma SendTopicSendsTheLine(s: ChatState, recipient: string, useDefault: bool, hour: Hour)
      ensures var t := SendTopicOutcome(s, recipient, useDefault, hour);
        t.state.topic == s.topic && t.state.broadcastSent == s.broadcastSent && t.state.mode == s.mode && t.state.waitMsg == s.waitMsg
      ensures var t := SendTopicOutcome(s, recipient, useDefault, hour);
        GetTopic(s.topic, useDefault, hour, u).None? ==> t == TopicSent(s, Ok(false))
      ensures var t := SendTopicOutcome(s, recipient, useDefault, hour);
        t.result.Fault? ==> t.state.calls == s.calls && HiFor(s.greeted, "morning", recipient).Some?
      ensures var t := SendTopicOutcome(s, recipient, useDefault, hour);
        var line := GetTopic(s.topic, useDefault, hour, u);
        line.Some? && t.result.Ok? ==> SendsLine(s.calls, t.state.calls, recipient, line.value) && t.result == Ok(true)
    {
      var line := GetTopic(s.topic, useDefault, hour, u);
      if line.Some? {
        var text := TopicText(HiFor(s.greeted, "morning", recipient), recipient, line.value, hour, u);
        if text.Ok? {
          assert (s.calls + [Chat(recipient, text.value)])[..|s.calls|] == s.calls;
        }
      }
    }

    /** `SendTopic(recipient, useDefault)`. */
    method SendTopic(recipient: string, useDefault: bool, hour: Hour) returns (r: Result<bool>)
      modifies this`greeted, this`calls
      ensures TopicSent(ChatFields(), r) == SendTopicOutcome(old(ChatFields()), recipient, useDefault, hour)
    {
      var line := GetTopic(topic, useDefault, hour, u);
      if line.None? {
        return Ok(false);
      }
      var hi := OneTimeHi("morning", recipient);
      var text := TopicText(hi, recipient, line.value, hour, u);
      if text.Fault? {
        return Fault(text.reason);
      }
      var _ := Do(Chat(recipient, text.value));
      return Ok(true);
    }

    /** `SendTopic` with the default topic, its exception returned. */
    method AnswerTopic(recipient: string, hour: Hour) returns (fault: Option<string>)
      modifies this`greeted, this`calls
      ensures Outcome(ChatFields(), fault) == TopicFault(SendTopicOutcome(old(ChatFields()), recipient, true, hour))
    {
      var r := SendTopic(recipient, true, hour);
      fault := if r.Fault? then Some(r.reason) else None;
    }

    // The participant tick

    /** The environment of the admission loop in the current state. */
    function Env(me: Option<Participant>, now: int): PassEnv
      reads this`mode, this`goodUsers
    {
      EnvOf(mode.flags, goodUsers, me, now)
    }

    /** One participant of the admission loop. */
    method AdmitOne(p: Participant, me: Option<Participant>, now: int, waiting0: bool) returns (waiting: bool, failed: bool)
      modifies this`dtNextAdmission, this`messages, this`calls
      ensures Pass(waiting, dtNextAdmission, messages, calls, failed)
        == AdmitStep(Pass(waiting0, old(dtNextAdmission), old(messages), old(calls), false), p, Env(me, now))
    {
      ghost var a := Pass(waiting0, dtNextAdmission, messages, calls, false);
      waiting, failed := waiting0, false;
      if p.isMe {
        return;
      }
      if p.status == Attending {
        failed := PromoteIfAdmin(p, me, now, a);
      } else if p.status == Waiting {
        waiting := true;
        AdmitWaiting(p, me, now, a, Env(me, now));
      }
    }

    /** An attending participant: the co-host check, which throws when the bot has no record of itself. */
    method PromoteIfAdmin(p: Participant, me: Option<Participant>, now: int, ghost a: Pass) returns (failed: bool)
      requires !a.failed && a.calls == calls
      modifies this`calls
      ensures var b := AttendingStep(a, p, Env(me, now));
        calls == b.calls && failed == b.failed
    {
      failed := false;
      if !(Has(mode.flags, CoHostKnown) && p.role == NoRole) {
        return;
      }
      if me.None? {
        return true;
      }
      if me.value.role == Host && IsAdmin(goodUsers, p.name) {
        var _ := Do(PromoteParticipant(p));
      }
    }

    /** A waiting participant: a known one admitted under AdmitKnown, an unknown one tried under AdmitOthers. */
    method AdmitWaiting(p: Participant, me: Option<Participant>, now: int, ghost a: Pass, ghost e: PassEnv)
      requires a.next == dtNextAdmission && a.messages == messages && a.calls == calls
      requires e == Env(me, now)
      modifies this`dtNextAdmission, this`messages, this`calls
      ensures var b := WaitingStep(a, p, e);
        dtNextAdmission == b.next && messages == b.messages && calls == b.calls
    {
      if !(Has(mode.flags, AdmitKnown) || Has(mode.flags, AdmitOthers)) {
        return;
      }
      if IsKnown(goodUsers, p.name) {
        AdmitKnownWaiting(p, me, now, a.(waiting := true), e);
      } else {
        AdmitUnknownWaiting(p, me, now, a.(waiting := true), e);
      }
    }

    /** A known waiting participant. */
    method AdmitKnownWaiting(p: Participant, me: Option<Participant>, now: int, ghost a: Pass, ghost e: PassEnv)
      requires a.calls == calls
      requires e == Env(me, now)
      modifies this`calls
      ensures calls == KnownStep(a, p, e).calls
    {
      if Has(mode.flags, AdmitKnown) {
        var _ := Do(AdmitParticipant(p));
      }
    }

    /** An unknown waiting participant: the de-duplicated log line, then the admission while its time is ahead. */
    method AdmitUnknownWaiting(p: Participant, me: Option<Participant>, now: int, ghost a: Pass, ghost e: PassEnv)
      requires a.next == dtNextAdmission && a.messages == messages && a.calls == calls
      requires e == Env(me, now)
      modifies this`dtNextAdmission, this`messages, this`calls
      ensures var b := UnknownStep(a, p, e);
        dtNextAdmission == b.next && messages == b.messages && calls == b.calls
    {
      if !Has(mode.flags, AdmitOthers) {
        return;
      }
      var admitting := WhenToAdmit(p, dtNextAdmission, settings.waitSecs) >= now;
      var msg := AdmitMessage(u, p.name, admitting);
      if msg !in messages {
        messages := messages + {msg};
      }
      ghost var a2 := a.(messages := a.messages + {msg});
      assert messages == a2.messages;
      if admitting {
        TryAdmit(p, msg, now, e, a2);
      }
    }

    /** The admission of an unknown participant whose time is ahead; a delivered one clears its log line. */
    method TryAdmit(p: Participant, msg: string, now: int, ghost e: PassEnv, ghost a2: Pass)
      requires a2.next == dtNextAdmission && a2.messages == messages && a2.calls == calls
      requires e.answer == answer && e.throttleSecs == settings.throttleSecs
      modifies this`dtNextAdmission, this`messages, this`calls
      ensures e.answer(|a2.calls|, AdmitParticipant(p)) ==>
        messages == a2.messages - {msg} && dtNextAdmission == now + e.throttleSecs
      ensures !e.answer(|a2.calls|, AdmitParticipant(p)) ==> messages == a2.messages && dtNextAdmission == a2.next
      ensures calls == a2.calls + [AdmitParticipant(p)]
    {
      var ok := Do(AdmitParticipant(p));
      if ok {
        messages := messages - {msg};
        dtNextAdmission := now + settings.throttleSecs;
      }
    }

    /** The loop over `participants.Values`; it stops at the first exception. */
    method AdmitAll(ps: seq<Participant>, me: Option<Participant>, now: int) returns (waiting: bool, failed: bool)
      modifies this`dtNextAdmission, this`messages, this`calls
      ensures Pass(waiting, dtNextAdmission, messages, calls, failed)
        == AdmitPass(Pass(false, old(dtNextAdmission), old(messages), old(calls), false), ps, Env(me, now))
    {
      ghost var e := Env(me, now);
      ghost var start := Pass(false, dtNextAdmission, messages, calls, false);
      waiting, failed := false, false;
      var i := 0;
      while i < |ps| && !failed
        invariant 0 <= i <= |ps|
        invariant Pass(waiting, dtNextAdmission, messages, calls, failed) == AdmitPass(start, ps[..i], e)
      {
        assert ps[..i + 1][..i] == ps[..i];
        waiting, failed := AdmitOne(ps[i], me, now, waiting);
        i := i + 1;
      }
      FailedStays(start, ps, i, e);
    }

    /** Once a step has thrown, the rest of the loop changes nothing. */
    static lemma {:induction false} FailedStays(start: Pass, ps: seq<Participant>, i: nat, e: PassEnv)
      requires i <= |ps| && (i < |ps| ==> AdmitPass(start, ps[..i], e).failed)
      ensures AdmitPass(start, ps, e) == AdmitPass(start, ps[..i], e)
      decreases |ps|
    {
      if i == |ps| {
        assert ps[..i] == ps;
      } else {
        var init := ps[..|ps| - 1];
        assert init[..i] == ps[..i];
        FailedStays(start, init, i, e);
      }
    }

    /** The self-care calls, in order. */
    method DoSelfCare(me: Option<Participant>)
      modifies this`calls
      ensures calls == old(calls) + SelfCare(mode.flags, me, settings.myName)
    {
      if me.None? {
        AppendEmpty(calls);
        return;
      }
      var p := me.value;
      var flags := mode.flags;
      ghost var c0 := calls;
      if Has(flags, ReclaimHost) && p.role != Host {
        var _ := Do(Reclaim);
      } else {
        AppendEmpty(c0);
      }
      ghost var c1 := calls;
      assert c1 == c0 + ReclaimCalls(flags, p);
      if Has(flags, RenameMyself) && p.name != settings.myName {
        var _ := Do(RenameParticipant(p, settings.myName));
      } else {
        AppendEmpty(c1);
      }
      ghost var c2 := calls;
      assert c2 == c1 + RenameCalls(flags, p, settings.myName);
      if Has(flags, UnmuteMyself) && p.audio == Muted {
        var _ := Do(UnmuteParticipant(p));
      } else {
        AppendEmpty(c2);
      }
      ghost var c3 := calls;
      assert c3 == c2 + UnmuteCalls(flags, p);
      var _ := Do(UpdateMeetingOptions);
      SelfCareLog(c0, flags, p, settings.myName);
    }

    /** The log after the four self-care steps. */
    static lemma SelfCareLog(c0: seq<Call>, flags: Flags, p: Participant, myName: string)
      ensures c0 + ReclaimCalls(flags, p) + RenameCalls(flags, p, myName) + UnmuteCalls(flags, p) + [UpdateMeetingOptions]
        == c0 + SelfCare(flags, Some(p), myName)
    {
    }

    /** The fields the participant actions read and write, as one value. */
    function PartFields(): PartState
      reads this
    {
      PartState(dtNextAdmission, messages, calls, dtLastWaitingRoomAnnouncement, firstParticipantGreeted, greeted)
    }

    /** The environment of the admission loop under flags `flags` and roster `users`. */
    function EnvOf(flags: Flags, users: map<string, bool>, me: Option<Participant>, now: int): PassEnv {
      PassEnv(flags, users, me, settings.waitSecs, settings.throttleSecs, now, answer, u)
    }

    /**
     * `name` recorded as the first participant greeted, then the "morning"
     * greeting formatted and sent with the boot sound and the online line; a
     * formatting exception leaves the name recorded and sends nothing.
     */
    function GreetParticipantOutcome(s: PartState, name: string, hour: Hour): PartOutcome {
      var s1 := s.(first := Some(name), greeted := HiGreeted(s.greeted, "morning", name));
      match FormatChatResponse(HiFor(s.greeted, "morning", name), Some(name), hour, u)
      case Fault(reason) => PartOutcome(s1, Some(reason))
      case Ok(msg) => PartOutcome(s1.(calls := s.calls + GreetingCalls(msg)), None)
    }

    /** The first greetable participant, greeted; nothing when there is none. */
    function GreetFirstOutcome(s: PartState, ps: seq<Participant>, users: map<string, bool>, hour: Hour): PartOutcome {
      match FirstGreetable(ps, users)
      case None => PartOutcome(s, None)
      case Some(k) => GreetParticipantOutcome(s, ps[k].name, hour)
    }

    /** The first greeting: only when the bot started Zoom and nobody has been greeted yet. */
    function GreetOutcome(s: PartState, ps: seq<Participant>, users: map<string, bool>, hour: Hour): PartOutcome {
      if settings.zoomAlreadyRunning || s.first.Some? then PartOutcome(s, None)
      else GreetFirstOutcome(s, ps, users, hour)
    }

    /** The waiting-room announcement: once the delay has passed, sent to the waiting room and timed whether or not it went out. */
    function AnnounceOutcome(s: PartState, message: string, now2: int): PartState {
      if now2 < s.announced + settings.announceDelay then s
      else s.(calls := s.calls + [Chat(waitingRoom, message)], announced := now2)
    }

    /**
     * After the admission loop: while someone waits, an unconfigured
     * announcement returns from the handler (the greeting is skipped too)
     * and a configured one is sent when due; then the first greeting.
     */
    function AnnounceAndGreetOutcome(s: PartState, waiting: bool, ps: seq<Participant>, users: map<string, bool>,
                                     waitMsg: Option<string>, now2: int, hour: Hour): PartOutcome {
      if waiting then
        if !AnnouncementConfigured(waitMsg, settings.announceDelay) then PartOutcome(s, None)
        else GreetOutcome(AnnounceOutcome(s, waitMsg.value, now2), ps, users, hour)
      else GreetOutcome(s, ps, users, hour)
    }

    /** The admission pass of `DoParticipantActions`, after the participant refresh and the self-care calls. */
    function PassOf(s: PartState, flags: Flags, users: map<string, bool>, ps: seq<Participant>, me: Option<Participant>, now: int): Pass {
      AdmitPass(Pass(false, s.next, s.messages, s.calls + [UpdateParticipants] + SelfCare(flags, me, settings.myName), false),
                ps, EnvOf(flags, users, me, now))
    }

    /**
     * `DoParticipantActions`: nothing without ProcessParticipants; otherwise
     * the refresh, self care and the admission loop, whose exception ends the
     * handler, then the announcement and the first greeting.
     */
    function ParticipantActionsOutcome(s: PartState, flags: Flags, users: map<string, bool>, ps: seq<Participant>,
                                       me: Option<Participant>, waitMsg: Option<string>, now: int, now2: int, hour: Hour): PartOutcome {
      if !Has(flags, ProcessParticipants) then PartOutcome(s, None)
      else
        var pass := PassOf(s, flags, users, ps, me, now);
        var s1 := s.(next := pass.next, messages := pass.messages, calls := pass.calls);
        if pass.failed then PartOutcome(s1, Some("NullReferenceException"))
        else AnnounceAndGreetOutcome(s1, pass.waiting, ps, users, waitMsg, now2, hour)
    }

    /** The participant actions, then the chat actions when the first did not throw. */
    function ParticipantsThenChatOutcome(s: PartState, flags: Flags, users: map<string, bool>, ps: seq<Participant>,
                                         me: Option<Participant>, waitMsg: Option<string>, now: int, now2: int, hour: Hour): PartState {
      var o := ParticipantActionsOutcome(s, flags, users, ps, me, waitMsg, now, now2, hour);
      if o.fault.Some? then o.state else o.state.(calls := o.state.calls + ChatActionCalls(flags))
    }

    /** The participant part of a tick after the layout call: nothing while paused. */
    function TickPart(s: PartState, m: ModeState, users: map<string, bool>, ps: seq<Participant>,
                      me: Option<Participant>, waitMsg: Option<string>, now: int, now2: int, hour: Hour): PartState {
      if m.paused then s else ParticipantsThenChatOutcome(s, m.flags, users, ps, me, waitMsg, now, now2, hour)
    }

    /**
     * The first greeting happens at most once and only when the bot started
     * Zoom: once a name is recorded it and the greeting table stay, and a
     * newly recorded name is that of the first greetable participant.
     */
    lemma GreetsAtMostOnce(s: PartState, flags: Flags, users: map<string, bool>, ps: seq<Participant>,
                           me: Option<Participant>, waitMsg: Option<string>, now: int, now2: int, hour: Hour)
      ensures var o := ParticipantActionsOutcome(s, flags, users, ps, me, waitMsg, now, now2, hour).state;
        (s.first.Some? || settings.zoomAlreadyRunning ==> o.first == s.first && o.greeted == s.greeted)
        && (o.first != s.first ==> s.first.None? && FirstGreetable(ps, users).Some? && o.first == Some(ps[FirstGreetable(ps, users).value].name))
    {
      if Has(flags, ProcessParticipants) {
        var pass := PassOf(s, flags, users, ps, me, now);
        var s1 := s.(next := pass.next, messages := pass.messages, calls := pass.calls);
        if !pass.failed {
          if pass.waiting {
            if AnnouncementConfigured(waitMsg, settings.announceDelay) {
              GreetOnce(AnnounceOutcome(s1, waitMsg.value, now2), ps, users, hour);
            }
          } else {
            GreetOnce(s1, ps, users, hour);
          }
        }
      }
    }

    /** `GreetOutcome` greets at most once, and only the first greetable participant. */
    lemma GreetOnce(s: PartState, ps: seq<Participant>, users: map<string, bool>, hour: Hour)
      ensures var o := GreetOutcome(s, ps, users, hour).state;
        (s.first.Some? || settings.zoomAlreadyRunning ==> o.first == s.first && o.greeted == s.greeted)
        && (o.first != s.first ==> s.first.None? && FirstGreetable(ps, users).Some? && o.first == Some(ps[FirstGreetable(ps, users).value].name))
    {
    }

    /** "morning" without a one-time greeting makes the formatting throw: the name is recorded and nothing is sent. */
    lemma MorningWithoutGreetingThrows(s: PartState, name: string, hour: Hour)
      requires HiFor(s.greeted, "morning", name).None?
      ensures var o := GreetParticipantOutcome(s, name, hour);
        o.fault.Some? && o.state.first == Some(name) && o.state.calls == s.calls
    {
    }

    /**
     * The announcement time moves only to `now2`, only for a configured
     * announcement, only once the delay has passed since the last one, and
     * only when the pass saw someone waiting and did not throw.
     */
    lemma AnnouncementSpacing(s: PartState, flags: Flags, users: map<string, bool>, ps: seq<Participant>,
                              me: Option<Participant>, waitMsg: Option<string>, now: int, now2: int, hour: Hour)
      ensures var o := ParticipantActionsOutcome(s, flags, users, ps, me, waitMsg, now, now2, hour).state;
        o.announced != s.announced ==>
          var pass := PassOf(s, flags, users, ps, me, now);
          Has(flags, ProcessParticipants) && pass.waiting && !pass.failed
          && o.announced == now2 && AnnouncementConfigured(waitMsg, settings.announceDelay)
          && now2 >= s.announced + settings.announceDelay
    {
    }

    /** With someone waiting and no announcement configured, the handler returns before the greeting. */
    lemma UnconfiguredAnnouncementSkipsGreeting(s: PartState, flags: Flags, users: map<string, bool>, ps: seq<Participant>,
                                                me: Option<Participant>, waitMsg: Option<string>, now: int, now2: int, hour: Hour)
      requires Has(flags, ProcessParticipants) && !AnnouncementConfigured(waitMsg, settings.announceDelay)
      requires PassOf(s, flags, users, ps, me, now).waiting && !PassOf(s, flags, users, ps, me, now).failed
      ensures var o := ParticipantActionsOutcome(s, flags, users, ps, me, waitMsg, now, now2, hour);
        var pass := PassOf(s, flags, users, ps, me, now);
        o == PartOutcome(s.(next := pass.next, messages := pass.messages, calls := pass.calls), None)
    {
    }

    /**
     * An exception of the admission loop ends the tick: no announcement, no
     * greeting, and no chat actions after the pass's calls.
     */
    lemma FailedPassSkipsTheRest(s: PartState, flags: Flags, users: map<string, bool>, ps: seq<Participant>,
                                 me: Option<Participant>, waitMsg: Option<string>, now: int, now2: int, hour: Hour)
      requires Has(flags, ProcessParticipants) && PassOf(s, flags, users, ps, me, now).failed
      ensures var pass := PassOf(s, flags, users, ps, me, now);
        var t := ParticipantsThenChatOutcome(s, flags, users, ps, me, waitMsg, now, now2, hour);
        t == s.(next := pass.next, messages := pass.messages, calls := pass.calls)
        && ParticipantActionsOutcome(s, flags, users, ps, me, waitMsg, now, now2, hour).fault == Some("NullReferenceException")
    {
    }

    /**
     * Without ProcessParticipants the tick's participant part makes only the
     * chat-action calls and changes nothing else.
     */
    lemma ChatOnlyWithoutParticipants(s: PartState, flags: Flags, users: map<string, bool>, ps: seq<Participant>,
                                      me: Option<Participant>, waitMsg: Option<string>, now: int, now2: int, hour: Hour)
      requires !Has(flags, ProcessParticipants)
      ensures ParticipantsThenChatOutcome(s, flags, users, ps, me, waitMsg, now, now2, hour) == s.(calls := s.calls + ChatActionCalls(flags))
    {
    }

    /** The participant actions only append to the call log, and start with the refresh and the self-care calls. */
    lemma {:induction false} ParticipantActionsAppend(s: PartState, flags: Flags, users: map<string, bool>, ps: seq<Participant>,
                                                      me: Option<Participant>, waitMsg: Option<string>, now: int, now2: int, hour: Hour)
      requires Has(flags, ProcessParticipants)
      ensures var o := ParticipantActionsOutcome(s, flags, users, ps, me, waitMsg, now, now2, hour).state;
        var head := s.calls + [UpdateParticipants] + SelfCare(flags, me, settings.myName);
        Extends(head, o.calls)
    {
      var head := s.calls + [UpdateParticipants] + SelfCare(flags, me, settings.myName);
      AdmitPassExtendsCalls(Pass(false, s.next, s.messages, head, false), ps, EnvOf(flags, users, me, now));
      var pass := PassOf(s, flags, users, ps, me, now);
      var s1 := s.(next := pass.next, messages := pass.messages, calls := pass.calls);
      if !pass.failed {
        var a := if pass.waiting && AnnouncementConfigured(waitMsg, settings.announceDelay) then AnnounceOutcome(s1, waitMsg.value, now2) else s1;
        assert Extends(head, a.calls) by {
          if a != s1 {
            assert a.calls[..|head|] == pass.calls[..|head|];
          }
        }
        GreetExtends(a, ps, users, hour);
        ExtendsTrans(head, a.calls, ParticipantActionsOutcome(s, flags, users, ps, me, waitMsg, now, now2, hour).state.calls);
      }
    }

    /** The first greeting only appends to the call log. */
    lemma GreetExtends(s: PartState, ps: seq<Participant>, users: map<string, bool>, hour: Hour)
      ensures Extends(s.calls, GreetOutcome(s, ps, users, hour).state.calls)
    {
      var o := GreetOutcome(s, ps, users, hour);
      if o.state.calls != s.calls {
        var k := FirstGreetable(ps, users).value;
        var msg := FormatChatResponse(HiFor(s.greeted, "morning", ps[k].name), Some(ps[k].name), hour, u).value;
        assert (s.calls + GreetingCalls(msg))[..|s.calls|] == s.calls;
      }
    }

    static lemma ExtendsTrans(a: seq<Call>, b: seq<Call>, c: seq<Call>)
      requires Extends(a, b) && Extends(b, c)
      ensures Extends(a, c)
    {
      assert c[..|a|] == c[..|b|][..|a|];
    }

    /** A pass only appends to the call log. */
    static lemma {:induction false} AdmitPassExtendsCalls(a: Pass, ps: seq<Participant>, e: PassEnv)
      ensures Extends(a.calls, AdmitPass(a, ps, e).calls)
      decreases |ps|
    {
      if ps != [] {
        var init := ps[..|ps| - 1];
        AdmitPassExtendsCalls(a, init, e);
        var m := AdmitPass(a, init, e);
        StepExtends(m, ps[|ps| - 1], e);
        ExtendsTrans(a.calls, m.calls, AdmitStep(m, ps[|ps| - 1], e).calls);
      }
    }

    /** One step of the pass only appends to the call log. */
    static lemma StepExtends(m: Pass, p: Participant, e: PassEnv)
      ensures Extends(m.calls, AdmitStep(m, p, e).calls)
    {
      StepCall(m, p, e);
    }

    /** `DoParticipantActions`. */
    method DoParticipantActions(ps: seq<Participant>, me: Option<Participant>, now: int, now2: int, hour: Hour)
      returns (fault: Option<string>)
      modifies this`dtNextAdmission, this`messages, this`calls, this`dtLastWaitingRoomAnnouncement
      modifies this`firstParticipantGreeted, this`greeted
      ensures PartOutcome(PartFields(), fault)
        == ParticipantActionsOutcome(old(PartFields()), mode.flags, goodUsers, ps, me, waitMsg, now, now2, hour)
    {
      fault := None;
      if !Has(mode.flags, ProcessParticipants) {
        return;
      }
      var _ := Do(UpdateParticipants);
      DoSelfCare(me);
      var waiting, failed := AdmitAll(ps, me, now);
      if failed {
        return Some("NullReferenceException");
      }
      fault := AnnounceAndGreet(waiting, ps, now2, hour);
    }

    /** The part of `DoParticipantActions` after the loop: the announcement while someone waits, then the first greeting. */
    method AnnounceAndGreet(waiting: bool, ps: seq<Participant>, now2: int, hour: Hour) returns (fault: Option<string>)
      modifies this`calls, this`dtLastWaitingRoomAnnouncement, this`firstParticipantGreeted, this`greeted
      ensures PartOutcome(PartFields(), fault) == AnnounceAndGreetOutcome(old(PartFields()), waiting, ps, goodUsers, waitMsg, now2, hour)
    {
      fault := None;
      if waiting {
        if !AnnouncementConfigured(waitMsg, settings.announceDelay) {
          return;
        }
        AnnounceToWaitingRoom(now2);
      }
      if !settings.zoomAlreadyRunning && firstParticipantGreeted.None? {
        fault := GreetFirst(ps, hour);
      }
    }

    /** The waiting-room announcement, at most once per announcement delay, timed whether or not it went out. */
    method AnnounceToWaitingRoom(now2: int)
      requires AnnouncementConfigured(waitMsg, settings.announceDelay)
      modifies this`calls, this`dtLastWaitingRoomAnnouncement
      ensures PartFields() == AnnounceOutcome(old(PartFields()), waitMsg.value, now2)
    {
      if now2 >= dtLastWaitingRoomAnnouncement + settings.announceDelay {
        var _ := Do(Chat(waitingRoom, waitMsg.value));
        dtLastWaitingRoomAnnouncement := now2;
      }
    }

    /** The calls of the first greeting. */
    function GreetingCalls(msg: string): seq<Call> {
      [PlaySound("bootup"), SpeakText(settings.myName + " online."), ChatSpoken(everyone, true, msg)]
    }

    /**
     * The first greeting: the first known participant on connected computer
     * audio is recorded as greeted before the message is formatted, so a
     * formatting exception (always the case when "morning" has no one-time
     * greeting) means nobody is ever greeted.
     */
    method GreetFirst(ps: seq<Participant>, hour: Hour) returns (fault: Option<string>)
      modifies this`firstParticipantGreeted, this`greeted, this`calls
      ensures PartOutcome(PartFields(), fault) == GreetFirstOutcome(old(PartFields()), ps, goodUsers, hour)
    {
      var k := FirstGreetable(ps, goodUsers);
      if k.None? {
        return None;
      }
      fault := GreetParticipant(ps[k.value].name, hour);
    }

    /** Records `name` as the first participant greeted, then sends the "morning" one-time greeting. */
    method GreetParticipant(name: string, hour: Hour) returns (fault: Option<string>)
      modifies this`firstParticipantGreeted, this`greeted, this`calls
      ensures PartOutcome(PartFields(), fault) == GreetParticipantOutcome(old(PartFields()), name, hour)
    {
      firstParticipantGreeted := Some(name);
      var hi := OneTimeHi("morning", name);
      fault := SendGreeting(hi, name, hour);
    }

    /** The format and the three calls of the greeting; a formatting exception sends nothing. */
    method SendGreeting(hi: Option<string>, name: string, hour: Hour) returns (fault: Option<string>)
      modifies this`calls
      ensures hi.None? ==> fault.Some? && calls == old(calls)
      ensures var msg := FormatChatResponse(hi, Some(name), hour, u);
        (msg.Fault? ==> fault == Some(msg.reason) && calls == old(calls))
        && (msg.Ok? ==> fault.None? && calls == old(calls) + GreetingCalls(msg.value))
    {
      var text := FormatChatResponse(hi, Some(name), hour, u);
      if text.Fault? {
        return Some(text.reason);
      }
      fault := None;
      var _ := Do(PlaySound("bootup"));
      var _ := Do(SpeakText(settings.myName + " online."));
      var _ := Do(ChatSpoken(everyone, true, text.value));
    }

    /** `DoChatActions`: refresh the chat and send what is queued, when ProcessChat is set. */
    method DoChatActions()
      modifies this`calls
      ensures calls == old(calls) + ChatActionCalls(mode.flags)
    {
      if Has(mode.flags, ProcessChat) {
        var _ := Do(UpdateChat);
        var _ := Do(SendQueuedChatMessages);
      } else {
        AppendEmpty(calls);
      }
    }

    // The remote command file

    /** `ReadRemoteCommands`: every line of the file, in order; the file system, and so the deletion of the file, is not part of this model. */
    method ReadRemoteCommands(file: Option<seq<string>>)
      modifies this`mode, this`calls, this`shouldExit
      ensures mode == ModesAfter(old(mode), ScriptOf(file))
      ensures calls == old(calls) + LeaveCalls(LeavesOf(ScriptOf(file)))
      ensures shouldExit == (old(shouldExit) || ExitsIn(ScriptOf(file)))
    {
      if file.Some? {
        RunRemoteLines(file.value);
      } else {
        AppendEmpty(calls);
      }
    }

    /** The lines of the command file, in order. */
    method RunRemoteLines(lines: seq<string>)
      modifies this`mode, this`calls, this`shouldExit
      ensures mode == ModesAfter(old(mode), RemoteScript(lines))
      ensures calls == old(calls) + LeaveCalls(LeavesOf(RemoteScript(lines)))
      ensures shouldExit == (old(shouldExit) || ExitsIn(RemoteScript(lines)))
    {
      AppendEmpty(calls);
      var i := 0;
      while i < |lines|
        invariant 0 <= i <= |lines|
        invariant mode == ModesAfter(old(mode), RemoteScript(lines[..i]))
        invariant calls == old(calls) + LeaveCalls(LeavesOf(RemoteScript(lines[..i])))
        invariant shouldExit == (old(shouldExit) || ExitsIn(RemoteScript(lines[..i])))
      {
        RunRemoteLine(lines, i, old(mode), old(calls), old(shouldExit));
        i := i + 1;
      }
      assert lines[..i] == lines;
    }

    /** Line `i` of the file, run after the lines before it. */
    method RunRemoteLine(lines: seq<string>, i: nat, ghost st: ModeState, ghost log: seq<Call>, ghost exiting: bool)
      requires i < |lines|
      requires mode == ModesAfter(st, RemoteScript(lines[..i]))
      requires calls == log + LeaveCalls(LeavesOf(RemoteScript(lines[..i])))
      requires shouldExit == (exiting || ExitsIn(RemoteScript(lines[..i])))
      modifies this`mode, this`calls, this`shouldExit
      ensures mode == ModesAfter(st, RemoteScript(lines[..i + 1]))
      ensures calls == log + LeaveCalls(LeavesOf(RemoteScript(lines[..i + 1])))
      ensures shouldExit == (exiting || ExitsIn(RemoteScript(lines[..i + 1])))
    {
      RunRemoteActions(RemoteActions(lines[i]));
      ScriptLineStep(st, log, lines, i);
    }

    /** The state after `i + 1` lines is the state after `i` lines followed by line `i`. */
    static lemma ScriptLineStep(st: ModeState, log: seq<Call>, lines: seq<string>, i: nat)
      requires i < |lines|
      ensures var before := RemoteScript(lines[..i]);
        var line := RemoteActions(lines[i]);
        var after := RemoteScript(lines[..i + 1]);
        ModesAfter(st, after) == ModesAfter(ModesAfter(st, before), line)
        && log + LeaveCalls(LeavesOf(after)) == (log + LeaveCalls(LeavesOf(before))) + LeaveCalls(LeavesOf(line))
        && ExitsIn(after) == (ExitsIn(before) || ExitsIn(line))
    {
      var before := RemoteScript(lines[..i]);
      var line := RemoteActions(lines[i]);
      assert lines[..i + 1][..i] == lines[..i];
      assert RemoteScript(lines[..i + 1]) == before + line;
      ScriptAppend(st, before, line);
      LeaveCallsAppend(LeavesOf(before), LeavesOf(line));
      AppendAssociates(log, LeaveCalls(LeavesOf(before)), LeaveCalls(LeavesOf(line)));
    }

    /** The actions of one line, in order. */
    method RunRemoteActions(actions: seq<RemoteAction>)
      modifies this`mode, this`calls, this`shouldExit
      ensures mode == ModesAfter(old(mode), actions)
      ensures calls == old(calls) + LeaveCalls(LeavesOf(actions))
      ensures shouldExit == (old(shouldExit) || ExitsIn(actions))
    {
      AppendEmpty(calls);
      var j := 0;
      while j < |actions|
        invariant 0 <= j <= |actions|
        invariant mode == ModesAfter(old(mode), actions[..j])
        invariant calls == old(calls) + LeaveCalls(LeavesOf(actions[..j]))
        invariant shouldExit == (old(shouldExit) || ExitsIn(actions[..j]))
      {
        ghost var done := actions[..j];
        assert actions[..j + 1] == done + [actions[j]];
        ScriptStep(old(mode), done, actions[j]);
        RunRemoteAction(actions[j]);
        AppendAssociates(old(calls), LeaveCalls(LeavesOf(done)), if actions[j].Leave? then [LeaveMeeting(actions[j].endForAll)] else []);
        j := j + 1;
      }
      assert actions[..j] == actions;
    }

    static lemma LeaveCallsAppend(a: seq<bool>, b: seq<bool>)
      ensures LeaveCalls(a + b) == LeaveCalls(a) + LeaveCalls(b)
    {
    }

    /** One action of a remote script: "exit" leaves without ending the meeting and stops the bot, "kill" ends the meeting. */
    method RunRemoteAction(a: RemoteAction)
      modifies this`mode, this`calls, this`shouldExit
      ensures mode == ModeStep(old(mode), a)
      ensures calls == old(calls) + (if a.Leave? then [LeaveMeeting(a.endForAll)] else [])
      ensures shouldExit == (old(shouldExit) || (a.Leave? && a.exit))
    {
      AppendEmpty(calls);
      match a
      case SwitchMode(name, on) =>
        var _ := SetMode(name, on);
      case Leave(endForAll, exit) =>
        var _ := Do(LeaveMeeting(endForAll));
        if exit {
          shouldExit := true;
        }
      case UnknownCommand(_) =>
    }

    /** The script functions unfold at an appended action. */
    static lemma ScriptStep(st: ModeState, s: seq<RemoteAction>, a: RemoteAction)
      ensures ModesAfter(st, s + [a]) == ModeStep(ModesAfter(st, s), a)
      ensures LeaveCalls(LeavesOf(s + [a])) == LeaveCalls(LeavesOf(s)) + (if a.Leave? then [LeaveMeeting(a.endForAll)] else [])
      ensures ExitsIn(s + [a]) == (ExitsIn(s) || (a.Leave? && a.exit))
    {
      var t := s + [a];
      assert t[..|s|] == s && t[|s|] == a;
      var ends := LeavesOf(s) + (if a.Leave? then [a.endForAll] else []);
      assert LeavesOf(t) == ends;
      assert LeaveCalls(ends) == LeaveCalls(LeavesOf(s)) + (if a.Leave? then [LeaveMeeting(a.endForAll)] else []);
      if ExitsIn(t) && !(a.Leave? && a.exit) {
        var i :| 0 <= i < |t| && t[i].Leave? && t[i].exit;
        assert i < |s| && s[i] == t[i];
      }
      if ExitsIn(s) {
        var i :| 0 <= i < |s| && s[i].Leave? && s[i].exit;
        assert t[i] == s[i];
      }
      if a.Leave? && a.exit {
        assert t[|s|] == a;
      }
    }

    // Leaving and the timer tick

    /**
     * `UsherBot.LeaveMeeting(endForAll)`: a host that leaves without ending
     * the meeting first passes the host role to the first co-host; the
     * meeting ends for all when there is none or the hand-off throws. The
     * bot's own record is read only when the meeting is not ended for all,
     * and a missing one throws before anything is done.
     */
    method LeaveMeetingSafely(endForAll: bool, me: Option<Participant>, ps: seq<Participant>) returns (fault: Option<string>)
      modifies this`calls
      ensures !endForAll && me.None? ==> fault.Some? && calls == old(calls)
      ensures endForAll || (me.Some? && me.value.role != Host) ==> fault.None? && calls == old(calls) + [LeaveMeeting(endForAll)]
      ensures !endForAll && me.Some? && me.value.role == Host && FirstCoHost(ps).None? ==>
        fault.None? && calls == old(calls) + [LeaveMeeting(true)]
      ensures !endForAll && me.Some? && me.value.role == Host && FirstCoHost(ps).Some? ==>
        var promote := PromoteToHost(ps[FirstCoHost(ps).value]);
        fault.None? && calls == old(calls) + [promote, LeaveMeeting(!answer(|old(calls)|, promote))]
    {
      fault := None;
      var end := endForAll;
      if !end {
        if me.None? {
          return Some("NullReferenceException");
        }
        if me.value.role == Host {
          var alt := FindCoHost(ps);
          if alt.None? {
            end := true;
          } else {
            var ok := Do(PromoteToHost(ps[alt.value]));
            if !ok {
              end := true;
            }
          }
        }
      }
      var _ := Do(LeaveMeeting(end));
    }

    /** The `foreach` that looks for a co-host to hand the host role to. */
    static method FindCoHost(ps: seq<Participant>) returns (alt: Option<nat>)
      ensures alt == FirstCoHost(ps)
    {
      alt := None;
      var i := 0;
      while i < |ps|
        invariant 0 <= i <= |ps|
        invariant forall j :: 0 <= j < i ==> ps[j].role != CoHost
      {
        if ps[i].role == CoHost {
          FirstCoHostAt(ps, i);
          return Some(i);
        }
        i := i + 1;
      }
      NoCoHost(ps);
    }

    static lemma FirstCoHostAt(ps: seq<Participant>, i: nat)
      requires i < |ps| && ps[i].role == CoHost && forall j :: 0 <= j < i ==> ps[j].role != CoHost
      ensures FirstCoHost(ps) == Some(i)
    {
    }

    static lemma NoCoHost(ps: seq<Participant>)
      requires forall j :: 0 <= j < |ps| ==> ps[j].role != CoHost
      ensures FirstCoHost(ps).None?
    {
    }

    /**
     * `TimerIdleHandler`: nothing once exiting; otherwise reload the roster,
     * run the remote commands and lay out the windows, then, unless paused,
     * the participant actions and, when they did not throw, the chat actions.
     * Exceptions are logged and dropped.
     */
    method Tick(roster: Option<GoodUsersFile>, remote: Option<seq<string>>, ps: seq<Participant>,
                me: Option<Participant>, now: int, now2: int, hour: Hour)
      modifies this
      ensures old(shouldExit) ==> unchanged(this)
      ensures !old(shouldExit) && (roster.None? || roster.value.lastWrite == old(dtLastGoodUserMod)) ==>
        goodUsers == old(goodUsers) && dtLastGoodUserMod == old(dtLastGoodUserMod)
      ensures !old(shouldExit) && roster.Some? && roster.value.lastWrite != old(dtLastGoodUserMod) ==>
        goodUsers == Directory(ParseAll(roster.value.lines)) && dtLastGoodUserMod == roster.value.lastWrite
      ensures !old(shouldExit) ==>
        mode == ModesAfter(old(mode), ScriptOf(remote)) && shouldExit == ExitsIn(ScriptOf(remote))
        && topic == old(topic) && broadcastSent == old(broadcastSent) && waitMsg == old(waitMsg)
        && PartFields() == TickPart(old(PartFields()).(calls := old(calls) + LeaveCalls(LeavesOf(ScriptOf(remote))) + [LayoutWindows]),
                                    mode, goodUsers, ps, me, waitMsg, now, now2, hour)
    {
      if shouldExit {
        return;
      }
      LoadThenRun(roster, remote, ps, me, now, now2, hour);
    }

    /** A tick that is not exiting: the roster, then the rest. */
    method LoadThenRun(roster: Option<GoodUsersFile>, remote: Option<seq<string>>, ps: seq<Participant>,
                       me: Option<Participant>, now: int, now2: int, hour: Hour)
      requires !shouldExit
      modifies this`goodUsers, this`dtLastGoodUserMod, this`mode, this`calls, this`shouldExit
      modifies this`dtNextAdmission, this`messages, this`dtLastWaitingRoomAnnouncement, this`firstParticipantGreeted, this`greeted
      ensures roster.None? || roster.value.lastWrite == old(dtLastGoodUserMod) ==>
        goodUsers == old(goodUsers) && dtLastGoodUserMod == old(dtLastGoodUserMod)
      ensures roster.Some? && roster.value.lastWrite != old(dtLastGoodUserMod) ==>
        goodUsers == Directory(ParseAll(roster.value.lines)) && dtLastGoodUserMod == roster.value.lastWrite
      ensures mode == ModesAfter(old(mode), ScriptOf(remote)) && shouldExit == ExitsIn(ScriptOf(remote))
      ensures PartFields() == TickPart(old(PartFields()).(calls := old(calls) + LeaveCalls(LeavesOf(ScriptOf(remote))) + [LayoutWindows]),
                                       mode, goodUsers, ps, me, waitMsg, now, now2, hour)
    {
      ghost var p0 := PartFields();
      LoadGoodUsers(roster);
      assert PartFields() == p0;
      RemoteThenParticipants(remote, ps, me, now, now2, hour);
    }

    /** The rest of the tick after the roster: the remote commands and the layout, then, unless paused, the actions. */
    method RemoteThenParticipants(remote: Option<seq<string>>, ps: seq<Participant>,
                                  me: Option<Participant>, now: int, now2: int, hour: Hour)
      modifies this`mode, this`calls, this`shouldExit
      modifies this`dtNextAdmission, this`messages, this`dtLastWaitingRoomAnnouncement, this`firstParticipantGreeted, this`greeted
      ensures mode == ModesAfter(old(mode), ScriptOf(remote))
      ensures shouldExit == (old(shouldExit) || ExitsIn(ScriptOf(remote)))
      ensures PartFields() == TickPart(old(PartFields()).(calls := old(calls) + LeaveCalls(LeavesOf(ScriptOf(remote))) + [LayoutWindows]),
                                       mode, goodUsers, ps, me, waitMsg, now, now2, hour)
    {
      RemoteAndLayout(remote);
      if mode.paused {
        return;
      }
      ParticipantsThenChat(ps, me, now, now2, hour);
    }

    /** The remote commands, then `LayoutWindows`. */
    method RemoteAndLayout(remote: Option<seq<string>>)
      modifies this`mode, this`calls, this`shouldExit
      ensures mode == ModesAfter(old(mode), ScriptOf(remote))
      ensures shouldExit == (old(shouldExit) || ExitsIn(ScriptOf(remote)))
      ensures calls == old(calls) + LeaveCalls(LeavesOf(ScriptOf(remote))) + [LayoutWindows]
    {
      ReadRemoteCommands(remote);
      var _ := Do(LayoutWindows);
    }

    /** `DoParticipantActions`, then `DoChatActions` unless the first threw. */
    method ParticipantsThenChat(ps: seq<Participant>, me: Option<Participant>, now: int, now2: int, hour: Hour)
      modifies this`dtNextAdmission, this`messages, this`calls, this`dtLastWaitingRoomAnnouncement
      modifies this`firstParticipantGreeted, this`greeted
      ensures PartFields() == ParticipantsThenChatOutcome(old(PartFields()), mode.flags, goodUsers, ps, me, waitMsg, now, now2, hour)
    {
      var fault := DoParticipantActions(ps, me, now, now2, hour);
      if fault.None? {
        DoChatActions();
      }
    }

    // The chat handler

    /**
     * `OnChatMessageReceive`: ignored and refused messages change nothing;
     * small talk, "/topic" and an administrator's command each go to their
     * own branch. A thrown exception ends the handler with what was done
     * before it.
     */
    function ChatMessageOutcome(s: ChatState, e: ChatEvent, users: map<string, bool>, participants: map<string, Participant>,
                                now: int, hour: Hour, randomTalk: Option<string>): Outcome {
      RouteOutcome(s, RouteChat(e, settings.myName, users, participants, everyone, u), e.from, participants, now, hour, randomTalk)
    }

    /** The branch a routed message from `from` reaches. */
    function RouteOutcome(s: ChatState, r: Route, from: string, participants: map<string, Participant>,
                          now: int, hour: Hour, randomTalk: Option<string>): Outcome {
      match r
      case Ignored => Outcome(s, None)
      case NotForMe => Outcome(s, None)
      case NotAdmin => Outcome(s, None)
      case UnknownSender => Outcome(s, None)
      case SmallTalk(text, replyTo) => TalkBackOutcome(s, text, replyTo, from, |participants| == 2, hour, randomTalk)
      case TopicRequest(replyTo) => TopicFault(SendTopicOutcome(s, replyTo, true, hour))
      case Command(line, replyTo, sender) => CommandOutcome(s, line, replyTo, sender, from, participants, now, hour)
    }

    /**
     * Only an administrator's command changes a setting: a message that is
     * ignored or refused changes nothing at all, small talk and "/topic"
     * change only the greeting table and append to the call log, and a
     * sender who is not an administrator never reaches a command.
     */
    lemma OnlyCommandsChangeSettings(s: ChatState, e: ChatEvent, users: map<string, bool>, participants: map<string, Participant>,
                                     now: int, hour: Hour, randomTalk: Option<string>)
      ensures var r := RouteChat(e, settings.myName, users, participants, everyone, u);
        r == Ignored || r == NotForMe || r == NotAdmin || r == UnknownSender ==>
          ChatMessageOutcome(s, e, users, participants, now, hour, randomTalk) == Outcome(s, None)
      ensures var r := RouteChat(e, settings.myName, users, participants, everyone, u);
        var o := ChatMessageOutcome(s, e, users, participants, now, hour, randomTalk);
        !r.Command? ==> o.state == s.(greeted := o.state.greeted, calls := o.state.calls) && Extends(s.calls, o.state.calls)
      ensures var o := ChatMessageOutcome(s, e, users, participants, now, hour, randomTalk);
        !IsAdmin(users, e.from) ==>
          o.state.topic == s.topic && o.state.mode == s.mode && o.state.broadcastSent == s.broadcastSent && o.state.waitMsg == s.waitMsg
    {
      var r := RouteChat(e, settings.myName, users, participants, everyone, u);
      RouteKeepsSettings(s, r, e.from, participants, now, hour, randomTalk);
    }

    /** Every route but a command changes only the greeting table and appends to the call log; the refused ones change nothing. */
    lemma RouteKeepsSettings(s: ChatState, r: Route, from: string, participants: map<string, Participant>,
                             now: int, hour: Hour, randomTalk: Option<string>)
      ensures var o := RouteOutcome(s, r, from, participants, now, hour, randomTalk);
        (r == Ignored || r == NotForMe || r == NotAdmin || r == UnknownSender ==> o == Outcome(s, None))
        && (!r.Command? ==> o.state == s.(greeted := o.state.greeted, calls := o.state.calls) && Extends(s.calls, o.state.calls))
    {
      match r
      case SmallTalk(text, replyTo) =>
        SmallTalkChangesNoSetting(s, text, replyTo, from, |participants| == 2, hour, randomTalk);
      case TopicRequest(replyTo) =>
        SendTopicSendsTheLine(s, replyTo, true, hour);
        TopicExtends(s, replyTo, hour);
      case _ =>
        AppendEmpty(s.calls);
        AppendExtends(s.calls, []);
    }

    /** "/topic" from anyone gets at most one message, to whoever asked, ending with the topic line. */
    lemma TopicRequestGetsTheLine(s: ChatState, e: ChatEvent, users: map<string, bool>, participants: map<string, Participant>,
                                  now: int, hour: Hour, randomTalk: Option<string>)
      requires RouteChat(e, settings.myName, users, participants, everyone, u).TopicRequest?
      ensures var replyTo := RouteChat(e, settings.myName, users, participants, everyone, u).replyTo;
        var o := ChatMessageOutcome(s, e, users, participants, now, hour, randomTalk);
        (o.fault.None? ==> SendsLine(s.calls, o.state.calls, replyTo, GetTopic(s.topic, true, hour, u).value))
        && (o.fault.Some? ==> o.state.calls == s.calls)
    {
      SendTopicSendsTheLine(s, RouteChat(e, settings.myName, users, participants, everyone, u).replyTo, true, hour);
    }

    /** `SendTopic` only appends to the call log. */
    lemma TopicExtends(s: ChatState, recipient: string, hour: Hour)
      ensures Extends(s.calls, SendTopicOutcome(s, recipient, true, hour).state.calls)
    {
      SendTopicSendsTheLine(s, recipient, true, hour);
      AppendEmpty(s.calls);
      AppendExtends(s.calls, []);
    }

    /** `OnChatMessageReceive`. */
    method OnChatMessageReceive(e: ChatEvent, participants: map<string, Participant>, now: int, hour: Hour,
                                randomTalk: Option<string>) returns (fault: Option<string>)
      modifies this`greeted, this`calls, this`topic, this`broadcastSent, this`mode, this`waitMsg
      ensures Outcome(ChatFields(), fault) == ChatMessageOutcome(old(ChatFields()), e, goodUsers, participants, now, hour, randomTalk)
    {
      var route := RouteChat(e, settings.myName, goodUsers, participants, everyone, u);
      fault := AnswerRoute(route, e.from, participants, now, hour, randomTalk);
    }

    /** The branch a routed message reaches. */
    method AnswerRoute(route: Route, from: string, participants: map<string, Participant>, now: int, hour: Hour,
                       randomTalk: Option<string>) returns (fault: Option<string>)
      modifies this`greeted, this`calls, this`topic, this`broadcastSent, this`mode, this`waitMsg
      ensures Outcome(ChatFields(), fault) == RouteOutcome(old(ChatFields()), route, from, participants, now, hour, randomTalk)
    {
      fault := None;
      match route
      case Ignored =>
      case NotForMe =>
      case NotAdmin =>
      case UnknownSender =>
      case SmallTalk(text, replyTo) =>
        fault := TalkBack(text, replyTo, from, |participants| == 2, hour, randomTalk);
      case TopicRequest(replyTo) =>
        fault := AnswerTopic(replyTo, hour);
      case Command(line, replyTo, sender) =>
        fault := RunCommand(line, replyTo, sender, from, participants, now, hour);
    }

    /** `IsMatch($"\\b${key}\\b", text, IgnoreCase)`: the pattern is passed where the input belongs, as written. */
    function KeywordHit(text: string): string -> bool {
      k => u.isMatch("\\b$" + k + "\\b", text)
    }

    /**
     * The canned reply of the last broadcast key, in the table's order, that
     * matches; none when no key matches.
     */
    function KeywordFor(text: string): (r: Option<string>)
      ensures r == KeywordReply(settings.broadcastOrder, settings.broadcasts, KeywordHit(text))
      ensures r.Some? <==> exists k :: k in settings.broadcasts && u.isMatch("\\b$" + k + "\\b", text)
      ensures r.Some? ==> exists i :: 0 <= i < |settings.broadcastOrder| && settings.broadcastOrder[i] in settings.broadcasts && u.isMatch("\\b$" + settings.broadcastOrder[i] + "\\b", text)
                                    && r.value == settings.broadcasts[settings.broadcastOrder[i]]
                                    && forall j :: i < j < |settings.broadcastOrder| ==> !u.isMatch("\\b$" + settings.broadcastOrder[j] + "\\b", text)
      ensures r.Some? ==> r.value in settings.broadcasts.Values
    {
      KeywordReplyOverTable(settings.broadcastOrder, settings.broadcasts, KeywordHit(text));
      KeywordReply(settings.broadcastOrder, settings.broadcasts, KeywordHit(text))
    }

    /** The topic test of small talk, with the arguments in the order written. */
    predicate AsksForTopic(text: string) {
      u.isMatch("\\b(topic|reading)\\b", text)
    }

    /** One chat bot asked to answer `text` from `name`. */
    function AskBot(text: string, name: string): ChatBotInfo -> Option<string> {
      b => converse(b, text, name)
    }

    /** What the chat bots answer, asked in order until one of them does; none without chat bots. */
    function BotsAnswer(text: string, name: string): (r: Option<string>)
      ensures r == (if chatBots.None? then None else FirstAnswer(chatBots.value, AskBot(text, name)))
      ensures r.Some? ==> chatBots.Some? && exists i :: (0 <= i < |chatBots.value| && r == converse(chatBots.value[i], text, name)
                                                         && forall j :: 0 <= j < i ==> converse(chatBots.value[j], text, name).None?)
      ensures r.None? && chatBots.Some? ==> forall i :: 0 <= i < |chatBots.value| ==> converse(chatBots.value[i], text, name).None?
    {
      if chatBots.None? then None else FirstAnswer(chatBots.value, AskBot(text, name))
    }

    /** The fallbacks once neither a greeting nor a keyword answered: the chat bots, then the small-talk table, then a random line. */
    function Fallback(text: string, name: string, randomTalk: Option<string>): (r: Option<string>)
      ensures r.None? <==> BotsAnswer(text, name).None? && FirstHit(u.wordsOf(text), settings.smallTalk).None? && randomTalk.None?
      ensures BotsAnswer(text, name).Some? ==> r == BotsAnswer(text, name)
      ensures BotsAnswer(text, name).None? && FirstHit(u.wordsOf(text), settings.smallTalk).Some? ==>
        r == FirstHit(u.wordsOf(text), settings.smallTalk)
    {
      var bots := BotsAnswer(text, name);
      if bots.Some? then bots
      else
        var table := FirstHit(u.wordsOf(text), settings.smallTalk);
        if table.Some? then table else randomTalk
    }

    /** The first answer of small talk: the last matching keyword's reply over the one-time greeting. */
    function FirstChoice(greeted0: map<string, string>, text: string, name: string): (r: Option<string>)
      ensures KeywordFor(text).Some? ==> r == KeywordFor(text)
      ensures KeywordFor(text).None? ==> r == HiFor(greeted0, text, name)
    {
      if KeywordFor(text).Some? then KeywordFor(text) else HiFor(greeted0, text, name)
    }

    /** The reply small talk sends when the topic was not asked for. */
    function SmallTalkReply(greeted0: map<string, string>, text: string, name: string, randomTalk: Option<string>): (r: Option<string>)
      ensures FirstChoice(greeted0, text, name).Some? ==> r == FirstChoice(greeted0, text, name)
      ensures FirstChoice(greeted0, text, name).None? ==> r == Fallback(text, name, randomTalk)
      ensures randomTalk.Some? ==> r.Some?
    {
      var first := FirstChoice(greeted0, text, name);
      if first.Some? then first else Fallback(text, name, randomTalk)
    }

    /**
     * Small talk: the one-time greeting, overridden by the last matching
     * broadcast keyword (never spoken), the topic when asked for and nothing
     * else answered, otherwise the chat bots in order, the small-talk table
     * and a random line; the reply is formatted and sent, spoken when the bot
     * was addressed in public or the meeting has two participants.
     */
    function TalkBackOutcome(s: ChatState, text: string, replyTo: string, from: string, twoPresent: bool, hour: Hour,
                             randomTalk: Option<string>): Outcome {
      var speak := (isEveryone(replyTo) || twoPresent) && KeywordFor(text).None?;
      RespondOutcome(s.(greeted := HiGreeted(s.greeted, text, from)), text, replyTo, from, FirstChoice(s.greeted, text, from),
                     hour, speak, randomTalk)
    }

    /** With no reply yet, a question about the topic gets the topic; otherwise the reply, or the fallback answer, is sent. */
    function RespondOutcome(s: ChatState, text: string, replyTo: string, from: string, response: Option<string>, hour: Hour,
                            speak: bool, randomTalk: Option<string>): Outcome {
      if response.None? && AsksForTopic(text) then TopicFault(SendTopicOutcome(s, replyTo, true, hour))
      else ReplyOutcome(s, replyTo, if response.None? then Fallback(text, from, randomTalk) else response, from, hour, speak)
    }

    /** `FormatChatResponse` and the send, when there is a reply; a formatting exception is returned and nothing is sent. */
    function ReplyOutcome(s: ChatState, to: string, response: Option<string>, name: string, hour: Hour, speak: bool): Outcome {
      if response.None? then Outcome(s, None)
      else
        match FormatChatResponse(response, Some(name), hour, u)
        case Fault(reason) => Outcome(s, Some(reason))
        case Ok(reply) => Outcome(s.(calls := s.calls + [ChatSpoken(to, speak, reply)]), None)
    }

    /** Small talk changes only the greeting table, and only appends to the call log. */
    lemma SmallTalkChangesNoSetting(s: ChatState, text: string, replyTo: string, from: string, twoPresent: bool, hour: Hour,
                                    randomTalk: Option<string>)
      ensures var o := TalkBackOutcome(s, text, replyTo, from, twoPresent, hour, randomTalk);
        o.state == s.(greeted := o.state.greeted, calls := o.state.calls) && Extends(s.calls, o.state.calls)
    {
      var speak := (isEveryone(replyTo) || twoPresent) && KeywordFor(text).None?;
      RespondChangesNoSetting(s.(greeted := HiGreeted(s.greeted, text, from)), text, replyTo, from, FirstChoice(s.greeted, text, from),
                              hour, speak, randomTalk);
    }

    lemma RespondChangesNoSetting(s: ChatState, text: string, replyTo: string, from: string, response: Option<string>, hour: Hour,
                                  speak: bool, randomTalk: Option<string>)
      ensures var o := RespondOutcome(s, text, replyTo, from, response, hour, speak, randomTalk);
        o.state == s.(greeted := o.state.greeted, calls := o.state.calls) && Extends(s.calls, o.state.calls)
    {
      if response.None? && AsksForTopic(text) {
        SendTopicSendsTheLine(s, replyTo, true, hour);
        TopicExtends(s, replyTo, hour);
      } else {
        var o := RespondOutcome(s, text, replyTo, from, response, hour, speak, randomTalk);
        AppendEmpty(s.calls);
        AppendExtends(s.calls, o.state.calls[|s.calls|..]);
        assert o.state.calls == s.calls + o.state.calls[|s.calls|..];
      }
    }

    /** A keyword's canned reply is sent in chat only, never spoken. */
    lemma KeywordRepliesAreNotSpoken(s: ChatState, text: string, replyTo: string, from: string, twoPresent: bool, hour: Hour,
                                     randomTalk: Option<string>)
      requires KeywordFor(text).Some?
      ensures var o := TalkBackOutcome(s, text, replyTo, from, twoPresent, hour, randomTalk);
        var f := FormatChatResponse(KeywordFor(text), Some(from), hour, u);
        (f.Fault? ==> o.fault == Some(f.reason) && o.state.calls == s.calls)
        && (f.Ok? ==> o.fault.None? && o.state.calls == s.calls + [ChatSpoken(replyTo, false, f.value)])
    {
    }

    /** A question about the topic that neither a greeting nor a keyword answers gets at most one message, to `replyTo`, ending with the topic line. */
    lemma TopicQuestionGetsTheLine(s: ChatState, text: string, replyTo: string, from: string, twoPresent: bool, hour: Hour,
                                   randomTalk: Option<string>)
      requires FirstChoice(s.greeted, text, from).None? && AsksForTopic(text)
      ensures var o := TalkBackOutcome(s, text, replyTo, from, twoPresent, hour, randomTalk);
        (o.fault.None? ==> SendsLine(s.calls, o.state.calls, replyTo, GetTopic(s.topic, true, hour, u).value))
        && (o.fault.Some? ==> o.state.calls == s.calls)
    {
      SendTopicSendsTheLine(s.(greeted := HiGreeted(s.greeted, text, from)), replyTo, true, hour);
    }

    /**
     * Otherwise small talk sends the formatted reply once, spoken when
     * addressed in public or in a two-person meeting unless it is a keyword
     * reply; with no reply at all nothing is sent.
     */
    lemma SmallTalkReplies(s: ChatState, text: string, replyTo: string, from: string, twoPresent: bool, hour: Hour,
                           randomTalk: Option<string>)
      requires !(FirstChoice(s.greeted, text, from).None? && AsksForTopic(text))
      ensures var o := TalkBackOutcome(s, text, replyTo, from, twoPresent, hour, randomTalk);
        var reply := SmallTalkReply(s.greeted, text, from, randomTalk);
        var f := FormatChatResponse(reply, Some(from), hour, u);
        (reply.None? ==> o.fault.None? && o.state.calls == s.calls)
        && (reply.Some? && f.Fault? ==> o.fault == Some(f.reason) && o.state.calls == s.calls)
        && (reply.Some? && f.Ok? ==>
              o.fault.None? && o.state.calls == s.calls + [ChatSpoken(replyTo, (isEveryone(replyTo) || twoPresent) && KeywordFor(text).None?, f.value)])
    {
    }

    /** Small talk. */
    method TalkBack(text: string, replyTo: string, from: string, twoPresent: bool, hour: Hour, randomTalk: Option<string>)
      returns (fault: Option<string>)
      modifies this`greeted, this`calls
      ensures Outcome(ChatFields(), fault) == TalkBackOutcome(old(ChatFields()), text, replyTo, from, twoPresent, hour, randomTalk)
    {
      var speak := isEveryone(replyTo) || twoPresent;
      var response := FirstReply(text, from);
      if KeywordFor(text).Some? {
        speak := false;
      }
      fault := Respond(text, replyTo, from, response, hour, speak, randomTalk);
    }

    /** With no reply yet, a question about the topic gets the topic; otherwise the reply, or the fallback answer, is sent. */
    method Respond(text: string, replyTo: string, from: string, response: Option<string>, hour: Hour, speak: bool, randomTalk: Option<string>)
      returns (fault: Option<string>)
      modifies this`greeted, this`calls
      ensures Outcome(ChatFields(), fault) == RespondOutcome(old(ChatFields()), text, replyTo, from, response, hour, speak, randomTalk)
    {
      if response.None? && AsksForTopic(text) {
        var r := SendTopic(replyTo, true, hour);
        return if r.Fault? then Some(r.reason) else None;
      }
      var reply := ChainReply(response, text, from, randomTalk);
      fault := SendReply(replyTo, reply, from, hour, speak);
    }

    /** The one-time greeting, replaced by the keyword reply when a broadcast keyword matches. */
    method FirstReply(text: string, from: string) returns (response: Option<string>)
      modifies this`greeted
      ensures response == FirstChoice(old(greeted), text, from)
      ensures greeted == HiGreeted(old(greeted), text, from)
    {
      response := OneTimeHi(text, from);
      var keyword := KeywordFor(text);
      if keyword.Some? {
        response := keyword;
      }
    }

    /** The chat bots, the small-talk table and the random line, tried only while nothing has answered. */
    method ChainReply(first: Option<string>, text: string, name: string, randomTalk: Option<string>) returns (response: Option<string>)
      ensures response == (if first.None? then Fallback(text, name, randomTalk) else first)
    {
      response := first;
      if response.None? && chatBots.Some? {
        var asked;
        response, asked := RunChain(chatBots.value, AskBot(text, name));
      }
      if response.None? {
        response := LookupFirst(u.wordsOf(text), settings.smallTalk);
      }
      if response.None? {
        response := randomTalk;
      }
    }

    /** `FormatChatResponse` and the send, when there is a reply. */
    method SendReply(to: string, response: Option<string>, name: string, hour: Hour, speak: bool) returns (fault: Option<string>)
      modifies this`calls
      ensures Outcome(ChatFields(), fault) == ReplyOutcome(old(ChatFields()), to, response, name, hour, speak)
    {
      if response.None? {
        return None;
      }
      var formatted := FormatChatResponse(response, Some(name), hour, u);
      if formatted.Fault? {
        return Some(formatted.reason);
      }
      var _ := Do(ChatSpoken(to, speak, formatted.value));
      return None;
    }

    // The command interpreter

    /**
     * An administrator's command, classified and run by the branch it
     * reaches; replies go to the sender by name, except the `/topic <arg>`
     * reply, which goes to the reply recipient.
     */
    function CommandOutcome(s: ChatState, line: CommandLine, replyTo: string, sender: Participant, from: string,
                            participants: map<string, Participant>, now: int, hour: Hour): Outcome {
      PlanOutcome(s, ClassifyCommand(line, settings.broadcasts, settings.emails), line.command, replyTo, sender, from, participants, now, hour)
    }

    /** The interpreter branch `plan` for command word `command`. */
    function PlanOutcome(s: ChatState, plan: CommandPlan, command: string, replyTo: string, sender: Participant, from: string,
                         participants: map<string, Participant>, now: int, hour: Hour): Outcome
      requires plan.ModeChange? ==> IsChatMode(plan.name)
    {
      if ChangesOnlyCalls(plan) then Outcome(s.(calls := s.calls + AnswerCalls(plan, command, sender, from, participants, |s.calls|)), None)
      else if plan.BroadcastPlan? || plan.TopicQuery? || plan.TopicChange? then TopicOrBroadcastOutcome(s, plan, command, replyTo, sender, now, hour)
      else SettingOutcome(s, plan, command, sender)
    }

    /**
     * Each branch changes only the fields it owns: the topic only under
     * `/topic <arg>`, the broadcast times only under a broadcast, the modes
     * only under a mode command with on or off, the waiting-room message only
     * under `/waitmsg`, the greeting table only under a bare `/topic`; a
     * missing argument does nothing at all; only the two topic branches and
     * a mode switch throw, `/topic <arg>` exactly when `TopicCommand` does;
     * and the call log is only appended to.
     */
    lemma CommandsChangeOnlyTheirFields(s: ChatState, line: CommandLine, replyTo: string, sender: Participant, from: string,
                                        participants: map<string, Participant>, now: int, hour: Hour)
      ensures var plan := ClassifyCommand(line, settings.broadcasts, settings.emails);
        var o := CommandOutcome(s, line, replyTo, sender, from, participants, now, hour);
        (!plan.TopicChange? ==> o.state.topic == s.topic)
        && (!plan.BroadcastPlan? ==> o.state.broadcastSent == s.broadcastSent)
        && (!(plan.ModeChange? && plan.on.Some?) ==> o.state.mode == s.mode)
        && (!plan.WaitMsgChange? ==> o.state.waitMsg == s.waitMsg)
        && (!plan.TopicQuery? ==> o.state.greeted == s.greeted)
        && (plan == MissingArgument ==> o == Outcome(s, None))
        && (o.fault.Some? ==> plan.TopicQuery? || plan.TopicChange? || (plan.ModeChange? && plan.on.Some?))
        && (plan.TopicChange? ==> (o.fault.Some? <==> TopicCommand(s.topic, plan.arg).Fault?))
        && Extends(s.calls, o.state.calls)
    {
      var plan := ClassifyCommand(line, settings.broadcasts, settings.emails);
      if ChangesOnlyCalls(plan) {
        AppendExtends(s.calls, AnswerCalls(plan, line.command, sender, from, participants, |s.calls|));
      } else if plan.BroadcastPlan? || plan.TopicQuery? || plan.TopicChange? {
        TopicOrBroadcastFields(s, plan, line.command, replyTo, sender, now, hour);
      } else {
        SettingFields(s, plan, line.command, sender);
      }
    }

    /** The broadcast and `/topic` branches keep the modes and the waiting-room message, and own one field each. */
    lemma TopicOrBroadcastFields(s: ChatState, plan: CommandPlan, command: string, replyTo: string, sender: Participant, now: int, hour: Hour)
      requires plan.BroadcastPlan? || plan.TopicQuery? || plan.TopicChange?
      ensures var o := TopicOrBroadcastOutcome(s, plan, command, replyTo, sender, now, hour);
        o.state.mode == s.mode && o.state.waitMsg == s.waitMsg
        && (!plan.TopicChange? ==> o.state.topic == s.topic)
        && (!plan.BroadcastPlan? ==> o.state.broadcastSent == s.broadcastSent)
        && (!plan.TopicQuery? ==> o.state.greeted == s.greeted)
        && (plan.BroadcastPlan? ==> o.fault.None?)
        && (plan.TopicChange? ==> (o.fault.Some? <==> TopicCommand(s.topic, plan.arg).Fault?))
        && Extends(s.calls, o.state.calls)
    {
      match plan
      case BroadcastPlan(message) =>
        var v := BroadcastGuard(LastSent(s.broadcastSent, command), settings.guardSecs, now);
        AppendExtends(s.calls, [if v == SendNow then Chat(everyone, message) else Chat(sender.name, RefusalText(v, command))]);
      case TopicQuery =>
        SendTopicSendsTheLine(s, sender.name, true, hour);
        TopicExtends(s, sender.name, hour);
      case TopicChange(arg) =>
        AppendEmpty(s.calls);
        match TopicCommand(s.topic, arg)
        case Fault(_) =>
        case Ok(o) =>
          AppendExtends(s.calls, [Chat(replyTo, o.reply)]
                            + (if o.broadcast then [Chat(everyone, GetTopic(o.topic, true, hour, u).value)] else []));
    }

    /** The setting branches keep the topic, the broadcast times and the greeting table, and own one field each. */
    lemma SettingFields(s: ChatState, plan: CommandPlan, command: string, sender: Participant)
      requires plan.MissingArgument? || plan.ModeChange? || plan.WaitMsgChange?
      requires plan.ModeChange? ==> IsChatMode(plan.name)
      ensures var o := SettingOutcome(s, plan, command, sender);
        o.state.topic == s.topic && o.state.broadcastSent == s.broadcastSent && o.state.greeted == s.greeted
        && (!(plan.ModeChange? && plan.on.Some?) ==> o.state.mode == s.mode)
        && (!plan.WaitMsgChange? ==> o.state.waitMsg == s.waitMsg)
        && (plan.MissingArgument? ==> o == Outcome(s, None))
        && (o.fault.Some? ==> plan.ModeChange? && plan.on.Some?)
        && Extends(s.calls, o.state.calls)
    {
      match plan
      case MissingArgument =>
        AppendEmpty(s.calls);
        AppendExtends(s.calls, []);
      case ModeChange(name, on, arg) =>
        ModeFields(s, command, name, on, arg, sender.name);
      case WaitMsgChange(arg) =>
        AppendExtends(s.calls, [Chat(sender.name, WaitReplyText(WaitMsgCommand(s.waitMsg, arg).reply, arg, u))]);
    }

    /** A mode command changes only the modes, and only with on or off, and only appends to the call log. */
    lemma ModeFields(s: ChatState, command: string, name: string, on: Option<bool>, arg: string, to: string)
      requires IsChatMode(name)
      ensures var o := ModeOutcome(s, command, name, on, arg, to);
        o.state == s.(mode := o.state.mode, calls := o.state.calls)
        && (on.None? ==> o.state.mode == s.mode)
        && (o.fault.Some? ==> on.Some?)
        && Extends(s.calls, o.state.calls)
    {
      var o := ModeOutcome(s, command, name, on, arg, to);
      if o.state.calls == s.calls {
        AppendEmpty(s.calls);
        AppendExtends(s.calls, []);
      } else {
        assert o.state.calls == s.calls + [o.state.calls[|s.calls|]];
        AppendExtends(s.calls, [o.state.calls[|s.calls|]]);
      }
    }

    static lemma AppendExtends(a: seq<Call>, b: seq<Call>)
      ensures Extends(a, a + b)
    {
      assert (a + b)[..|a|] == a;
    }

    /** The notice `SetSpeaker` sends. */
    const speakerText := "Speaker mode is not yet implemented"

    /** The calls of the branches that only talk to the meeting; their replies go to the sender by name. */
    function AnswerCalls(plan: CommandPlan, command: string, sender: Participant, from: string,
                         participants: map<string, Participant>, n: nat): seq<Call>
      requires ChangesOnlyCalls(plan)
    {
      match plan
      case EmailPlanned(args, target) => EmailCalls(command, args, target, sender.name, n)
      case RenameUsage =>
        [Chat(sender.name, u.format("Please use the format: /{0} Old Name to New Name", [command])),
         Chat(sender.name, u.format("Example: /{0} iPad User to John Doe", [command]))]
      case SpeakerOff => [Chat(from, speakerText)]
      case SayPlan(text) => [ChatSpoken(everyone, command == "speak", text)]
      case PlayPlan(sound) => [Chat(sender.name, u.format("Playing: {0}", [u.repr(sound)])), PlaySound(sound)]
      case TargetPlan(cmd, target, newName) =>
        ActionCalls(TargetCommand(cmd, target, newName, from, sender, participants, u), sender.name, from)
    }

    /** An e-mail command: the usage reply, or the mail and a reply saying whether it went out. */
    function EmailCalls(command: string, args: EmailArgs, target: string, to: string, n: nat): seq<Call> {
      match PlanEmail(target, args)
      case EmailUsage =>
        [Chat(to, "Error: The format of the command is incorrect; Correct example: /" + command + " " + args.argsExample)]
      case Mail(address, subject, body) =>
        var mail := SendEmail(subject, body, address);
        [mail, Chat(to, command + (if answer(n, mail) then ": Successfully sent email to " else ": Failed to send email to ") + address)]
    }

    /** A command about one participant: the reply, the reply and the call, or the speaker notice to the sender. */
    function ActionCalls(a: TargetAction, to: string, from: string): seq<Call> {
      match a
      case Reply(text) => [Chat(to, text)]
      case ReplyThen(text, call) => [Chat(to, text), call]
      case SpeakerNotice => [Chat(from, speakerText)]
    }

    /**
     * A participant command makes at most one controller call about a
     * participant, the one `TargetCommand` chose, on the participant the
     * name resolves to (never the bot), after the reply to the sender.
     */
    lemma ParticipantCommandActsOnce(cmd: string, target: string, newName: Option<string>, from: string, sender: Participant,
                                     participants: map<string, Participant>)
      ensures var a := TargetCommand(cmd, target, newName, from, sender, participants, u);
        var cs := ActionCalls(a, sender.name, from);
        (forall c :: c in cs && IsParticipantCall(c) ==> a.ReplyThen? && c == a.call)
        && (a.ReplyThen? ==> |cs| == 2 && cs[0] == Chat(sender.name, a.text) && cs[1] == a.call
                              && a.call.who == participants[TargetName(target, from)] && !a.call.who.isMe)
    {
    }

    /** The broadcast and `/topic` branches: a bare `/topic` answers the sender, `/topic <arg>` the reply recipient. */
    function TopicOrBroadcastOutcome(s: ChatState, plan: CommandPlan, command: string, replyTo: string, sender: Participant,
                                     now: int, hour: Hour): Outcome
      requires plan.BroadcastPlan? || plan.TopicQuery? || plan.TopicChange?
    {
      match plan
      case BroadcastPlan(message) => Outcome(BroadcastOutcome(s, command, message, sender.name, now), None)
      case TopicQuery => TopicFault(SendTopicOutcome(s, sender.name, true, hour))
      case TopicChange(arg) => ChangeTopicOutcome(s, arg, replyTo, hour)
    }

    /** The branches that change a setting: a missing argument, a mode command and `/waitmsg`. */
    function SettingOutcome(s: ChatState, plan: CommandPlan, command: string, sender: Participant): Outcome
      requires plan.MissingArgument? || plan.ModeChange? || plan.WaitMsgChange?
      requires plan.ModeChange? ==> IsChatMode(plan.name)
    {
      match plan
      case MissingArgument => Outcome(s, None)
      case ModeChange(name, on, arg) => ModeOutcome(s, command, name, on, arg, sender.name)
      case WaitMsgChange(arg) => Outcome(WaitMsgOutcome(s, arg, sender.name), None)
    }

    /**
     * A mode command: the usage reply without on or off; otherwise the switch
     * and a reply naming the mode through `GetFirstName`, whose exception
     * leaves the switch made and the reply unsent.
     */
    function ModeOutcome(s: ChatState, command: string, name: string, on: Option<bool>, arg: string, to: string): Outcome
      requires IsChatMode(name)
    {
      if on.None? then
        Outcome(s.(calls := s.calls + [Chat(to, u.format("Sorry, the {0} command requires either on or off as a parameter", [u.repr(command)]))]), None)
      else
        var o := Modes.SetMode(s.mode, name, on.value).value;
        var s1 := s.(mode := o.next);
        match GetFirstName(Some(command), u)
        case Fault(reason) => Outcome(s1, Some(reason))
        case Ok(first) =>
          var text := if o.changed then "{0} mode has been changed to {1}" else "{0} mode is already {1}";
          Outcome(s1.(calls := s.calls + [Chat(to, u.format(text, [NameArg(first), Trim(Lower(arg))]))]), None)
    }

    /** A mode switch is made even when naming the mode in the reply throws. */
    lemma ModeSwitchStaysMade(s: ChatState, command: string, name: string, on: bool, arg: string, to: string)
      requires IsChatMode(name)
      ensures var o := ModeOutcome(s, command, name, Some(on), arg, to);
        Modes.SetMode(s.mode, name, on).Ok? && o.state.mode == Modes.SetMode(s.mode, name, on).value.next
        && (o.fault.Some? <==> GetFirstName(Some(command), u).Fault?)
        && (o.fault.Some? ==> o.state.calls == s.calls)
    {
    }

    /** `/waitmsg`: the new waiting-room message and the reply describing it. */
    function WaitMsgOutcome(s: ChatState, arg: string, to: string): ChatState {
      var o := WaitMsgCommand(s.waitMsg, arg);
      s.(waitMsg := o.message, calls := s.calls + [Chat(to, WaitReplyText(o.reply, arg, u))])
    }

    /** A broadcast command: refused by the guard, or sent to everyone; the time is recorded whether or not it went out. */
    function BroadcastOutcome(s: ChatState, command: string, message: string, to: string, now: int): ChatState {
      var v := BroadcastGuard(LastSent(s.broadcastSent, command), settings.guardSecs, now);
      s.(broadcastSent := Record(s.broadcastSent, Request(command, now, true), settings.guardSecs),
         calls := s.calls + [if v == SendNow then Chat(everyone, message) else Chat(to, RefusalText(v, command))])
    }

    /** `/topic <arg>`: the new topic, the reply, and the topic line to everyone after a set or a force. */
    function ChangeTopicOutcome(s: ChatState, arg: string, replyTo: string, hour: Hour): Outcome {
      match TopicCommand(s.topic, arg)
      case Fault(reason) => Outcome(s, Some(reason))
      case Ok(o) =>
        Outcome(s.(topic := o.topic,
                   calls := s.calls + [Chat(replyTo, o.reply)]
                            + (if o.broadcast then [Chat(everyone, GetTopic(o.topic, true, hour, u).value)] else [])),
                None)
    }

    /** An administrator's command. */
    method RunCommand(line: CommandLine, replyTo: string, sender: Participant, from: string,
                      participants: map<string, Participant>, now: int, hour: Hour) returns (fault: Option<string>)
      modifies this`greeted, this`calls, this`topic, this`broadcastSent, this`mode, this`waitMsg
      ensures Outcome(ChatFields(), fault) == CommandOutcome(old(ChatFields()), line, replyTo, sender, from, participants, now, hour)
    {
      var plan := ClassifyCommand(line, settings.broadcasts, settings.emails);
      fault := RunPlan(plan, line.command, replyTo, sender, from, participants, now, hour);
    }

    /** The interpreter branch `plan` for command word `command`. */
    method RunPlan(plan: CommandPlan, command: string, replyTo: string, sender: Participant, from: string,
                   participants: map<string, Participant>, now: int, hour: Hour) returns (fault: Option<string>)
      requires plan.ModeChange? ==> IsChatMode(plan.name)
      modifies this`greeted, this`calls, this`topic, this`broadcastSent, this`mode, this`waitMsg
      ensures Outcome(ChatFields(), fault) == PlanOutcome(old(ChatFields()), plan, command, replyTo, sender, from, participants, now, hour)
    {
      fault := None;
      if ChangesOnlyCalls(plan) {
        AnswerPlan(plan, command, sender, from, participants);
      } else if plan.BroadcastPlan? || plan.TopicQuery? || plan.TopicChange? {
        fault := TopicOrBroadcastPlan(plan, command, replyTo, sender, now, hour);
      } else {
        fault := SettingPlan(plan, command, sender);
      }
    }

    /** The broadcast and `/topic` branches. */
    method TopicOrBroadcastPlan(plan: CommandPlan, command: string, replyTo: string, sender: Participant, now: int, hour: Hour)
      returns (fault: Option<string>)
      requires plan.BroadcastPlan? || plan.TopicQuery? || plan.TopicChange?
      modifies this`greeted, this`calls, this`topic, this`broadcastSent
      ensures Outcome(ChatFields(), fault) == TopicOrBroadcastOutcome(old(ChatFields()), plan, command, replyTo, sender, now, hour)
    {
      fault := None;
      match plan
      case BroadcastPlan(message) =>
        BroadcastCommand(command, message, sender.name, now);
      case TopicQuery =>
        var r := SendTopic(sender.name, true, hour);
        if r.Fault? {
          fault := Some(r.reason);
        }
      case TopicChange(arg) =>
        fault := ChangeTopic(arg, replyTo, hour);
    }

    /** The branches that change a setting: a missing argument, a mode command and `/waitmsg`. */
    method SettingPlan(plan: CommandPlan, command: string, sender: Participant) returns (fault: Option<string>)
      requires plan.MissingArgument? || plan.ModeChange? || plan.WaitMsgChange?
      requires plan.ModeChange? ==> IsChatMode(plan.name)
      modifies this`calls, this`mode, this`waitMsg
      ensures Outcome(ChatFields(), fault) == SettingOutcome(old(ChatFields()), plan, command, sender)
    {
      fault := None;
      match plan
      case MissingArgument =>
      case ModeChange(name, on, arg) =>
        fault := ModeCommand(command, name, on, arg, sender.name);
      case WaitMsgChange(arg) =>
        WaitMsgCommandRun(arg, sender.name);
    }

    /** The branches that only talk to the meeting: e-mail, the rename usage, `/speaker off`, `/say`, `/play`, and one participant. */
    method AnswerPlan(plan: CommandPlan, command: string, sender: Participant, from: string, participants: map<string, Participant>)
      requires ChangesOnlyCalls(plan)
      modifies this`calls
      ensures calls == old(calls) + AnswerCalls(plan, command, sender, from, participants, |old(calls)|)
    {
      match plan
      case EmailPlanned(args, target) =>
        EmailCommand(command, args, target, sender.name);
      case RenameUsage =>
        RenameUsageReply(command, sender.name);
      case SpeakerOff =>
        SpeakerNotice(from);
      case SayPlan(text) =>
        SayCommand(command, text);
      case PlayPlan(sound) =>
        PlayCommand(sound, sender.name);
      case TargetPlan(cmd, target, newName) =>
        ParticipantCommand(cmd, target, newName, sender, from, participants);
    }

    /** `SetSpeaker`: only the notice that speaker mode is not implemented, to the sender. */
    method SpeakerNotice(from: string)
      modifies this`calls
      ensures calls == old(calls) + [Chat(from, speakerText)]
    {
      var _ := Do(Chat(from, speakerText));
    }

    /** `/say` and `/speak`: the text to everyone, spoken only for `/speak`. */
    method SayCommand(command: string, text: string)
      modifies this`calls
      ensures calls == old(calls) + [ChatSpoken(everyone, command == "speak", text)]
    {
      var _ := Do(ChatSpoken(everyone, command == "speak", text));
    }

    /** The two lines of the rename usage. */
    method RenameUsageReply(command: string, to: string)
      modifies this`calls
      ensures calls == old(calls) + [Chat(to, u.format("Please use the format: /{0} Old Name to New Name", [command])),
                                     Chat(to, u.format("Example: /{0} iPad User to John Doe", [command]))]
    {
      var _ := Do(Chat(to, u.format("Please use the format: /{0} Old Name to New Name", [command])));
      var _ := Do(Chat(to, u.format("Example: /{0} iPad User to John Doe", [command])));
    }

    /** `/play`: the reply naming the sound, then the sound. */
    method PlayCommand(sound: string, to: string)
      modifies this`calls
      ensures calls == old(calls) + [Chat(to, u.format("Playing: {0}", [u.repr(sound)])), PlaySound(sound)]
    {
      var _ := Do(Chat(to, u.format("Playing: {0}", [u.repr(sound)])));
      var _ := Do(PlaySound(sound));
    }

    /** An e-mail command: the usage reply, or the mail and a reply saying whether it went out. */
    method EmailCommand(command: string, args: EmailArgs, target: string, to: string)
      modifies this`calls
      ensures calls == old(calls) + EmailCalls(command, args, target, to, |old(calls)|)
    {
      match PlanEmail(target, args)
      case EmailUsage =>
        var _ := Do(Chat(to, "Error: The format of the command is incorrect; Correct example: /" + command + " " + args.argsExample));
      case Mail(address, subject, body) =>
        var ok := Do(SendEmail(subject, body, address));
        var _ := Do(Chat(to, command + (if ok then ": Successfully sent email to " else ": Failed to send email to ") + address));
    }

    /** A mode command. */
    method ModeCommand(command: string, name: string, on: Option<bool>, arg: string, to: string) returns (fault: Option<string>)
      requires IsChatMode(name)
      modifies this`calls, this`mode
      ensures Outcome(ChatFields(), fault) == ModeOutcome(old(ChatFields()), command, name, on, arg, to)
    {
      fault := None;
      if on.None? {
        var _ := Do(Chat(to, u.format("Sorry, the {0} command requires either on or off as a parameter", [u.repr(command)])));
        return;
      }
      var value := Trim(Lower(arg));
      var changed := SetMode(name, on.value);
      var first := GetFirstName(Some(command), u);
      if first.Fault? {
        return Some(first.reason);
      }
      var text := if changed == Ok(true) then "{0} mode has been changed to {1}" else "{0} mode is already {1}";
      var _ := Do(Chat(to, u.format(text, [NameArg(first.value), value])));
    }

    /** `/waitmsg`. */
    method WaitMsgCommandRun(arg: string, to: string)
      modifies this`calls, this`waitMsg
      ensures ChatFields() == WaitMsgOutcome(old(ChatFields()), arg, to)
    {
      var o := WaitMsgCommand(waitMsg, arg);
      waitMsg := o.message;
      var _ := Do(Chat(to, WaitReplyText(o.reply, arg, u)));
    }

    /** A command about one participant: the reply, the reply and the call, or the speaker notice to the sender. */
    method ParticipantCommand(cmd: string, target: string, newName: Option<string>, sender: Participant, from: string,
                              participants: map<string, Participant>)
      modifies this`calls
      ensures calls == old(calls) + ActionCalls(TargetCommand(cmd, target, newName, from, sender, participants, u), sender.name, from)
    {
      match TargetCommand(cmd, target, newName, from, sender, participants, u)
      case Reply(text) =>
        var _ := Do(Chat(sender.name, text));
      case ReplyThen(text, call) =>
        var _ := Do(Chat(sender.name, text));
        var _ := Do(call);
      case SpeakerNotice =>
        SpeakerNotice(from);
    }

    /** A broadcast command. */
    method BroadcastCommand(command: string, message: string, to: string, now: int)
      modifies this`calls, this`broadcastSent
      ensures ChatFields() == BroadcastOutcome(old(ChatFields()), command, message, to, now)
    {
      var verdict := BroadcastGuard(LastSent(broadcastSent, command), settings.guardSecs, now);
      if verdict != SendNow {
        var _ := Do(Chat(to, RefusalText(verdict, command)));
        return;
      }
      var _ := Do(Chat(everyone, message));
      broadcastSent := broadcastSent[command := now];
    }

    /** `/topic <arg>`. */
    method ChangeTopic(arg: string, replyTo: string, hour: Hour) returns (fault: Option<string>)
      modifies this`calls, this`topic
      ensures Outcome(ChatFields(), fault) == ChangeTopicOutcome(old(ChatFields()), arg, replyTo, hour)
    {
      match TopicCommand(topic, arg)
      case Fault(reason) =>
        return Some(reason);
      case Ok(o) =>
        ApplyTopic(o, replyTo, hour);
        return None;
    }

    /** The new topic, the reply, and the topic line to everyone after a set or a force. */
    method ApplyTopic(o: TopicOutcome, replyTo: string, hour: Hour)
      requires o.broadcast ==> o.topic.Some?
      modifies this`calls, this`topic
      ensures ChatFields() == old(ChatFields()).(topic := o.topic,
                calls := old(calls) + [Chat(replyTo, o.reply)]
                         + (if o.broadcast then [Chat(everyone, GetTopic(o.topic, true, hour, u).value)] else []))
    {
      topic := o.topic;
      var _ := Do(Chat(replyTo, o.reply));
      if o.broadcast {
        var _ := Do(Chat(everyone, GetTopic(topic, true, hour, u).value));
      } else {
        AppendEmpty(calls);
      }
    }
  }
}
