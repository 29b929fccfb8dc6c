/**
 * The moderation bot of the Demo plugin (Demo/UsherBot/UsherBot.cs): its
 * static state becomes the fields of `Bot`, every call into the meeting
 * controller is appended to `calls` and answered by the `answer` oracle (by
 * its position in the log), and the clock is a parameter in seconds.
 */
module DemoUsher {
  import opened Wrappers
  import opened Strings
  import opened Modes
  import opened KnownUsers
  import opened Platform
  import opened Phrases
  import opened Commands

  // ---------------------------------------------------------------------------
  // Participants and controller calls
  // ---------------------------------------------------------------------------

  datatype Status = Waiting | Attending | InOtherState

  /** What the bot reads of a `Controller.Participant`. */
  datatype Participant = Participant(
    userId: nat, name: string, isMe: bool, isHost: bool, isCoHost: bool,
    status: Status, dtWaiting: int, isAudioMuted: bool, usesVoip: bool, isVideoOn: bool)

  datatype Role = HostRole | CoHostRole

  /** The controller and sound calls the bot makes. */
  datatype Call =
    | Reclaim
    | RenameParticipant(who: Participant, newName: string)
    | UnmuteParticipant(who: Participant)
    | MuteParticipant(who: Participant)
    | AdmitParticipant(who: Participant)
    | PromoteParticipant(who: Participant, role: Role)
    | DemoteParticipant(who: Participant)
    | SendChatMessage(to: Participant, text: string)
    | SendEmail(subject: string, body: string, address: string)
    | PlaySound(sound: string)
    | SpeakText(text: string)
    | LeaveMeeting(endForAll: bool)

  /** `Controller.GetParticipantByName`: no one, exactly one, or several (it throws `ArgumentException`). */
  datatype Lookup = NotFound | Found(p: Participant) | Ambiguous

  /** The configuration the bot reads but never writes. */
  datatype Settings = Settings(
    myName: string,
    waitSecs: int,
    guardSecs: int,
    broadcasts: map<string, string>,
    /** the enumeration order of `BroadcastCommands` */
    broadcastOrder: seq<string>,
    emails: Option<map<string, EmailArgs>>,
    oneTimeHis: Option<map<string, string>>,
    announceDelay: int)

  /** The settings a bot runs with: `broadcastOrder` enumerates the `BroadcastCommands` table. */
  type BotSettings = s: Settings | EnumeratesKeys(s.broadcastOrder, s.broadcasts)
    witness Settings("", 0, 0, map[], [], None, None, 0)

  /** One chat message event. */
  datatype ChatEvent = ChatEvent(from: Participant, to: Participant, text: string, isPrivate: bool, participantCount: nat)

  // ---------------------------------------------------------------------------
  // The participant tick, as functions
  // ---------------------------------------------------------------------------

  /** The calls the bot makes about itself: reclaim host, rename itself, unmute itself. */
  function SelfCare(flags: Flags, me: Option<Participant>, myName: string): (cs: seq<Call>)
    ensures me.None? ==> cs == []
    ensures Reclaim in cs <==> me.Some? && Has(flags, ReclaimHost) && !me.value.isHost
    ensures me.Some? ==> (RenameParticipant(me.value, myName) in cs <==> Has(flags, RenameMyself) && me.value.name != myName)
    ensures me.Some? ==> (UnmuteParticipant(me.value) in cs <==> Has(flags, UnmuteMyself) && me.value.isAudioMuted)
    ensures forall c :: c in cs ==> c == Reclaim || c == RenameParticipant(me.value, myName) || c == UnmuteParticipant(me.value)
  {
    if me.None? then []
    else
      var p := me.value;
      (if Has(flags, ReclaimHost) && !p.isHost then [Reclaim] else [])
      + (if Has(flags, RenameMyself) && p.name != myName then [RenameParticipant(p, myName)] else [])
      + (if Has(flags, UnmuteMyself) && p.isAudioMuted then [UnmuteParticipant(p)] else [])
  }

  /** The counters and state the admission loop updates. */
  datatype Pass = Pass(waiting: int, attending: int, lastAdmission: int, messages: set<string>, calls: seq<Call>)

  /** What the admission loop reads: the AdmitOthers flag, `UnknownParticipantWaitSecs`, the clock and the oracles. */
  datatype PassEnv = PassEnv(admitOthers: bool, waitSecs: int, now: int, answer: (nat, Call) -> bool, describe: Participant -> string)

  /** The de-duplicated log line of an unknown participant. */
  function AdmitMessage(who: string, admitting: bool): string {
    "BOT Admit " + who + " : Unknown participant waiting room time reached" + (if admitting then " : Admitting" else "")
  }

  predicate Present(p: Participant) {
    !p.isMe && (p.status == Waiting || p.status == Attending)
  }

  predicate CountedAttending(p: Participant) {
    !p.isMe && p.status == Attending
  }

  /**
   * When the loop tries to admit `p`: AdmitOthers is set, `p` waits, its
   * waiting time plus WaitSecs is not before now (a participant past that
   * time is skipped), and WaitSecs have passed since the last admission.
   */
  predicate Attempts(a: Pass, p: Participant, e: PassEnv) {
    e.admitOthers && !p.isMe && p.status == Waiting
    && !(p.dtWaiting + e.waitSecs < e.now) && e.now >= a.lastAdmission + e.waitSecs
  }

  /** One participant of the loop. */
  function AdmitStep(a: Pass, p: Participant, e: PassEnv): (b: Pass)
    ensures b.waiting + b.attending == a.waiting + a.attending + (if Present(p) then 1 else 0)
  {
    if p.isMe then a
    else match p.status
      case Attending => a.(attending := a.attending + 1)
      case InOtherState => a
      case Waiting =>
        var a1 := a.(waiting := a.waiting + 1);
        if !e.admitOthers || p.dtWaiting + e.waitSecs < e.now then a1
        else
          var admitting := e.now >= a.lastAdmission + e.waitSecs;
          var msg := AdmitMessage(e.describe(p), admitting);
          if !admitting then a1.(messages := a1.messages + {msg})
          else
            var c := AdmitParticipant(p);
            if e.answer(|a.calls|, c) then Pass(a.waiting, a.attending + 1, e.now, a1.messages + {msg} - {msg}, a.calls + [c])
            else a1.(messages := a1.messages + {msg}, calls := a.calls + [c])
  }

  /**
   * What one participant does to the pass: only an attempted admission makes
   * a call; a delivered one moves the participant to attending and stamps the
   * time, a refused one leaves its message in the set.
   */
  lemma AdmitStepEffect(a: Pass, p: Participant, e: PassEnv)
    ensures var b := AdmitStep(a, p, e);
      !Attempts(a, p, e) ==>
        b.calls == a.calls && b.lastAdmission == a.lastAdmission
        && b.attending == a.attending + (if CountedAttending(p) then 1 else 0)
    ensures var b := AdmitStep(a, p, e);
      Attempts(a, p, e) ==> b.calls == a.calls + [AdmitParticipant(p)]
    ensures var b := AdmitStep(a, p, e);
      Attempts(a, p, e) && e.answer(|a.calls|, AdmitParticipant(p)) ==>
        b.lastAdmission == e.now && b.attending == a.attending + 1 && b.waiting == a.waiting
        && AdmitMessage(e.describe(p), true) !in b.messages
    ensures var b := AdmitStep(a, p, e);
      Attempts(a, p, e) && !e.answer(|a.calls|, AdmitParticipant(p)) ==>
        b.lastAdmission == a.lastAdmission && b.attending == a.attending
        && AdmitMessage(e.describe(p), true) in b.messages
    ensures var b := AdmitStep(a, p, e);
      b.messages - a.messages <= {AdmitMessage(e.describe(p), false), AdmitMessage(e.describe(p), true)}
  {
  }

  /** The whole admission loop over the participant snapshot. */
  function AdmitPass(a: Pass, ps: seq<Participant>, e: PassEnv): Pass
    decreases |ps|
  {
    if ps == [] then a else AdmitStep(AdmitPass(a, ps[..|ps| - 1], e), ps[|ps| - 1], e)
  }

  function CountPresent(ps: seq<Participant>): nat
    decreases |ps|
  {
    if ps == [] then 0 else CountPresent(ps[..|ps| - 1]) + (if Present(ps[|ps| - 1]) then 1 else 0)
  }

  function CountAttending(ps: seq<Participant>): nat
    decreases |ps|
  {
    if ps == [] then 0 else CountAttending(ps[..|ps| - 1]) + (if CountedAttending(ps[|ps| - 1]) then 1 else 0)
  }

  /** An admission moves one participant from the waiting count to the attending count: the sum is the head count. */
  lemma {:induction false} PassKeepsHeadCount(a: Pass, ps: seq<Participant>, e: PassEnv)
    ensures AdmitPass(a, ps, e).waiting + AdmitPass(a, ps, e).attending == a.waiting + a.attending + CountPresent(ps)
    decreases |ps|
  {
    if ps != [] {
      PassKeepsHeadCount(a, ps[..|ps| - 1], e);
    }
  }

  /**
   * With a positive WaitSecs, one pass admits at most one unknown
   * participant: the first admission sets the last admission time to now,
   * which blocks every later attempt of the pass.
   */
  lemma {:induction false} AtMostOneAdmissionPerPass(a: Pass, ps: seq<Participant>, e: PassEnv)
    requires e.waitSecs > 0
    ensures var b := AdmitPass(a, ps, e);
      var extra := b.attending - a.attending - CountAttending(ps);
      (extra == 0 || extra == 1) && (extra == 1 ==> b.lastAdmission == e.now)
      && (extra == 0 ==> b.lastAdmission == a.lastAdmission)
    decreases |ps|
  {
    if ps != [] {
      AtMostOneAdmissionPerPass(a, ps[..|ps| - 1], e);
      AdmitStepEffect(AdmitPass(a, ps[..|ps| - 1], e), ps[|ps| - 1], e);
    }
  }

  /** A pass that starts less than WaitSecs after the last admission makes no controller call. */
  lemma {:induction false} ThrottledPassCallsNothing(a: Pass, ps: seq<Participant>, e: PassEnv)
    requires e.now < a.lastAdmission + e.waitSecs
    ensures AdmitPass(a, ps, e).calls == a.calls && AdmitPass(a, ps, e).lastAdmission == a.lastAdmission
    decreases |ps|
  {
    if ps != [] {
      ThrottledPassCallsNothing(a, ps[..|ps| - 1], e);
      AdmitStepEffect(AdmitPass(a, ps[..|ps| - 1], e), ps[|ps| - 1], e);
    }
  }

  /** The waiting-room announcement is configured: a non-empty message and a positive delay. */
  predicate AnnouncementConfigured(message: Option<string>, delay: int) {
    message.Some? && message.value != [] && delay > 0
  }

  /** The first-greeting candidate: not me, unmuted, on computer audio, and a known user. */
  predicate Greetable(p: Participant, users: map<string, bool>) {
    !p.isMe && !p.isAudioMuted && p.usesVoip && IsKnown(users, p.name)
  }

  /** `participants.FindIndex(...)` for the first greeting. */
  function FirstGreetable(ps: seq<Participant>, users: map<string, bool>): (r: Option<nat>)
    ensures r.Some? ==> r.value < |ps| && Greetable(ps[r.value], users)
    ensures r.Some? ==> forall j :: 0 <= j < r.value ==> !Greetable(ps[j], users)
    ensures r.None? ==> forall j :: 0 <= j < |ps| ==> !Greetable(ps[j], users)
  {
    FindIndex(ps, p => Greetable(p, users))
  }

  /** The host hand-off candidate: the first co-host of the participant list. */
  function FirstCoHost(ps: seq<Participant>): (r: Option<nat>)
    ensures r.Some? ==> r.value < |ps| && ps[r.value].isCoHost && forall j :: 0 <= j < r.value ==> !ps[j].isCoHost
    ensures r.None? ==> forall j :: 0 <= j < |ps| ==> !ps[j].isCoHost
  {
    FindIndex(ps, (p: Participant) => p.isCoHost)
  }

  // ---------------------------------------------------------------------------
  // The chat interpreter, as functions
  // ---------------------------------------------------------------------------

  /** Where a chat message goes. */
  datatype Route =
    | Ignored
    | SmallTalk(text: string, replyTo: Participant)
    | TopicRequest(replyTo: Participant)
    | NotForMe
    | NotAdmin
    | Command(line: CommandLine, replyTo: Participant)

  /**
   * The addressing and privilege checks at the top of the chat handler: a
   * message to everyone counts only in a two-person meeting or when it names
   * the bot (the name is then removed and the reply goes to everyone); text
   * without a leading slash is small talk; a command must be sent to the bot
   * itself and, apart from a bare `/topic`, by an administrator.
   */
  function RouteChat(e: ChatEvent, flags: Flags, myName: string, users: map<string, bool>, everyone: Participant, u: Utils): (r: Route)
    ensures e.from.isMe || !Has(flags, ProcessChat) ==> r == Ignored
    ensures r.Command? ==> !e.from.isMe && Has(flags, ProcessChat) && e.to.isMe && IsAdmin(users, e.from.name)
    ensures r.TopicRequest? ==> e.to.isMe && !IsAdmin(users, e.from.name)
    ensures r == NotAdmin ==> e.to.isMe && !IsAdmin(users, e.from.name)
    ensures r.Command? || r == NotAdmin || r.TopicRequest? || r == NotForMe ==>
      var text := if e.to == everyone then u.stripWord(e.text, myName) else e.text;
      StartsWith(text, "/") && (r.Command? ==> r.line == SplitCommand(text)) && (r.TopicRequest? ==> text == "/topic")
    ensures r.SmallTalk? ==> !StartsWith(r.text, "/")
    ensures r.SmallTalk? || r.TopicRequest? || r.Command? ==>
      (e.to == everyone ==> r.replyTo == everyone) && (e.to != everyone ==> r.replyTo == e.from)
  {
    if e.from.isMe || !Has(flags, ProcessChat) then Ignored
    else
      var toEveryone := e.to == everyone;
      var stripped := u.stripWord(e.text, myName);
      if toEveryone && stripped == e.text && !e.isPrivate then Ignored
      else
        var text := if toEveryone then stripped else e.text;
        var replyTo := if toEveryone then everyone else e.from;
        if !StartsWith(text, "/") then SmallTalk(text, replyTo)
        else if !e.to.isMe then NotForMe
        else
          var admin := IsAdmin(users, e.from.name);
          if !admin && text == "/topic" then TopicRequest(replyTo)
          else if !admin then NotAdmin
          else Command(SplitCommand(text), replyTo)
  }

  /** What a command about one participant does: a reply, or a controller call whose outcome picks the reply. */
  datatype TargetAction =
    | Reply(text: string)
    | Notice(to: Participant, text: string)
    | Act(call: Call, success: string, failure: string)

  /** "me" names the sender; any other name goes to `GetParticipantByName`. */
  function ResolveTarget(target: string, from: Participant, lookup: string -> Lookup): Lookup {
    if Lower(target) == "me" then Found(from) else lookup(target)
  }

  predicate IsParticipantCall(c: Call) {
    c.RenameParticipant? || c.AdmitParticipant? || c.PromoteParticipant? || c.DemoteParticipant?
    || c.MuteParticipant? || c.UnmuteParticipant?
  }

  /** The reply to a command aimed at the bot itself. */
  const UntouchableReply := "U Can't Touch This\n* MC Hammer Music *\nhttps://youtu.be/otCpCn0l4Wo"

  /**
   * The checks before a command about one participant: the name must
   * resolve to exactly one participant who is not the bot; rename refuses
   * the sender's own name; admit needs a waiting participant; the others
   * need an attending one, and promote needs one who is neither host nor
   * co-host and has video on, demote a co-host.
   */
  function TargetCommand(command: string, target: string, newName: Option<string>, from: Participant,
                         lookup: string -> Lookup, u: Utils): (r: TargetAction)
    ensures r.Act? ==> IsParticipantCall(r.call)
    ensures r.Act? ==> ResolveTarget(target, from, lookup) == Found(r.call.who) && !r.call.who.isMe
    ensures r.Act? && r.call.RenameParticipant? <==> r.Act? && newName.Some?
    ensures r.Act? && r.call.RenameParticipant? ==> r.call.newName == newName.value && r.call.who.name != from.name
    ensures r.Act? && r.call.AdmitParticipant? ==> command == "admit" && r.call.who.status == Waiting
    ensures r.Act? && !r.call.RenameParticipant? && !r.call.AdmitParticipant? ==> r.call.who.status == Attending
    ensures r.Act? && r.call.PromoteParticipant? ==>
      (command == "cohost" || command == "promote") && r.call.role == CoHostRole
      && !r.call.who.isHost && !r.call.who.isCoHost && r.call.who.isVideoOn
    ensures r.Act? && r.call.DemoteParticipant? ==> command == "demote" && r.call.who.isCoHost
    ensures r.Act? && r.call.MuteParticipant? ==> command == "mute"
    ensures r.Act? && r.call.UnmuteParticipant? ==> command == "unmute"
    ensures r.Notice? ==> r.to == from && command == "speaker"
  {
    match ResolveTarget(target, from, lookup)
    case Ambiguous =>
      Reply("Sorry, there is more than one participant here named " + u.repr(target) + ". I'm not sure which one you mean...")
    case NotFound =>
      Reply("Sorry, I don't see anyone named here named " + u.repr(target) + ". Remember, Case Matters!")
    case Found(p) =>
      if p.isMe then Reply(UntouchableReply)
      else ActOn(command, p, newName, from, u)
  }

  /** What `TargetCommand` does to a resolved participant who is not the bot. */
  function ActOn(command: string, p: Participant, newName: Option<string>, from: Participant, u: Utils): (r: TargetAction)
    ensures r.Act? ==> IsParticipantCall(r.call) && r.call.who == p
    ensures r.Act? && r.call.RenameParticipant? <==> r.Act? && newName.Some?
    ensures r.Act? && r.call.RenameParticipant? ==> r.call.newName == newName.value && p.name != from.name
    ensures r.Act? && r.call.AdmitParticipant? ==> command == "admit" && p.status == Waiting
    ensures r.Act? && !r.call.RenameParticipant? && !r.call.AdmitParticipant? ==> p.status == Attending
    ensures r.Act? && r.call.PromoteParticipant? ==>
      (command == "cohost" || command == "promote") && r.call.role == CoHostRole
      && !p.isHost && !p.isCoHost && p.isVideoOn
    ensures r.Act? && r.call.DemoteParticipant? ==> command == "demote" && p.isCoHost
    ensures r.Act? && r.call.MuteParticipant? ==> command == "mute"
    ensures r.Act? && r.call.UnmuteParticipant? ==> command == "unmute"
    ensures r.Notice? ==> r.to == from && command == "speaker"
  {
    var who := u.repr(p.name);
    if newName.Some? then
      if p.name == from.name then Reply("Why don't you just rename yourself?")
      else
        var rest := who + " to " + u.repr(newName.value);
        Act(RenameParticipant(p, newName.value), "Successfully renamed " + rest, "Failed to rename " + rest)
    else if command == "admit" then
      if p.status != Waiting then Reply("Sorry, " + who + " is not in the waiting room")
      else Act(AdmitParticipant(p), "Successfully admitted " + who, "Failed to admit " + who)
    else if p.status != Attending then Reply("Sorry, " + who + " is not attending")
    else if command == "cohost" || command == "promote" then
      if p.isHost || p.isCoHost then Reply("Sorry, " + who + " is already Host or Co-Host so cannot be promoted")
      else if !p.isVideoOn then Reply("Sorry, I'm not allowed to Co-Host " + who + " because their video is off")
      else Act(PromoteParticipant(p, CoHostRole), "Successfully promoted " + who, "Failed to promote " + who)
    else if command == "demote" then
      if !p.isCoHost then Reply("Sorry, " + who + " isn't Co-Host so they cannot be demoted")
      else Act(DemoteParticipant(p), "Successfully demoted " + who, "Failed to demote " + who)
    else if command == "mute" then Act(MuteParticipant(p), "Successfully muted " + who, "Failed to mute " + who)
    else if command == "unmute" then Act(UnmuteParticipant(p), "Successfully unmuted " + who, "Failed to unmute " + who)
    else if command == "speaker" then Notice(from, "Speaker mode is not yet implemented")
    else Reply("Sorry, I don't know the command " + command)
  }

  /** The calls `LeaveMeeting` of a remote script makes. */
  function LeaveCalls(ends: seq<bool>): (cs: seq<Call>)
    ensures |cs| == |ends| && forall i :: 0 <= i < |ends| ==> cs[i] == LeaveMeeting(ends[i])
  {
    seq(|ends|, i requires 0 <= i < |ends| => LeaveMeeting(ends[i]))
  }

  /** The reply to `/waitmsg`. */
  function WaitReplyText(reply: WaitReply, target: string): string {
    match reply
    case TurnedOff => "Waiting room message has been turned off"
    case AlreadyOff => "Waiting room message is already off"
    case AlreadySetTo => "Waiting room message is already set to:\n" + target
    case NowSetTo => "Waiting room message has set to:\n" + target
  }

  /** The fields the participant actions of a tick read and write. */
  datatype PartState = PartState(lastAdmission: int, messages: set<string>, calls: seq<Call>,
                                 announced: int, first: Option<string>, greeted: map<nat, string>)

  /** A participant-actions state and the exception that ended the step, if any. */
  datatype PartOutcome = PartOutcome(state: PartState, fault: Option<string>)

  /** The fields the chat handler reads and writes. */
  datatype ChatState = ChatState(greeted: map<nat, string>, calls: seq<Call>, topic: Option<string>,
                                 broadcastSent: map<string, int>, mode: ModeState, waitMsg: Option<string>)

  /** A chat-handler state and the exception that ended the handler, if any. */
  datatype Outcome = Outcome(state: ChatState, fault: Option<string>)

  /** A chat-handler state and what `SendTopic` returned. */
  datatype TopicSent = TopicSent(state: ChatState, result: Result<bool>)

  /** The exception of a `SendTopic` result, if it threw. */
  function TopicFault(t: TopicSent): Outcome {
    Outcome(t.state, if t.result.Fault? then Some(t.result.reason) else None)
  }

  /** `b` is `a` followed by more calls. */
  predicate Extends(a: seq<Call>, b: seq<Call>) {
    |b| >= |a| && b[..|a|] == a
  }

  /** `calls1` is `calls0` and one more chat message to `to` that ends with `line`. */
  predicate SendsLine(calls0: seq<Call>, calls1: seq<Call>, to: Participant, line: string) {
    |calls1| == |calls0| + 1 && calls1[..|calls0|] == calls0
    && calls1[|calls0|].SendChatMessage? && calls1[|calls0|].to == to && EndsWith(calls1[|calls0|].text, line)
  }

  // ---------------------------------------------------------------------------
  // The bot
  // ---------------------------------------------------------------------------

  class Bot {
    const settings: BotSettings
    const u: Utils
    /** `Controller.SpecialParticipant.everyoneInMeeting` */
    const everyone: Participant
    /** the outcome of the `n`-th controller call */
    const answer: (nat, Call) -> bool
    const lookup: string -> Lookup
    /** `Participant.ToString()` in the admission log line */
    const describe: Participant -> string
    /** `chatBots`, as `GetChatBots` left it */
    const chatBots: Option<seq<ChatBotInfo>>
    /** `IChatBot.Converse(text, from)`; an exception is `None` */
    const converse: (ChatBotInfo, string, string) -> Option<string>

    /** `cfg.BotAutomationFlags`, `cfg.DebugLoggingEnabled`, `cfg.IsPaused` */
    var mode: ModeState
    /** `cfg.WaitingRoomAnnouncementMessage` */
    var waitMsg: Option<string>
    var goodUsers: map<string, bool>
    var dtLastGoodUserMod: int
    var topic: Option<string>
    var broadcastSent: map<string, int>
    var dtLastWaitingRoomAnnouncement: int
    var dtLastAdmission: int
    /** `HsParticipantMessages` */
    var messages: set<string>
    var firstParticipantGreeted: Option<string>
    /** `DicOneTimeHis`, keyed by user id */
    var greeted: map<nat, string>
    var shouldExit: bool
    var calls: seq<Call>

    /** The static initialisers; `mode` and `waitMsg` come from the loaded configuration. */
    constructor (settings: BotSettings, u: Utils, everyone: Participant, answer: (nat, Call) -> bool,
                 lookup: string -> Lookup, describe: Participant -> string,
                 plugins: Option<seq<ChatBotInfo>>, converse: (ChatBotInfo, string, string) -> Option<string>,
                 mode: ModeState, waitMsg: Option<string>)
      ensures this.settings == settings && this.u == u && this.everyone == everyone && this.answer == answer
      ensures this.lookup == lookup && this.describe == describe && this.converse == converse
      ensures this.chatBots == (if Has(mode.flags, Modes.Converse) then ChatBotsFrom(plugins) else None)
      ensures this.mode == mode && this.waitMsg == waitMsg
      ensures goodUsers == map[] && dtLastGoodUserMod == 0 && topic.None? && broadcastSent == map[]
      ensures dtLastWaitingRoomAnnouncement == 0 && dtLastAdmission == 0 && messages == {}
      ensures firstParticipantGreeted.None? && greeted == map[] && !shouldExit && calls == []
    {
      this.settings, this.u, this.everyone, this.answer := settings, u, everyone, answer;
      this.lookup, this.describe, this.converse := lookup, describe, converse;
      this.chatBots := if Has(mode.flags, Modes.Converse) then ChatBotsFrom(plugins) else None;
      this.mode, this.waitMsg := mode, waitMsg;
      goodUsers, dtLastGoodUserMod, topic, broadcastSent := map[], 0, None, map[];
      dtLastWaitingRoomAnnouncement, dtLastAdmission, messages := 0, 0, {};
      firstParticipantGreeted, greeted, shouldExit, calls := None, map[], false, [];
    }

    /** One controller call: logged, and answered by the oracle. */
    method Do(c: Call) returns (ok: bool)
      modifies this`calls
      ensures calls == old(calls) + [c]
      ensures ok == answer(|old(calls)|, c)
    {
      ok := answer(|calls|, c);
      calls := calls + [c];
    }

    /** `SetMode`: `Ok(changed)`, or the exception for an unknown mode name. */
    method SetMode(name: string, on: bool) returns (r: Result<bool>)
      modifies this`mode
      ensures Modes.SetMode(old(mode), name, on).Fault? ==> r.Fault? && mode == old(mode)
      ensures Modes.SetMode(old(mode), name, on).Ok? ==>
        r == Ok(Modes.SetMode(old(mode), name, on).value.changed) && mode == Modes.SetMode(old(mode), name, on).value.next
    {
      match Modes.SetMode(mode, name, on)
      case Fault(reason) =>
        r := Fault(reason);
      case Ok(sw) =>
        mode := sw.next;
        r := Ok(sw.changed);
    }

    /** `OneTimeHi(text, p)`: nothing without a table; otherwise the greeting of the model, keyed by user id. */
    method OneTimeHi(text: string, p: Participant) returns (reply: Option<string>)
      modifies this`greeted
      ensures settings.oneTimeHis.None? ==> reply.None? && greeted == old(greeted)
      ensures settings.oneTimeHis.Some? ==>
        var g := Phrases.OneTimeHi(old(greeted), p.userId, u.wordsOf(text), settings.oneTimeHis.value);
        reply == g.reply && greeted == g.greeted
    {
      if settings.oneTimeHis.None? {
        return None;
      }
      if p.userId in greeted {
        return None;
      }
      reply := LookupFirst(u.wordsOf(text), settings.oneTimeHis.value);
      if reply.Some? {
        greeted := greeted[p.userId := reply.value];
      }
    }

    /** `LoadGoodUsers`: rebuilds the roster from scratch when the file exists and its write time changed. */
    method LoadGoodUsers(file: Option<GoodUsersFile>)
      modifies this`goodUsers, this`dtLastGoodUserMod
      ensures file.None? || file.value.lastWrite == old(dtLastGoodUserMod) ==>
        goodUsers == old(goodUsers) && dtLastGoodUserMod == old(dtLastGoodUserMod)
      ensures file.Some? && file.value.lastWrite != old(dtLastGoodUserMod) ==>
        goodUsers == Directory(ParseAll(file.value.lines)) && dtLastGoodUserMod == file.value.lastWrite
    {
      if file.None? || file.value.lastWrite == dtLastGoodUserMod {
        return;
      }
      dtLastGoodUserMod := file.value.lastWrite;
      goodUsers := BuildDirectory(file.value.lines);
    }

    /** The fields the chat handler reads and writes, as one value. */
    function ChatFields(): ChatState
      reads this
    {
      ChatState(greeted, calls, topic, broadcastSent, mode, waitMsg)
    }

    /**
     * `SendTopic(recipient, useDefault)`: `Ok(false)` and no message when
     * there is no topic line; otherwise the one-time "morning" greeting is
     * looked up, and the line, after that greeting formatted for the
     * recipient, goes to the recipient and the send result is returned.
     */
    function SendTopicOutcome(s: ChatState, recipient: Participant, useDefault: bool, hour: Hour): TopicSent {
      match GetTopic(s.topic, useDefault, hour, u)
      case None => TopicSent(s, Ok(false))
      case Some(line) =>
        var s1 := s.(greeted := HiGreeted(s.greeted, "morning", recipient));
        match TopicText(HiFor(s.greeted, "morning", recipient), recipient.name, line, hour, u)
        case Fault(reason) => TopicSent(s1, Fault(reason))
        case Ok(text) =>
          var c := SendChatMessage(recipient, text);
          TopicSent(s1.(calls := s.calls + [c]), Ok(answer(|s.calls|, c)))
    }

    /**
     * `SendTopic` changes no setting and sends at most one message: none
     * without a topic line or when formatting throws, otherwise one to the
     * recipient that ends with the line, whose delivery is the result.
     */
    lemma SendTopicSendsTheLine(s: ChatState, recipient: Participant, useDefault: bool, hour: Hour)
      ensures var t := SendTopicOutcome(s, recipient, useDefault, hour);
        t.state.topic == s.topic && t.state.broadcastSent == s.broadcastSent && t.state.mode == s.mode && t.state.waitMsg == s.waitMsg
      ensures var t := SendTopicOutcome(s, recipient, useDefault, hour);
        GetTopic(s.topic, useDefault, hour, u).None? ==> t == TopicSent(s, Ok(false))
      ensures var t := SendTopicOutcome(s, recipient, useDefault, hour);
        t.result.Fault? ==> t.state.calls == s.calls && HiFor(s.greeted, "morning", recipient).Some?
      ensures var t := SendTopicOutcome(s, recipient, useDefault, hour);
        var line := GetTopic(s.topic, useDefault, hour, u);
        line.Some? && t.result.Ok? ==>
          SendsLine(s.calls, t.state.calls, recipient, line.value) && t.result.value == answer(|s.calls|, t.state.calls[|s.calls|])
    {
      var line := GetTopic(s.topic, useDefault, hour, u);
      if line.Some? {
        var text := TopicText(HiFor(s.greeted, "morning", recipient), recipient.name, line.value, hour, u);
        if text.Ok? {
          var c := SendChatMessage(recipient, text.value);
          assert (s.calls + [c])[..|s.calls|] == s.calls;
        }
      }
    }

    /** `SendTopic(recipient, useDefault)`. */
    method SendTopic(recipient: Participant, useDefault: bool, hour: Hour) returns (r: Result<bool>)
      modifies this`greeted, this`calls
      ensures TopicSent(ChatFields(), r) == SendTopicOutcome(old(ChatFields()), recipient, useDefault, hour)
    {
      var line := GetTopic(topic, useDefault, hour, u);
      if line.None? {
        return Ok(false);
      }
      var hi := OneTimeHi("morning", recipient);
      var text := TopicText(hi, recipient.name, line.value, hour, u);
      if text.Fault? {
        return Fault(text.reason);
      }
      var ok := Do(SendChatMessage(recipient, text.value));
      return Ok(ok);
    }

    /** One participant of the admission loop, counted and, when due, admitted. */
    method AdmitOne(p: Participant, waiting0: int, attending0: int, now: int) returns (waiting: int, attending: int)
      modifies this`dtLastAdmission, this`messages, this`calls
      ensures Pass(waiting, attending, dtLastAdmission, messages, calls)
        == AdmitStep(Pass(waiting0, attending0, old(dtLastAdmission), old(messages), old(calls)), p,
                     PassEnv(Has(mode.flags, AdmitOthers), settings.waitSecs, now, answer, describe))
    {
      waiting, attending := waiting0, attending0;
      if p.isMe {
        return;
      }
      if p.status == Attending {
        attending := attending + 1;
      } else if p.status == Waiting {
        waiting := waiting + 1;
        if Has(mode.flags, AdmitOthers) && !(p.dtWaiting + settings.waitSecs < now) {
          var admitting := now >= dtLastAdmission + settings.waitSecs;
          var msg := AdmitMessage(describe(p), admitting);
          if msg !in messages {
            messages := messages + {msg};
          }
          assert messages == old(messages) + {msg};
          if admitting {
            var ok := Do(AdmitParticipant(p));
            if ok {
              messages := messages - {msg};
              dtLastAdmission := now;
              waiting := waiting - 1;
              attending := attending + 1;
            }
          }
        }
      }
    }

    /** The admission loop of `DoParticipantActions`, with the counters it returns. */
    method AdmitUnknown(ps: seq<Participant>, now: int) returns (waiting: int, attending: int)
      modifies this`dtLastAdmission, this`messages, this`calls
      ensures Pass(waiting, attending, dtLastAdmission, messages, calls)
        == AdmitPass(Pass(0, 0, old(dtLastAdmission), old(messages), old(calls)), ps,
                     PassEnv(Has(mode.flags, AdmitOthers), settings.waitSecs, now, answer, describe))
    {
      ghost var e := PassEnv(Has(mode.flags, AdmitOthers), settings.waitSecs, now, answer, describe);
      ghost var start := Pass(0, 0, dtLastAdmission, messages, calls);
      waiting, attending := 0, 0;
      var i := 0;
      while i < |ps|
        invariant 0 <= i <= |ps|
        invariant Pass(waiting, attending, dtLastAdmission, messages, calls) == AdmitPass(start, ps[..i], e)
      {
        assert ps[..i + 1][..i] == ps[..i];
        waiting, attending := AdmitOne(ps[i], waiting, attending, now);
        i := i + 1;
      }
      assert ps[..i] == ps;
    }

    /** The fields the participant actions read and write, as one value. */
    function PartFields(): PartState
      reads this
    {
      PartState(dtLastAdmission, messages, calls, dtLastWaitingRoomAnnouncement, firstParticipantGreeted, greeted)
    }

    /** The greeting table `OneTimeHi(text, p)` leaves, from table `greeted0`. */
    function HiGreeted(greeted0: map<nat, string>, text: string, p: Participant): map<nat, string> {
      if settings.oneTimeHis.None? then greeted0
      else Phrases.OneTimeHi(greeted0, p.userId, u.wordsOf(text), settings.oneTimeHis.value).greeted
    }

    /** `p` recorded as the first participant greeted, then the "morning" greeting formatted and sent. */
    function GreetParticipantOutcome(s: PartState, p: Participant, hour: Hour): PartOutcome {
      var s1 := s.(first := Some(p.name), greeted := HiGreeted(s.greeted, "morning", p));
      match FormatChatResponse(HiFor(s.greeted, "morning", p), Some(p.name), hour, u)
      case Fault(reason) => PartOutcome(s1, Some(reason))
      case Ok(msg) =>
        PartOutcome(s1.(calls := s.calls + GreetingCalls(msg, answer(|s.calls| + 2, SendChatMessage(everyone, msg)))), None)
    }

    /** The first greeting: only while nobody has been greeted, and only of the first greetable participant. */
    function GreetOutcome(s: PartState, ps: seq<Participant>, users: map<string, bool>, hour: Hour): PartOutcome {
      if s.first.Some? then PartOutcome(s, None)
      else
        match FirstGreetable(ps, users)
        case None => PartOutcome(s, None)
        case Some(k) => GreetParticipantOutcome(s, ps[k], hour)
    }

    /** The waiting-room announcement: once the delay has passed, sent to everyone and timed only when delivered. */
    function AnnounceOutcome(s: PartState, message: string, now2: int): PartState {
      if now2 < s.announced + settings.announceDelay then s
      else
        var c := SendChatMessage(everyone, message);
        s.(calls := s.calls + [c], announced := if answer(|s.calls|, c) then now2 else s.announced)
    }

    /**
     * After the admission loop: with waiting participants and nobody
     * attending, an unconfigured announcement returns from the handler
     * (the greeting is skipped too) and a configured one is sent when due;
     * then the first greeting.
     */
    function AnnounceAndGreetOutcome(s: PartState, waiting: int, attending: int, ps: seq<Participant>,
                                     users: map<string, bool>, waitMsg: Option<string>, now2: int, hour: Hour): PartOutcome {
      if attending == 0 && waiting > 0 then
        if !AnnouncementConfigured(waitMsg, settings.announceDelay) then PartOutcome(s, None)
        else GreetOutcome(AnnounceOutcome(s, waitMsg.value, now2), ps, users, hour)
      else GreetOutcome(s, ps, users, hour)
    }

    /** The admission pass of `DoParticipantActions`, after the self-care calls. */
    function PassOf(s: PartState, flags: Flags, ps: seq<Participant>, me: Option<Participant>, now: int): Pass {
      AdmitPass(Pass(0, 0, s.lastAdmission, s.messages, s.calls + SelfCare(flags, me, settings.myName)), ps,
                PassEnv(Has(flags, AdmitOthers), settings.waitSecs, now, answer, describe))
    }

    /** `DoParticipantActions`: nothing without ProcessParticipants; otherwise self care, admissions, the announcement and the greeting. */
    function ParticipantActionsOutcome(s: PartState, flags: Flags, ps: seq<Participant>, me: Option<Participant>,
                                       users: map<string, bool>, waitMsg: Option<string>, now: int, now2: int, hour: Hour): PartOutcome {
      if !Has(flags, ProcessParticipants) then PartOutcome(s, None)
      else
        var pass := PassOf(s, flags, ps, me, now);
        AnnounceAndGreetOutcome(s.(lastAdmission := pass.lastAdmission, messages := pass.messages, calls := pass.calls),
                                pass.waiting, pass.attending, ps, users, waitMsg, now2, hour)
    }

    /** The participant part of a tick: nothing while paused; an exception of the actions is dropped with what it left. */
    function TickPart(s: PartState, m: ModeState, ps: seq<Participant>, me: Option<Participant>,
                      users: map<string, bool>, waitMsg: Option<string>, now: int, now2: int, hour: Hour): PartState {
      if m.paused then s else ParticipantActionsOutcome(s, m.flags, ps, me, users, waitMsg, now, now2, hour).state
    }

    /**
     * The first greeting happens at most once: once a name is recorded it and
     * the greeting table stay, and a newly recorded name is that of the first
     * greetable participant.
     */
    lemma GreetsAtMostOnce(s: PartState, flags: Flags, ps: seq<Participant>, me: Option<Participant>,
                           users: map<string, bool>, waitMsg: Option<string>, now: int, now2: int, hour: Hour)
      ensures var o := ParticipantActionsOutcome(s, flags, ps, me, users, waitMsg, now, now2, hour).state;
        (s.first.Some? ==> o.first == s.first && o.greeted == s.greeted)
        && (o.first != s.first ==> s.first.None? && FirstGreetable(ps, users).Some? && o.first == Some(ps[FirstGreetable(ps, users).value].name))
    {
    }

    /**
     * The announcement time moves only to `now2`, only for a configured
     * announcement, only once the delay has passed since the last one, and
     * only when the pass left waiting participants and nobody attending.
     */
    lemma AnnouncementSpacing(s: PartState, flags: Flags, ps: seq<Participant>, me: Option<Participant>,
                              users: map<string, bool>, waitMsg: Option<string>, now: int, now2: int, hour: Hour)
      ensures var o := ParticipantActionsOutcome(s, flags, ps, me, users, waitMsg, now, now2, hour).state;
        o.announced != s.announced ==>
          var pass := PassOf(s, flags, ps, me, now);
          Has(flags, ProcessParticipants) && pass.attending == 0 && pass.waiting > 0
          && o.announced == now2 && AnnouncementConfigured(waitMsg, settings.announceDelay)
          && now2 >= s.announced + settings.announceDelay
    {
    }

    /** With waiting participants, nobody attending and no announcement configured, the handler returns before the greeting. */
    lemma UnconfiguredAnnouncementSkipsGreeting(s: PartState, flags: Flags, ps: seq<Participant>, me: Option<Participant>,
                                                users: map<string, bool>, waitMsg: Option<string>, now: int, now2: int, hour: Hour)
      requires Has(flags, ProcessParticipants) && !AnnouncementConfigured(waitMsg, settings.announceDelay)
      requires PassOf(s, flags, ps, me, now).attending == 0 && PassOf(s, flags, ps, me, now).waiting > 0
      ensures var o := ParticipantActionsOutcome(s, flags, ps, me, users, waitMsg, now, now2, hour);
        var pass := PassOf(s, flags, ps, me, now);
        o == PartOutcome(s.(lastAdmission := pass.lastAdmission, messages := pass.messages, calls := pass.calls), None)
        && o.state.first == s.first && o.state.greeted == s.greeted
    {
    }

    /** The participant actions only append to the call log, and start with the self-care calls. */
    lemma {:induction false} ParticipantActionsAppend(s: PartState, flags: Flags, ps: seq<Participant>, me: Option<Participant>,
                                                      users: map<string, bool>, waitMsg: Option<string>, now: int, now2: int, hour: Hour)
      requires Has(flags, ProcessParticipants)
      ensures var o := ParticipantActionsOutcome(s, flags, ps, me, users, waitMsg, now, now2, hour).state;
        var head := s.calls + SelfCare(flags, me, settings.myName);
        |o.calls| >= |head| && o.calls[..|head|] == head
    {
      var head := s.calls + SelfCare(flags, me, settings.myName);
      var e := PassEnv(Has(flags, AdmitOthers), settings.waitSecs, now, answer, describe);
      AdmitPassExtendsCalls(Pass(0, 0, s.lastAdmission, s.messages, head), ps, e);
    }

    /**
     * `DoParticipantActions`: self care, the admission loop, the
     * waiting-room announcement when nobody attends, and the one greeting of
     * the first known participant. A failing `FormatChatResponse` is the
     * exception the tick logs.
     */
    method DoParticipantActions(ps: seq<Participant>, me: Option<Participant>, now: int, now2: int, hour: Hour)
      returns (fault: Option<string>)
      modifies this`dtLastAdmission, this`messages, this`calls, this`dtLastWaitingRoomAnnouncement
      modifies this`firstParticipantGreeted, this`greeted
      ensures PartOutcome(PartFields(), fault) == ParticipantActionsOutcome(old(PartFields()), mode.flags, ps, me, goodUsers, waitMsg, now, now2, hour)
    {
      fault := None;
      if !Has(mode.flags, ProcessParticipants) {
        return;
      }
      DoSelfCare(me);
      var waiting, attending := AdmitUnknown(ps, now);
      fault := AnnounceAndGreet(waiting, attending, ps, now2, hour);
    }

    /** The part of `DoParticipantActions` after the admission loop: the announcement, then the first greeting. */
    method AnnounceAndGreet(waiting: int, attending: int, ps: seq<Participant>, now2: int, hour: Hour)
      returns (fault: Option<string>)
      modifies this`calls, this`dtLastWaitingRoomAnnouncement, this`firstParticipantGreeted, this`greeted
      ensures PartOutcome(PartFields(), fault) == AnnounceAndGreetOutcome(old(PartFields()), waiting, attending, ps, goodUsers, waitMsg, now2, hour)
    {
      if attending == 0 && waiting > 0 {
        if !AnnouncementConfigured(waitMsg, settings.announceDelay) {
          return None;
        }
        AnnounceToWaitingRoom(now2);
      }
      fault := GreetOnce(ps, hour);
    }

    /** The first greeting, when nobody has been greeted yet; otherwise nothing. */
    method GreetOnce(ps: seq<Participant>, hour: Hour) returns (fault: Option<string>)
      modifies this`firstParticipantGreeted, this`greeted, this`calls
      ensures PartOutcome(PartFields(), fault) == GreetOutcome(old(PartFields()), ps, goodUsers, hour)
    {
      fault := None;
      if firstParticipantGreeted.None? {
        fault := GreetFirst(ps, hour);
      }
    }

    static lemma AppendEmpty(a: seq<Call>)
      ensures a + [] == a
    {
    }

    static lemma AppendAssociates(a: seq<Call>, b: seq<Call>, c: seq<Call>)
      ensures (a + b) + c == a + (b + c)
    {
    }

    /** The self-care calls, in order. */
    method DoSelfCare(me: Option<Participant>)
      modifies this`calls
      ensures calls == old(calls) + SelfCare(mode.flags, me, settings.myName)
    {
      if me.None? {
        AppendEmpty(calls);
        return;
      }
      var p := me.value;
      var flags := mode.flags;
      ghost var c0 := calls;
      ghost var s1: seq<Call> := if Has(flags, ReclaimHost) && !p.isHost then [Reclaim] else [];
      ghost var s2: seq<Call> := if Has(flags, RenameMyself) && p.name != settings.myName then [RenameParticipant(p, settings.myName)] else [];
      ghost var s3: seq<Call> := if Has(flags, UnmuteMyself) && p.isAudioMuted then [UnmuteParticipant(p)] else [];
      AppendEmpty(c0);
      if Has(flags, ReclaimHost) && !p.isHost {
        var _ := Do(Reclaim);
      }
      assert calls == c0 + s1;
      ghost var c1 := calls;
      AppendEmpty(c1);
      if Has(flags, RenameMyself) && p.name != settings.myName {
        var _ := Do(RenameParticipant(p, settings.myName));
      }
      assert calls == c1 + s2;
      ghost var c2 := calls;
      AppendEmpty(c2);
      if Has(flags, UnmuteMyself) && p.isAudioMuted {
        var _ := Do(UnmuteParticipant(p));
      }
      assert calls == c2 + s3;
      AppendAssociates(c0, s1, s2);
      AppendAssociates(c0, s1 + s2, s3);
    }

    /** The waiting-room announcement, at most once per announcement delay and timed only when delivered. */
    method AnnounceToWaitingRoom(now2: int)
      requires AnnouncementConfigured(waitMsg, settings.announceDelay)
      modifies this`calls, this`dtLastWaitingRoomAnnouncement
      ensures PartFields() == AnnounceOutcome(old(PartFields()), waitMsg.value, now2)
    {
      if now2 >= dtLastWaitingRoomAnnouncement + settings.announceDelay {
        var ok := Do(SendChatMessage(everyone, waitMsg.value));
        if ok {
          dtLastWaitingRoomAnnouncement := now2;
        }
      }
    }

    /** A pass only appends to the call log. */
    static lemma {:induction false} AdmitPassExtendsCalls(a: Pass, ps: seq<Participant>, e: PassEnv)
      ensures |AdmitPass(a, ps, e).calls| >= |a.calls| && AdmitPass(a, ps, e).calls[..|a.calls|] == a.calls
      decreases |ps|
    {
      if ps != [] {
        AdmitPassExtendsCalls(a, ps[..|ps| - 1], e);
        AdmitStepEffect(AdmitPass(a, ps[..|ps| - 1], e), ps[|ps| - 1], e);
      }
    }

    /** The first greeting: chosen once, then the boot sound, the online line and the greeting itself. */
    method GreetFirst(ps: seq<Participant>, hour: Hour) returns (fault: Option<string>)
      requires firstParticipantGreeted.None?
      modifies this`firstParticipantGreeted, this`greeted, this`calls
      ensures PartOutcome(PartFields(), fault) == GreetOutcome(old(PartFields()), ps, goodUsers, hour)
    {
      var k := FirstGreetable(ps, goodUsers);
      if k.None? {
        return None;
      }
      fault := GreetParticipant(ps[k.value], hour);
    }

    /** Records `p` as the first participant greeted, then formats and sends the "morning" one-time greeting. */
    method GreetParticipant(p: Participant, hour: Hour) returns (fault: Option<string>)
      modifies this`firstParticipantGreeted, this`greeted, this`calls
      ensures PartOutcome(PartFields(), fault) == GreetParticipantOutcome(old(PartFields()), p, hour)
    {
      firstParticipantGreeted := Some(p.name);
      var hi := OneTimeHi("morning", p);
      fault := SendGreeting(hi, p.name, hour);
    }

    /** The format and the calls of the greeting; a formatting exception sends nothing. */
    method SendGreeting(hi: Option<string>, name: string, hour: Hour) returns (fault: Option<string>)
      modifies this`calls
      ensures var msg := FormatChatResponse(hi, Some(name), hour, u);
        (msg.Fault? ==> fault == Some(msg.reason) && calls == old(calls))
        && (msg.Ok? ==> fault.None? && calls == old(calls) + GreetingCalls(msg.value, answer(|old(calls)| + 2, SendChatMessage(everyone, msg.value))))
    {
      var text := FormatChatResponse(hi, Some(name), hour, u);
      if text.Fault? {
        return Some(text.reason);
      }
      AnnounceGreeting(text.value);
      return None;
    }

    /** The calls of the first greeting, given whether the chat message was delivered. */
    function GreetingCalls(msg: string, delivered: bool): seq<Call>
    {
      [PlaySound("bootup"), SpeakText(settings.myName + " online."), SendChatMessage(everyone, msg)]
      + (if delivered then [SpeakText(msg)] else [])
    }

    method AnnounceGreeting(msg: string)
      modifies this`calls
      ensures calls == old(calls) + GreetingCalls(msg, answer(|old(calls)| + 2, SendChatMessage(everyone, msg)))
    {
      var _ := Do(PlaySound("bootup"));
      var _ := Do(SpeakText(settings.myName + " online."));
      var ok := Do(SendChatMessage(everyone, msg));
      if ok {
        var _ := Do(SpeakText(msg));
      }
    }

    /** `ReadRemoteCommands`: every line of the file, in order; a missing file is no commands. */
    method ReadRemoteCommands(file: Option<seq<string>>)
      modifies this`mode, this`calls, this`shouldExit
      ensures mode == ModesAfter(old(mode), ScriptOf(file))
      ensures calls == old(calls) + LeaveCalls(LeavesOf(ScriptOf(file)))
      ensures shouldExit == (old(shouldExit) || ExitsIn(ScriptOf(file)))
    {
      if file.Some? {
        RunRemoteLines(file.value);
      } else {
        AppendEmpty(calls);
      }
    }

    /** The lines of the command file, in order. */
    method RunRemoteLines(lines: seq<string>)
      modifies this`mode, this`calls, this`shouldExit
      ensures mode == ModesAfter(old(mode), RemoteScript(lines))
      ensures calls == old(calls) + LeaveCalls(LeavesOf(RemoteScript(lines)))
      ensures shouldExit == (old(shouldExit) || ExitsIn(RemoteScript(lines)))
    {
      AppendEmpty(calls);
      var i := 0;
      while i < |lines|
        invariant 0 <= i <= |lines|
        invariant mode == ModesAfter(old(mode), RemoteScript(lines[..i]))
        invariant calls == old(calls) + LeaveCalls(LeavesOf(RemoteScript(lines[..i])))
        invariant shouldExit == (old(shouldExit) || ExitsIn(RemoteScript(lines[..i])))
      {
        RunRemoteLine(lines, i, old(mode), old(calls), old(shouldExit));
        i := i + 1;
      }
      assert lines[..i] == lines;
    }

    /** Line `i` of the file, run after the lines before it. */
    method RunRemoteLine(lines: seq<string>, i: nat, ghost st: ModeState, ghost log: seq<Call>, ghost exiting: bool)
      requires i < |lines|
      requires mode == ModesAfter(st, RemoteScript(lines[..i]))
      requires calls == log + LeaveCalls(LeavesOf(RemoteScript(lines[..i])))
      requires shouldExit == (exiting || ExitsIn(RemoteScript(lines[..i])))
      modifies this`mode, this`calls, this`shouldExit
      ensures mode == ModesAfter(st, RemoteScript(lines[..i + 1]))
      ensures calls == log + LeaveCalls(LeavesOf(RemoteScript(lines[..i + 1])))
      ensures shouldExit == (exiting || ExitsIn(RemoteScript(lines[..i + 1])))
    {
      RunRemoteActions(RemoteActions(lines[i]));
      ScriptLineStep(st, log, lines, i);
    }

    /** The state after `i + 1` lines is the state after `i` lines followed by line `i`. */
    static lemma ScriptLineStep(st: ModeState, log: seq<Call>, lines: seq<string>, i: nat)
      requires i < |lines|
      ensures var before := RemoteScript(lines[..i]);
        var line := RemoteActions(lines[i]);
        var after := RemoteScript(lines[..i + 1]);
        ModesAfter(st, after) == ModesAfter(ModesAfter(st, before), line)
        && log + LeaveCalls(LeavesOf(after)) == (log + LeaveCalls(LeavesOf(before))) + LeaveCalls(LeavesOf(line))
        && ExitsIn(after) == (ExitsIn(before) || ExitsIn(line))
    {
      var before := RemoteScript(lines[..i]);
      var line := RemoteActions(lines[i]);
      assert lines[..i + 1][..i] == lines[..i];
      assert RemoteScript(lines[..i + 1]) == before + line;
      ScriptAppend(st, before, line);
      LeaveCallsAppend(LeavesOf(before), LeavesOf(line));
      AppendAssociates(log, LeaveCalls(LeavesOf(before)), LeaveCalls(LeavesOf(line)));
    }

    /** The actions of one line, in order. */
    method RunRemoteActions(actions: seq<RemoteAction>)
      modifies this`mode, this`calls, this`shouldExit
      ensures mode == ModesAfter(old(mode), actions)
      ensures calls == old(calls) + LeaveCalls(LeavesOf(actions))
      ensures shouldExit == (old(shouldExit) || ExitsIn(actions))
    {
      AppendEmpty(calls);
      var j := 0;
      while j < |actions|
        invariant 0 <= j <= |actions|
        invariant mode == ModesAfter(old(mode), actions[..j])
        invariant calls == old(calls) + LeaveCalls(LeavesOf(actions[..j]))
        invariant shouldExit == (old(shouldExit) || ExitsIn(actions[..j]))
      {
        ghost var done := actions[..j];
        assert actions[..j + 1] == done + [actions[j]];
        ScriptStep(old(mode), done, actions[j]);
        RunRemoteAction(actions[j]);
        AppendAssociates(old(calls), LeaveCalls(LeavesOf(done)), if actions[j].Leave? then [LeaveMeeting(actions[j].endForAll)] else []);
        j := j + 1;
      }
      assert actions[..j] == actions;
    }

    static lemma LeaveCallsAppend(a: seq<bool>, b: seq<bool>)
      ensures LeaveCalls(a + b) == LeaveCalls(a) + LeaveCalls(b)
    {
    }

    /** One action of a remote script. */
    method RunRemoteAction(a: RemoteAction)
      modifies this`mode, this`calls, this`shouldExit
      ensures mode == ModeStep(old(mode), a)
      ensures calls == old(calls) + (if a.Leave? then [LeaveMeeting(a.endForAll)] else [])
      ensures shouldExit == (old(shouldExit) || (a.Leave? && a.exit))
    {
      AppendEmpty(calls);
      match a
      case SwitchMode(name, on) =>
        var _ := SetMode(name, on);
      case Leave(endForAll, exit) =>
        var _ := Do(LeaveMeeting(endForAll));
        if exit {
          shouldExit := true;
        }
      case UnknownCommand(_) =>
    }

    /** The script functions unfold at an appended action. */
    static lemma ScriptStep(st: ModeState, s: seq<RemoteAction>, a: RemoteAction)
      ensures ModesAfter(st, s + [a]) == ModeStep(ModesAfter(st, s), a)
      ensures LeaveCalls(LeavesOf(s + [a])) == LeaveCalls(LeavesOf(s)) + (if a.Leave? then [LeaveMeeting(a.endForAll)] else [])
      ensures ExitsIn(s + [a]) == (ExitsIn(s) || (a.Leave? && a.exit))
    {
      var t := s + [a];
      assert t[..|s|] == s && t[|s|] == a;
      var ends := LeavesOf(s) + (if a.Leave? then [a.endForAll] else []);
      assert LeavesOf(t) == ends;
      assert LeaveCalls(ends) == LeaveCalls(LeavesOf(s)) + (if a.Leave? then [LeaveMeeting(a.endForAll)] else []);
      if ExitsIn(t) && !(a.Leave? && a.exit) {
        var i :| 0 <= i < |t| && t[i].Leave? && t[i].exit;
        assert i < |s| && s[i] == t[i];
      }
      if ExitsIn(s) {
        var i :| 0 <= i < |s| && s[i].Leave? && s[i].exit;
        assert t[i] == s[i];
      }
      if a.Leave? && a.exit {
        assert t[|s|] == a;
      }
    }

    /**
     * `LeaveMeeting(endForAll)`: a host that leaves without ending the
     * meeting first passes the host role to the first co-host; the meeting
     * ends for all when there is none or the hand-off fails. The bot's own
     * record is read only when the meeting is not ended for all, and a
     * missing one throws before anything is done.
     */
    method LeaveMeetingSafely(endForAll: bool, me: Option<Participant>, ps: seq<Participant>) returns (fault: Option<string>)
      modifies this`calls
      ensures !endForAll && me.None? ==> fault == Some("NullReferenceException") && calls == old(calls)
      ensures endForAll || (me.Some? && !me.value.isHost) ==> fault.None? && calls == old(calls) + [LeaveMeeting(endForAll)]
      ensures !endForAll && me.Some? && me.value.isHost && FirstCoHost(ps).None? ==>
        fault.None? && calls == old(calls) + [LeaveMeeting(true)]
      ensures !endForAll && me.Some? && me.value.isHost && FirstCoHost(ps).Some? ==>
        var promote := PromoteParticipant(ps[FirstCoHost(ps).value], HostRole);
        fault.None? && calls == old(calls) + [promote, LeaveMeeting(!answer(|old(calls)|, promote))]
    {
      fault := None;
      var end := endForAll;
      if !end {
        if me.None? {
          return Some("NullReferenceException");
        }
        if me.value.isHost {
          var alt: Option<nat> := None;
          var i := 0;
          while i < |ps|
            invariant 0 <= i <= |ps|
            invariant alt.None? ==> forall j :: 0 <= j < i ==> !ps[j].isCoHost
            invariant alt.Some? ==> alt == FirstCoHost(ps)
          {
            if ps[i].isCoHost {
              alt := Some(i);
              FirstCoHostAt(ps, i);
              break;
            }
            i := i + 1;
          }
          if alt.None? {
            assert FirstCoHost(ps).None?;
            end := true;
          } else {
            var ok := Do(PromoteParticipant(ps[alt.value], HostRole));
            if !ok {
              end := true;
            }
          }
        }
      }
      var _ := Do(LeaveMeeting(end));
    }

    static lemma FirstCoHostAt(ps: seq<Participant>, i: nat)
      requires i < |ps| && ps[i].isCoHost && forall j :: 0 <= j < i ==> !ps[j].isCoHost
      ensures FirstCoHost(ps) == Some(i)
    {
    }

    /**
     * `Controller_OnActionTimerTick`: nothing once exiting; otherwise reload
     * the roster, run the remote commands, and then, unless paused, the
     * participant actions. Exceptions are logged and dropped.
     */
    method Tick(roster: Option<GoodUsersFile>, remote: Option<seq<string>>, ps: seq<Participant>,
                me: Option<Participant>, now: int, now2: int, hour: Hour)
      modifies this
      ensures old(shouldExit) ==> unchanged(this)
      ensures !old(shouldExit) && (roster.None? || roster.value.lastWrite == old(dtLastGoodUserMod)) ==>
        goodUsers == old(goodUsers) && dtLastGoodUserMod == old(dtLastGoodUserMod)
      ensures !old(shouldExit) && roster.Some? && roster.value.lastWrite != old(dtLastGoodUserMod) ==>
        goodUsers == Directory(ParseAll(roster.value.lines)) && dtLastGoodUserMod == roster.value.lastWrite
      ensures !old(shouldExit) ==>
        mode == ModesAfter(old(mode), ScriptOf(remote)) && shouldExit == ExitsIn(ScriptOf(remote))
        && topic == old(topic) && broadcastSent == old(broadcastSent) && waitMsg == old(waitMsg)
        && PartFields() == TickPart(old(PartFields()).(calls := old(calls) + LeaveCalls(LeavesOf(ScriptOf(remote)))),
                              mode, ps, me, goodUsers, waitMsg, now, now2, hour)
    {
      if shouldExit {
        return;
      }
      LoadThenRun(roster, remote, ps, me, now, now2, hour);
    }

    /** A tick that is not exiting: the roster, then the rest. */
    method LoadThenRun(roster: Option<GoodUsersFile>, remote: Option<seq<string>>, ps: seq<Participant>,
                       me: Option<Participant>, now: int, now2: int, hour: Hour)
      requires !shouldExit
      modifies this`goodUsers, this`dtLastGoodUserMod, this`mode, this`calls, this`shouldExit
      modifies this`dtLastAdmission, this`messages, this`dtLastWaitingRoomAnnouncement, this`firstParticipantGreeted, this`greeted
      ensures roster.None? || roster.value.lastWrite == old(dtLastGoodUserMod) ==>
        goodUsers == old(goodUsers) && dtLastGoodUserMod == old(dtLastGoodUserMod)
      ensures roster.Some? && roster.value.lastWrite != old(dtLastGoodUserMod) ==>
        goodUsers == Directory(ParseAll(roster.value.lines)) && dtLastGoodUserMod == roster.value.lastWrite
      ensures mode == ModesAfter(old(mode), ScriptOf(remote)) && shouldExit == ExitsIn(ScriptOf(remote))
      ensures PartFields() == TickPart(old(PartFields()).(calls := old(calls) + LeaveCalls(LeavesOf(ScriptOf(remote)))),
                                 mode, ps, me, goodUsers, waitMsg, now, now2, hour)
    {
      ghost var p0 := PartFields();
      LoadGoodUsers(roster);
      assert PartFields() == p0;
      RemoteThenParticipants(remote, ps, me, now, now2, hour);
    }

    /** The rest of the tick after the roster: the remote commands, then, unless paused, the participant actions. */
    method RemoteThenParticipants(remote: Option<seq<string>>, ps: seq<Participant>,
                                  me: Option<Participant>, now: int, now2: int, hour: Hour)
      modifies this`mode, this`calls, this`shouldExit
      modifies this`dtLastAdmission, this`messages, this`dtLastWaitingRoomAnnouncement, this`firstParticipantGreeted, this`greeted
      ensures mode == ModesAfter(old(mode), ScriptOf(remote))
      ensures shouldExit == (old(shouldExit) || ExitsIn(ScriptOf(remote)))
      ensures PartFields() == TickPart(old(PartFields()).(calls := old(calls) + LeaveCalls(LeavesOf(ScriptOf(remote)))),
                                 mode, ps, me, goodUsers, waitMsg, now, now2, hour)
    {
      ReadRemoteCommands(remote);
      if mode.paused {
        return;
      }
      TryParticipantActions(ps, me, now, now2, hour);
    }

    /** The `try` around `DoParticipantActions` in the tick handler: an exception is logged and dropped. */
    method TryParticipantActions(ps: seq<Participant>, me: Option<Participant>, now: int, now2: int, hour: Hour)
      modifies this`dtLastAdmission, this`messages, this`calls, this`dtLastWaitingRoomAnnouncement
      modifies this`firstParticipantGreeted, this`greeted
      ensures PartFields() == ParticipantActionsOutcome(old(PartFields()), mode.flags, ps, me, goodUsers, waitMsg, now, now2, hour).state
    {
      var _ := DoParticipantActions(ps, me, now, now2, hour);
    }

    /**
     * `Controller_OnParticipantJoinMeeting`: the topic when SendTopicOnJoin is
     * set, then, for a known administrator under CoHostKnown, co-host when the
     * bot is host or co-host. The bot's own record is read only on that last
     * check, and a missing one throws.
     */
    function JoinOutcome(s: ChatState, p: Participant, me: Option<Participant>, users: map<string, bool>, hour: Hour): Outcome {
      var t := if Has(s.mode.flags, SendTopicOnJoin) then SendTopicOutcome(s, p, false, hour) else TopicSent(s, Ok(false));
      if t.result.Fault? then TopicFault(t)
      else if !Has(s.mode.flags, CoHostKnown) || !IsAdmin(users, p.name) then Outcome(t.state, None)
      else if me.None? then Outcome(t.state, Some("NullReferenceException"))
      else if !me.value.isHost && !me.value.isCoHost then Outcome(t.state, None)
      else Outcome(t.state.(calls := t.state.calls + [PromoteParticipant(p, CoHostRole)]), None)
    }

    /** A joining known administrator is made co-host when CoHostKnown is set and the bot is host or co-host. */
    predicate PromotesOnJoin(flags: Flags, users: map<string, bool>, p: Participant, me: Participant) {
      Has(flags, CoHostKnown) && IsAdmin(users, p.name) && (me.isHost || me.isCoHost)
    }

    /** Joining changes no setting. */
    lemma JoinChangesNoSetting(s: ChatState, p: Participant, me: Option<Participant>, users: map<string, bool>, hour: Hour)
      ensures var o := JoinOutcome(s, p, me, users, hour);
        o.state.topic == s.topic && o.state.mode == s.mode && o.state.broadcastSent == s.broadcastSent && o.state.waitMsg == s.waitMsg
    {
      var t := if Has(s.mode.flags, SendTopicOnJoin) then SendTopicOutcome(s, p, false, hour) else TopicSent(s, Ok(false));
      if Has(s.mode.flags, SendTopicOnJoin) {
        SendTopicSendsTheLine(s, p, false, hour);
      }
      assert t.state.topic == s.topic && t.state.mode == s.mode && t.state.broadcastSent == s.broadcastSent && t.state.waitMsg == s.waitMsg;
    }

    /** Without SendTopicOnJoin, the promotion is the only call, and it is made exactly when it is due. */
    lemma JoinWithoutTopic(s: ChatState, p: Participant, me: Participant, users: map<string, bool>, hour: Hour)
      requires !Has(s.mode.flags, SendTopicOnJoin)
      ensures JoinOutcome(s, p, Some(me), users, hour)
        == Outcome(s.(calls := s.calls + (if PromotesOnJoin(s.mode.flags, users, p, me) then [PromoteParticipant(p, CoHostRole)] else [])), None)
    {
      if !PromotesOnJoin(s.mode.flags, users, p, me) {
        AppendEmpty(s.calls);
      }
    }

    /** Whenever the handler completes with a promotion due, the promotion is its last call. */
    lemma JoinEndsWithPromotion(s: ChatState, p: Participant, me: Participant, users: map<string, bool>, hour: Hour)
      requires PromotesOnJoin(s.mode.flags, users, p, me)
      ensures var o := JoinOutcome(s, p, Some(me), users, hour);
        o.fault.None? ==> |o.state.calls| > 0 && o.state.calls[|o.state.calls| - 1] == PromoteParticipant(p, CoHostRole)
    {
    }

    /** Without the bot's own record, a due promotion check throws. */
    lemma JoinWithoutRecord(s: ChatState, p: Participant, users: map<string, bool>, hour: Hour)
      ensures var o := JoinOutcome(s, p, None, users, hour);
        o.fault.None? ==> !Has(s.mode.flags, CoHostKnown) || !IsAdmin(users, p.name)
    {
    }

    /** `Controller_OnParticipantJoinMeeting`. */
    method OnParticipantJoinMeeting(p: Participant, me: Option<Participant>, hour: Hour) returns (fault: Option<string>)
      modifies this`greeted, this`calls
      ensures Outcome(ChatFields(), fault) == JoinOutcome(old(ChatFields()), p, me, goodUsers, hour)
    {
      fault := None;
      if Has(mode.flags, SendTopicOnJoin) {
        var r := SendTopic(p, false, hour);
        if r.Fault? {
          return Some(r.reason);
        }
      }
      if !Has(mode.flags, CoHostKnown) {
        return;
      }
      if !IsAdmin(goodUsers, p.name) {
        return;
      }
      if me.None? {
        return Some("NullReferenceException");
      }
      if !me.value.isHost && !me.value.isCoHost {
        return;
      }
      var _ := Do(PromoteParticipant(p, CoHostRole));
    }

    /** `Controller_OnParticipantJoinWaitingRoom`: a known participant is admitted when AdmitKnown is set. */
    method OnParticipantJoinWaitingRoom(p: Participant)
      modifies this`calls
      ensures Has(mode.flags, AdmitKnown) && IsKnown(goodUsers, p.name) ==> calls == old(calls) + [AdmitParticipant(p)]
      ensures !(Has(mode.flags, AdmitKnown) && IsKnown(goodUsers, p.name)) ==> calls == old(calls)
    {
      if !Has(mode.flags, AdmitKnown) {
        return;
      }
      if IsKnown(goodUsers, p.name) {
        var _ := Do(AdmitParticipant(p));
      }
    }

    /**
     * `Controller_OnChatMessageReceive`: ignored and refused messages change
     * nothing; small talk, a non-administrator's `/topic` and an
     * administrator's command each go to their own branch. A thrown
     * exception ends the handler with what was done before it.
     */
    function ChatMessageOutcome(s: ChatState, e: ChatEvent, users: map<string, bool>, now: int, hour: Hour): Outcome {
      match RouteChat(e, s.mode.flags, settings.myName, users, everyone, u)
      case Ignored => Outcome(s, None)
      case NotForMe => Outcome(s, None)
      case NotAdmin => Outcome(s, None)
      case SmallTalk(text, replyTo) => ConverseOutcome(s, text, replyTo, e, hour)
      case TopicRequest(replyTo) => TopicFault(SendTopicOutcome(s, replyTo, true, hour))
      case Command(line, replyTo) => CommandOutcome(s, line, replyTo, e.from, now, hour)
    }

    /**
     * Only an administrator's command changes a setting: a message that is
     * ignored or refused changes nothing at all, small talk and the topic
     * request change only the greeting table and the call log, and a
     * non-administrator never reaches a command.
     */
    lemma OnlyCommandsChangeSettings(s: ChatState, e: ChatEvent, users: map<string, bool>, now: int, hour: Hour)
      ensures var r := RouteChat(e, s.mode.flags, settings.myName, users, everyone, u);
        r == Ignored || r == NotForMe || r == NotAdmin ==> ChatMessageOutcome(s, e, users, now, hour) == Outcome(s, None)
      ensures var r := RouteChat(e, s.mode.flags, settings.myName, users, everyone, u);
        var o := ChatMessageOutcome(s, e, users, now, hour);
        !r.Command? ==>
          o.state == s.(greeted := o.state.greeted, calls := o.state.calls)
      ensures var o := ChatMessageOutcome(s, e, users, now, hour);
        !IsAdmin(users, e.from.name) ==>
          o.state.topic == s.topic && o.state.mode == s.mode && o.state.broadcastSent == s.broadcastSent && o.state.waitMsg == s.waitMsg
    {
      match RouteChat(e, s.mode.flags, settings.myName, users, everyone, u)
      case Ignored =>
      case NotForMe =>
      case NotAdmin =>
      case SmallTalk(text, replyTo) =>
        SmallTalkChangesNoSetting(s, text, replyTo, e, hour);
      case TopicRequest(replyTo) =>
        SendTopicSendsTheLine(s, replyTo, true, hour);
      case Command(line, replyTo) =>
    }

    /** A non-administrator's `/topic` gets at most one message, to whoever asked, ending with the topic line. */
    lemma TopicRequestGetsTheLine(s: ChatState, e: ChatEvent, users: map<string, bool>, now: int, hour: Hour)
      requires RouteChat(e, s.mode.flags, settings.myName, users, everyone, u).TopicRequest?
      ensures var replyTo := RouteChat(e, s.mode.flags, settings.myName, users, everyone, u).replyTo;
        var o := ChatMessageOutcome(s, e, users, now, hour);
        (o.fault.None? ==> SendsLine(s.calls, o.state.calls, replyTo, GetTopic(s.topic, true, hour, u).value))
        && (o.fault.Some? ==> o.state.calls == s.calls)
    {
      SendTopicSendsTheLine(s, RouteChat(e, s.mode.flags, settings.myName, users, everyone, u).replyTo, true, hour);
    }

    /** `Controller_OnChatMessageReceive`. */
    method OnChatMessageReceive(e: ChatEvent, now: int, hour: Hour) returns (fault: Option<string>)
      modifies this`greeted, this`calls, this`topic, this`broadcastSent, this`mode, this`waitMsg
      ensures Outcome(ChatFields(), fault) == ChatMessageOutcome(old(ChatFields()), e, goodUsers, now, hour)
    {
      fault := None;
      var route := RouteChat(e, mode.flags, settings.myName, goodUsers, everyone, u);
      match route
      case Ignored =>
      case NotForMe =>
      case NotAdmin =>
      case SmallTalk(text, replyTo) =>
        fault := Converse(text, replyTo, e, hour);
      case TopicRequest(replyTo) =>
        var r := SendTopic(replyTo, true, hour);
        if r.Fault? {
          fault := Some(r.reason);
        }
      case Command(line, replyTo) =>
        fault := RunCommand(line, replyTo, e.from, now, hour);
    }

    /** `IsMatch(text, $"\\b${key}\\b", IgnoreCase)` for every broadcast key. */
    function KeywordHit(text: string): string -> bool {
      k => u.isMatch(text, "\\b$" + k + "\\b")
    }

    /**
     * The canned reply of the last broadcast key, in the table's order, that
     * `text` mentions; none when no key matches.
     */
    function KeywordFor(text: string): (r: Option<string>)
      ensures r == KeywordReply(settings.broadcastOrder, settings.broadcasts, KeywordHit(text))
      ensures r.Some? <==> exists k :: k in settings.broadcasts && u.isMatch(text, "\\b$" + k + "\\b")
      ensures r.Some? ==> exists i :: 0 <= i < |settings.broadcastOrder| && settings.broadcastOrder[i] in settings.broadcasts && u.isMatch(text, "\\b$" + settings.broadcastOrder[i] + "\\b")
                                    && r.value == settings.broadcasts[settings.broadcastOrder[i]]
                                    && forall j :: i < j < |settings.broadcastOrder| ==> !u.isMatch(text, "\\b$" + settings.broadcastOrder[j] + "\\b")
      ensures r.Some? ==> r.value in settings.broadcasts.Values
    {
      KeywordReplyOverTable(settings.broadcastOrder, settings.broadcasts, KeywordHit(text));
      KeywordReply(settings.broadcastOrder, settings.broadcasts, KeywordHit(text))
    }

    /** One chat bot asked to answer `text` from `name`. */
    function AskBot(text: string, name: string): ChatBotInfo -> Option<string> {
      b => converse(b, text, name)
    }

    /** What the chat bots answer, asked in order until one of them does; none without chat bots. */
    function BotsAnswer(text: string, name: string): (r: Option<string>)
      ensures r == (if chatBots.None? then None else FirstAnswer(chatBots.value, AskBot(text, name)))
      ensures r.Some? ==> chatBots.Some? && exists i :: (0 <= i < |chatBots.value| && r == converse(chatBots.value[i], text, name)
                                                         && forall j :: 0 <= j < i ==> converse(chatBots.value[j], text, name).None?)
      ensures r.None? && chatBots.Some? ==> forall i :: 0 <= i < |chatBots.value| ==> converse(chatBots.value[i], text, name).None?
    {
      if chatBots.None? then None else FirstAnswer(chatBots.value, AskBot(text, name))
    }

    /** The one-time greeting `OneTimeHi(text, p)` gives from greeting table `greeted0`. */
    function HiFor(greeted0: map<nat, string>, text: string, p: Participant): Option<string> {
      if settings.oneTimeHis.None? then None
      else Phrases.OneTimeHi(greeted0, p.userId, u.wordsOf(text), settings.oneTimeHis.value).reply
    }

    /** The reply small talk sends: a keyword's canned reply over the greeting, else the chat bots' answer. */
    function SmallTalkReply(greeted0: map<nat, string>, text: string, p: Participant): (r: Option<string>)
      ensures KeywordFor(text).Some? ==> r == KeywordFor(text)
      ensures KeywordFor(text).None? && HiFor(greeted0, text, p).Some? ==> r == HiFor(greeted0, text, p)
      ensures KeywordFor(text).None? && HiFor(greeted0, text, p).None? ==> r == BotsAnswer(text, p.name)
    {
      var first := if KeywordFor(text).Some? then KeywordFor(text) else HiFor(greeted0, text, p);
      if first.None? then BotsAnswer(text, p.name) else first
    }

    /** The reply in chat and, when it was delivered and speaking is wanted, the same text spoken. */
    function ReplyCalls(to: Participant, text: string, speak: bool, n: nat): (cs: seq<Call>)
      ensures 1 <= |cs| <= 2 && cs[0] == SendChatMessage(to, text)
      ensures |cs| == 2 <==> speak && answer(n, cs[0])
      ensures |cs| == 2 ==> cs[1] == SpeakText(text)
    {
      [SendChatMessage(to, text)] + (if speak && answer(n, SendChatMessage(to, text)) then [SpeakText(text)] else [])
    }

    /** `IsMatch(text, "\\b(topic|reading)\\b")`: the message asks about the topic. */
    predicate AsksForTopic(text: string) {
      u.isMatch(text, "\\b(topic|reading)\\b")
    }

    /**
     * Small talk: the one-time greeting, overridden by the last matching
     * broadcast keyword (never spoken), the topic when asked for and nothing
     * else answered, otherwise the chat bots in order; the reply is formatted
     * and sent, and spoken when addressed in public or in a two-person meeting.
     */
    function ConverseOutcome(s: ChatState, text: string, replyTo: Participant, e: ChatEvent, hour: Hour): Outcome {
      var keyword := KeywordFor(text);
      var response := if keyword.Some? then keyword else HiFor(s.greeted, text, e.from);
      var speak := (!e.isPrivate || e.participantCount == 2) && keyword.None?;
      RespondOutcome(s.(greeted := HiGreeted(s.greeted, text, e.from)), text, replyTo, e.from.name, response, hour, speak)
    }

    /** With no reply yet, a question about the topic gets the topic; otherwise the reply, or the chat bots' answer, is sent. */
    function RespondOutcome(s: ChatState, text: string, replyTo: Participant, name: string,
                            response: Option<string>, hour: Hour, speak: bool): Outcome {
      if response.None? && AsksForTopic(text) then TopicFault(SendTopicOutcome(s, replyTo, true, hour))
      else ReplyOutcome(s, replyTo, if response.None? then BotsAnswer(text, name) else response, name, hour, speak)
    }

    /** `FormatChatResponse` and the send; a formatting exception is returned and nothing is sent. */
    function ReplyOutcome(s: ChatState, to: Participant, response: Option<string>, name: string, hour: Hour, speak: bool): Outcome {
      match FormatChatResponse(response, Some(name), hour, u)
      case Fault(reason) => Outcome(s, Some(reason))
      case Ok(reply) => Outcome(s.(calls := s.calls + ReplyCalls(to, reply, speak, |s.calls|)), None)
    }

    /** Small talk changes only the greeting table and the call log. */
    lemma SmallTalkChangesNoSetting(s: ChatState, text: string, replyTo: Participant, e: ChatEvent, hour: Hour)
      ensures var o := ConverseOutcome(s, text, replyTo, e, hour);
        o.state == s.(greeted := o.state.greeted, calls := o.state.calls)
    {
      var keyword := KeywordFor(text);
      var response := if keyword.Some? then keyword else HiFor(s.greeted, text, e.from);
      var speak := (!e.isPrivate || e.participantCount == 2) && keyword.None?;
      RespondChangesNoSetting(s.(greeted := HiGreeted(s.greeted, text, e.from)), text, replyTo, e.from.name, response, hour, speak);
    }

    lemma RespondChangesNoSetting(s: ChatState, text: string, replyTo: Participant, name: string,
                                  response: Option<string>, hour: Hour, speak: bool)
      ensures var o := RespondOutcome(s, text, replyTo, name, response, hour, speak);
        o.state == s.(greeted := o.state.greeted, calls := o.state.calls)
    {
      if response.None? && AsksForTopic(text) {
        SendTopicSendsTheLine(s, replyTo, true, hour);
      }
    }

    /** A keyword's canned reply is sent in chat only, never spoken. */
    lemma KeywordRepliesAreNotSpoken(s: ChatState, text: string, replyTo: Participant, e: ChatEvent, hour: Hour)
      requires KeywordFor(text).Some?
      ensures var o := ConverseOutcome(s, text, replyTo, e, hour);
        var f := FormatChatResponse(KeywordFor(text), Some(e.from.name), hour, u);
        (f.Fault? ==> o.fault == Some(f.reason) && o.state.calls == s.calls)
        && (f.Ok? ==> o.fault.None? && o.state.calls == s.calls + [SendChatMessage(replyTo, f.value)])
    {
      var f := FormatChatResponse(KeywordFor(text), Some(e.from.name), hour, u);
      if f.Ok? {
        assert ReplyCalls(replyTo, f.value, false, |s.calls|) == [SendChatMessage(replyTo, f.value)];
      }
    }

    /** A question about the topic that nothing else answers gets at most one message, to `replyTo`, ending with the topic line. */
    lemma TopicQuestionGetsTheLine(s: ChatState, text: string, replyTo: Participant, e: ChatEvent, hour: Hour)
      requires KeywordFor(text).None? && HiFor(s.greeted, text, e.from).None? && AsksForTopic(text)
      ensures var o := ConverseOutcome(s, text, replyTo, e, hour);
        (o.fault.None? ==> SendsLine(s.calls, o.state.calls, replyTo, GetTopic(s.topic, true, hour, u).value))
        && (o.fault.Some? ==> o.state.calls == s.calls)
    {
      SendTopicSendsTheLine(s.(greeted := HiGreeted(s.greeted, text, e.from)), replyTo, true, hour);
    }

    /** Otherwise small talk sends the formatted reply, spoken unless private in a larger meeting or a keyword reply. */
    lemma SmallTalkReplies(s: ChatState, text: string, replyTo: Participant, e: ChatEvent, hour: Hour)
      requires !(KeywordFor(text).None? && HiFor(s.greeted, text, e.from).None? && AsksForTopic(text))
      ensures var o := ConverseOutcome(s, text, replyTo, e, hour);
        var f := FormatChatResponse(SmallTalkReply(s.greeted, text, e.from), Some(e.from.name), hour, u);
        (f.Fault? ==> o.fault == Some(f.reason) && o.state.calls == s.calls)
        && (f.Ok? ==> o.fault.None? && o.state.calls == s.calls + ReplyCalls(replyTo, f.value, (!e.isPrivate || e.participantCount == 2) && KeywordFor(text).None?, |s.calls|))
    {
    }

    /** Small talk. */
    method Converse(text: string, replyTo: Participant, e: ChatEvent, hour: Hour) returns (fault: Option<string>)
      modifies this`greeted, this`calls
      ensures Outcome(ChatFields(), fault) == ConverseOutcome(old(ChatFields()), text, replyTo, e, hour)
    {
      var speak := !e.isPrivate || e.participantCount == 2;
      var response := FirstReply(text, e.from);
      if KeywordFor(text).Some? {
        speak := false;
      }
      fault := Respond(text, replyTo, e.from.name, response, hour, speak);
    }

    /** With no reply yet, a question about the topic gets the topic; otherwise the reply, or the chat bots' answer, is sent. */
    method Respond(text: string, replyTo: Participant, name: string, response: Option<string>, hour: Hour, speak: bool)
      returns (fault: Option<string>)
      modifies this`greeted, this`calls
      ensures Outcome(ChatFields(), fault) == RespondOutcome(old(ChatFields()), text, replyTo, name, response, hour, speak)
    {
      if response.None? && AsksForTopic(text) {
        var r := SendTopic(replyTo, true, hour);
        return if r.Fault? then Some(r.reason) else None;
      }
      var reply := ChainReply(response, text, name);
      fault := SendReply(replyTo, reply, name, hour, speak);
    }

    /** The one-time greeting, replaced by the keyword reply when a broadcast keyword matches. */
    method FirstReply(text: string, p: Participant) returns (response: Option<string>)
      modifies this`greeted
      ensures response == (if KeywordFor(text).Some? then KeywordFor(text) else HiFor(old(greeted), text, p))
      ensures greeted == HiGreeted(old(greeted), text, p)
    {
      response := OneTimeHi(text, p);
      var keyword := KeywordFor(text);
      if keyword.Some? {
        response := keyword;
      }
    }

    /** The chat bots, asked only when nothing has answered yet. */
    method ChainReply(first: Option<string>, text: string, name: string) returns (response: Option<string>)
      ensures response == (if first.None? then BotsAnswer(text, name) else first)
    {
      response := first;
      if first.None? && chatBots.Some? {
        var asked;
        response, asked := RunChain(chatBots.value, AskBot(text, name));
      }
    }

    /** `FormatChatResponse` and the send. */
    method SendReply(to: Participant, response: Option<string>, name: string, hour: Hour, speak: bool)
      returns (fault: Option<string>)
      modifies this`calls
      ensures Outcome(ChatFields(), fault) == ReplyOutcome(old(ChatFields()), to, response, name, hour, speak)
    {
      var formatted := FormatChatResponse(response, Some(name), hour, u);
      if formatted.Fault? {
        return Some(formatted.reason);
      }
      var ok := Do(SendChatMessage(to, formatted.value));
      if ok && speak {
        var _ := Do(SpeakText(formatted.value));
      }
      return None;
    }

    // Commands

    /** An administrator's command, classified and run by the branch it reaches. */
    function CommandOutcome(s: ChatState, line: CommandLine, replyTo: Participant, from: Participant, now: int, hour: Hour): Outcome {
      PlanOutcome(s, ClassifyCommand(line, settings.broadcasts, EmailTable()), line.command, replyTo, from, now, hour)
    }

    /** The interpreter branch `plan` for command word `command`. */
    function PlanOutcome(s: ChatState, plan: CommandPlan, command: string, replyTo: Participant, from: Participant,
                         now: int, hour: Hour): Outcome
      requires plan.ModeChange? ==> IsChatMode(plan.name)
    {
      if ChangesOnlyCalls(plan) then Outcome(s.(calls := s.calls + AnswerCalls(plan, command, replyTo, from, |s.calls|)), None)
      else if plan.BroadcastPlan? || plan.TopicQuery? || plan.TopicChange? then TopicOrBroadcastOutcome(s, plan, command, replyTo, now, hour)
      else Outcome(SettingOutcome(s, plan, command, replyTo), None)
    }

    /**
     * Each branch changes only the fields it owns: the topic only under
     * `/topic <arg>`, the broadcast times only under a broadcast, the modes
     * only under a mode command with on or off, the waiting-room message only
     * under `/waitmsg`, the greeting table only under a bare `/topic`; a
     * missing argument does nothing at all; only the two topic branches
     * throw, `/topic <arg>` exactly when `TopicCommand` does; and the call
     * log is only appended to.
     */
    lemma CommandsChangeOnlyTheirFields(s: ChatState, line: CommandLine, replyTo: Participant, from: Participant, now: int, hour: Hour)
      ensures var plan := ClassifyCommand(line, settings.broadcasts, EmailTable());
        var o := CommandOutcome(s, line, replyTo, from, now, hour);
        (!plan.TopicChange? ==> o.state.topic == s.topic)
        && (!plan.BroadcastPlan? ==> o.state.broadcastSent == s.broadcastSent)
        && (!(plan.ModeChange? && plan.on.Some?) ==> o.state.mode == s.mode)
        && (!plan.WaitMsgChange? ==> o.state.waitMsg == s.waitMsg)
        && (!plan.TopicQuery? ==> o.state.greeted == s.greeted)
        && (plan == MissingArgument ==> o == Outcome(s, None))
        && (o.fault.Some? ==> plan.TopicQuery? || plan.TopicChange?)
        && (plan.TopicChange? ==> (o.fault.Some? <==> TopicCommand(s.topic, plan.arg).Fault?))
        && Extends(s.calls, o.state.calls)
    {
      var plan := ClassifyCommand(line, settings.broadcasts, EmailTable());
      if ChangesOnlyCalls(plan) {
        AppendExtends(s.calls, AnswerCalls(plan, line.command, replyTo, from, |s.calls|));
      } else if plan.BroadcastPlan? || plan.TopicQuery? || plan.TopicChange? {
        TopicOrBroadcastFields(s, plan, line.command, replyTo, now, hour);
      } else {
        SettingFields(s, plan, line.command, replyTo);
      }
    }

    /** The broadcast and `/topic` branches keep the modes and the waiting-room message, and own one field each. */
    lemma TopicOrBroadcastFields(s: ChatState, plan: CommandPlan, command: string, replyTo: Participant, now: int, hour: Hour)
      requires plan.BroadcastPlan? || plan.TopicQuery? || plan.TopicChange?
      ensures var o := TopicOrBroadcastOutcome(s, plan, command, replyTo, now, hour);
        o.state.mode == s.mode && o.state.waitMsg == s.waitMsg
        && (!plan.TopicChange? ==> o.state.topic == s.topic)
        && (!plan.BroadcastPlan? ==> o.state.broadcastSent == s.broadcastSent)
        && (!plan.TopicQuery? ==> o.state.greeted == s.greeted)
        && (plan.BroadcastPlan? ==> o.fault.None?)
        && (plan.TopicChange? ==> (o.fault.Some? <==> TopicCommand(s.topic, plan.arg).Fault?))
        && Extends(s.calls, o.state.calls)
    {
      match plan
      case BroadcastPlan(message) =>
        var v := BroadcastGuard(LastSent(s.broadcastSent, command), settings.guardSecs, now);
        AppendExtends(s.calls, [if v == SendNow then SendChatMessage(everyone, message) else SendChatMessage(replyTo, BroadcastRefusal(command, v))]);
      case TopicQuery =>
        SendTopicSendsTheLine(s, replyTo, true, hour);
        AppendEmpty(s.calls);
        var t := SendTopicOutcome(s, replyTo, true, hour);
        if t.result.Ok? {
          assert t.state.calls == s.calls + [t.state.calls[|s.calls|]];
        }
        AppendExtends(s.calls, t.state.calls[|s.calls|..]);
        assert t.state.calls == s.calls + t.state.calls[|s.calls|..];
      case TopicChange(arg) =>
        AppendEmpty(s.calls);
        match TopicCommand(s.topic, arg)
        case Fault(_) =>
        case Ok(o) =>
          AppendExtends(s.calls, [SendChatMessage(replyTo, o.reply)]
                            + (if o.broadcast then [SendChatMessage(everyone, GetTopic(o.topic, true, hour, u).value)] else []));
    }

    /** The setting branches keep the topic, the broadcast times and the greeting table, and own one field each. */
    lemma SettingFields(s: ChatState, plan: CommandPlan, command: string, replyTo: Participant)
      requires plan.MissingArgument? || plan.ModeChange? || plan.WaitMsgChange?
      requires plan.ModeChange? ==> IsChatMode(plan.name)
      ensures var t := SettingOutcome(s, plan, command, replyTo);
        t.topic == s.topic && t.broadcastSent == s.broadcastSent && t.greeted == s.greeted
        && (!(plan.ModeChange? && plan.on.Some?) ==> t.mode == s.mode)
        && (!plan.WaitMsgChange? ==> t.waitMsg == s.waitMsg)
        && (plan.MissingArgument? ==> t == s)
        && Extends(s.calls, t.calls)
    {
      AppendEmpty(s.calls);
      match plan
      case MissingArgument =>
      case ModeChange(name, on, arg) =>
        AppendExtends(s.calls, [ModeOutcome(s, command, name, on, arg, replyTo).calls[|s.calls|]]);
      case WaitMsgChange(arg) =>
        AppendExtends(s.calls, [SendChatMessage(replyTo, WaitReplyText(WaitMsgCommand(s.waitMsg, arg).reply, arg))]);
    }

    static lemma AppendExtends(a: seq<Call>, b: seq<Call>)
      ensures Extends(a, a + b)
    {
      assert (a + b)[..|a|] == a;
    }

    /** The reply to a rename command without " to ". */
    function RenameUsageText(command: string): string {
      "Please use the format: /" + command + " Old Name to New Name\nExample: /" + command + " iPad User to John Doe"
    }

    /** The calls of the branches that only talk to the meeting. */
    function AnswerCalls(plan: CommandPlan, command: string, replyTo: Participant, from: Participant, n: nat): seq<Call>
      requires ChangesOnlyCalls(plan)
    {
      match plan
      case EmailPlanned(args, target) => EmailCalls(command, args, target, replyTo, n)
      case RenameUsage => [SendChatMessage(replyTo, RenameUsageText(command))]
      case SpeakerOff => [SendChatMessage(from, "Speaker mode is not yet implemented")]
      case SayPlan(text) => ReplyCalls(everyone, text, true, n)
      case PlayPlan(sound) => PlayCalls(sound, replyTo, n)
      case TargetPlan(cmd, target, newName) => ActionCalls(TargetCommand(cmd, target, newName, from, lookup, u), replyTo, n)
    }

    /** An e-mail command: the usage reply, or the mail and a reply saying whether it went out. */
    function EmailCalls(command: string, args: EmailArgs, target: string, replyTo: Participant, n: nat): seq<Call> {
      match PlanEmail(target, args)
      case EmailUsage =>
        [SendChatMessage(replyTo, "Error: The format of the command is incorrect; Correct example: /" + command + " " + args.argsExample)]
      case Mail(address, subject, body) =>
        var mail := SendEmail(subject, body, address);
        [mail, SendChatMessage(replyTo, command + (if answer(n, mail) then ": Successfully sent email to " else ": Failed to send email to ") + address)]
    }

    /** `/play`: the reply naming the sound and, when delivered, the sound itself. */
    function PlayCalls(sound: string, replyTo: Participant, n: nat): seq<Call> {
      var said := SendChatMessage(replyTo, "Playing: " + u.repr(sound));
      [said] + (if answer(n, said) then [PlaySound(sound)] else [])
    }

    /** A command about one participant: the reply, the notice, or the action and the reply its outcome picks. */
    function ActionCalls(a: TargetAction, replyTo: Participant, n: nat): seq<Call> {
      match a
      case Reply(text) => [SendChatMessage(replyTo, text)]
      case Notice(to, text) => [SendChatMessage(to, text)]
      case Act(call, success, failure) => [call, SendChatMessage(replyTo, if answer(n, call) then success else failure)]
    }

    /** A participant command makes at most one controller call, the one `TargetCommand` chose, and reports on it to `replyTo`. */
    lemma ParticipantCommandActsOnce(cmd: string, target: string, newName: Option<string>, from: Participant, replyTo: Participant, n: nat)
      ensures var a := TargetCommand(cmd, target, newName, from, lookup, u);
        var cs := ActionCalls(a, replyTo, n);
        (forall c :: c in cs && IsParticipantCall(c) ==> a.Act? && c == a.call)
        && (a.Act? ==> |cs| == 2 && cs[1].SendChatMessage? && cs[1].to == replyTo
                       && cs[1].text == (if answer(n, a.call) then a.success else a.failure))
    {
    }

    /** The broadcast and `/topic` branches. */
    function TopicOrBroadcastOutcome(s: ChatState, plan: CommandPlan, command: string, replyTo: Participant, now: int, hour: Hour): Outcome
      requires plan.BroadcastPlan? || plan.TopicQuery? || plan.TopicChange?
    {
      match plan
      case BroadcastPlan(message) => Outcome(BroadcastOutcome(s, command, message, replyTo, now), None)
      case TopicQuery => TopicFault(SendTopicOutcome(s, replyTo, true, hour))
      case TopicChange(arg) => ChangeTopicOutcome(s, arg, replyTo, hour)
    }

    /** The branches that change a setting: a missing argument, a mode command and `/waitmsg`. */
    function SettingOutcome(s: ChatState, plan: CommandPlan, command: string, replyTo: Participant): ChatState
      requires plan.MissingArgument? || plan.ModeChange? || plan.WaitMsgChange?
      requires plan.ModeChange? ==> IsChatMode(plan.name)
    {
      match plan
      case MissingArgument => s
      case ModeChange(name, on, arg) => ModeOutcome(s, command, name, on, arg, replyTo)
      case WaitMsgChange(arg) => WaitMsgOutcome(s, arg, replyTo)
    }

    /** A mode command: the usage reply without on or off, otherwise the switch and whether it changed anything. */
    function ModeOutcome(s: ChatState, command: string, name: string, on: Option<bool>, arg: string, replyTo: Participant): ChatState
      requires IsChatMode(name)
    {
      if on.None? then
        s.(calls := s.calls + [SendChatMessage(replyTo, "Sorry, the " + command + " command requires either on or off as a parameter")])
      else
        var o := Modes.SetMode(s.mode, name, on.value).value;
        s.(mode := o.next,
           calls := s.calls + [SendChatMessage(replyTo, command + (if o.changed then " mode has been changed to " else " mode is already ") + Trim(Lower(arg)))])
    }

    /** `/waitmsg`: the new waiting-room message and the reply describing it. */
    function WaitMsgOutcome(s: ChatState, arg: string, replyTo: Participant): ChatState {
      var o := WaitMsgCommand(s.waitMsg, arg);
      s.(waitMsg := o.message, calls := s.calls + [SendChatMessage(replyTo, WaitReplyText(o.reply, arg))])
    }

    /** The reply to a broadcast the guard refuses. */
    function BroadcastRefusal(command: string, v: GuardVerdict): string {
      if v == AlreadySent then command + ": This broadcast message was already sent."
      else command + ": This broadcast message was already sent recently. Please try again later."
    }

    /** A broadcast command: refused by the guard, or sent to everyone and, when delivered, timed. */
    function BroadcastOutcome(s: ChatState, command: string, message: string, replyTo: Participant, now: int): ChatState {
      var v := BroadcastGuard(LastSent(s.broadcastSent, command), settings.guardSecs, now);
      var out := SendChatMessage(everyone, message);
      s.(broadcastSent := Record(s.broadcastSent, Request(command, now, answer(|s.calls|, out)), settings.guardSecs),
         calls := s.calls + [if v == SendNow then out else SendChatMessage(replyTo, BroadcastRefusal(command, v))])
    }

    /** `/topic <arg>`: the new topic, the reply, and the topic line to everyone after a set or a force. */
    function ChangeTopicOutcome(s: ChatState, arg: string, replyTo: Participant, hour: Hour): Outcome {
      match TopicCommand(s.topic, arg)
      case Fault(reason) => Outcome(s, Some(reason))
      case Ok(o) =>
        Outcome(s.(topic := o.topic,
                   calls := s.calls + [SendChatMessage(replyTo, o.reply)]
                            + (if o.broadcast then [SendChatMessage(everyone, GetTopic(o.topic, true, hour, u).value)] else [])),
                None)
    }

    /** An administrator's command. */
    method RunCommand(line: CommandLine, replyTo: Participant, from: Participant, now: int, hour: Hour)
      returns (fault: Option<string>)
      modifies this`greeted, this`calls, this`topic, this`broadcastSent, this`mode, this`waitMsg
      ensures Outcome(ChatFields(), fault) == CommandOutcome(old(ChatFields()), line, replyTo, from, now, hour)
    {
      var plan := ClassifyCommand(line, settings.broadcasts, EmailTable());
      fault := RunPlan(plan, line.command, replyTo, from, now, hour);
    }

    /** The interpreter branch `plan` for command word `command`. */
    method RunPlan(plan: CommandPlan, command: string, replyTo: Participant, from: Participant, now: int, hour: Hour)
      returns (fault: Option<string>)
      requires plan.ModeChange? ==> IsChatMode(plan.name)
      modifies this`greeted, this`calls, this`topic, this`broadcastSent, this`mode, this`waitMsg
      ensures Outcome(ChatFields(), fault) == PlanOutcome(old(ChatFields()), plan, command, replyTo, from, now, hour)
    {
      fault := None;
      if ChangesOnlyCalls(plan) {
        AnswerPlan(plan, command, replyTo, from);
      } else if plan.BroadcastPlan? || plan.TopicQuery? || plan.TopicChange? {
        fault := TopicOrBroadcastPlan(plan, command, replyTo, now, hour);
      } else {
        SettingPlan(plan, command, replyTo);
      }
    }

    /** The broadcast and `/topic` branches. */
    method TopicOrBroadcastPlan(plan: CommandPlan, command: string, replyTo: Participant, now: int, hour: Hour)
      returns (fault: Option<string>)
      requires plan.BroadcastPlan? || plan.TopicQuery? || plan.TopicChange?
      modifies this`greeted, this`calls, this`topic, this`broadcastSent
      ensures Outcome(ChatFields(), fault) == TopicOrBroadcastOutcome(old(ChatFields()), plan, command, replyTo, now, hour)
    {
      fault := None;
      match plan
      case BroadcastPlan(message) =>
        BroadcastCommand(command, message, replyTo, now);
      case TopicQuery =>
        var r := SendTopic(replyTo, true, hour);
        if r.Fault? {
          fault := Some(r.reason);
        }
      case TopicChange(arg) =>
        fault := ChangeTopic(arg, replyTo, hour);
    }

    /** The branches that change a setting. */
    method SettingPlan(plan: CommandPlan, command: string, replyTo: Participant)
      requires plan.MissingArgument? || plan.ModeChange? || plan.WaitMsgChange?
      requires plan.ModeChange? ==> IsChatMode(plan.name)
      modifies this`calls, this`mode, this`waitMsg
      ensures ChatFields() == SettingOutcome(old(ChatFields()), plan, command, replyTo)
    {
      match plan
      case MissingArgument =>
      case ModeChange(name, on, arg) =>
        ModeCommand(command, name, on, arg, replyTo);
      case WaitMsgChange(arg) =>
        WaitMsgCommandRun(arg, replyTo);
    }

    /** The branches that only talk to the meeting. */
    method AnswerPlan(plan: CommandPlan, command: string, replyTo: Participant, from: Participant)
      requires ChangesOnlyCalls(plan)
      modifies this`calls
      ensures calls == old(calls) + AnswerCalls(plan, command, replyTo, from, |old(calls)|)
    {
      match plan
      case EmailPlanned(args, target) =>
        EmailCommand(command, args, target, replyTo);
      case RenameUsage =>
        var _ := Do(SendChatMessage(replyTo, RenameUsageText(command)));
      case SpeakerOff =>
        var _ := Do(SendChatMessage(from, "Speaker mode is not yet implemented"));
      case SayPlan(text) =>
        SayCommand(text);
      case PlayPlan(sound) =>
        PlayCommand(sound, replyTo);
      case TargetPlan(cmd, target, newName) =>
        ParticipantCommand(cmd, target, newName, from, replyTo);
    }

    /** An e-mail command. */
    method EmailCommand(command: string, args: EmailArgs, target: string, replyTo: Participant)
      modifies this`calls
      ensures calls == old(calls) + EmailCalls(command, args, target, replyTo, |old(calls)|)
    {
      match PlanEmail(target, args)
      case EmailUsage =>
        var _ := Do(SendChatMessage(replyTo, "Error: The format of the command is incorrect; Correct example: /" + command + " " + args.argsExample));
      case Mail(address, subject, body) =>
        var ok := Do(SendEmail(subject, body, address));
        var _ := Do(SendChatMessage(replyTo, command + (if ok then ": Successfully sent email to " else ": Failed to send email to ") + address));
    }

    /** A mode command. */
    method ModeCommand(command: string, name: string, on: Option<bool>, arg: string, replyTo: Participant)
      requires IsChatMode(name)
      modifies this`calls, this`mode
      ensures ChatFields() == ModeOutcome(old(ChatFields()), command, name, on, arg, replyTo)
    {
      if on.None? {
        var _ := Do(SendChatMessage(replyTo, "Sorry, the " + command + " command requires either on or off as a parameter"));
      } else {
        var value := Trim(Lower(arg));
        var changed := SetMode(name, on.value);
        if changed == Ok(true) {
          var _ := Do(SendChatMessage(replyTo, command + " mode has been changed to " + value));
        } else {
          var _ := Do(SendChatMessage(replyTo, command + " mode is already " + value));
        }
      }
    }

    /** `/waitmsg`. */
    method WaitMsgCommandRun(arg: string, replyTo: Participant)
      modifies this`calls, this`waitMsg
      ensures ChatFields() == WaitMsgOutcome(old(ChatFields()), arg, replyTo)
    {
      var o := WaitMsgCommand(waitMsg, arg);
      waitMsg := o.message;
      var _ := Do(SendChatMessage(replyTo, WaitReplyText(o.reply, arg)));
    }

    /** `/say` and `/speak`: the text to everyone and, when delivered, spoken. */
    method SayCommand(text: string)
      modifies this`calls
      ensures calls == old(calls) + ReplyCalls(everyone, text, true, |old(calls)|)
    {
      var ok := Do(SendChatMessage(everyone, text));
      if ok {
        var _ := Do(SpeakText(text));
      }
    }

    /** `/play`. */
    method PlayCommand(sound: string, replyTo: Participant)
      modifies this`calls
      ensures calls == old(calls) + PlayCalls(sound, replyTo, |old(calls)|)
    {
      var ok := Do(SendChatMessage(replyTo, "Playing: " + u.repr(sound)));
      if ok {
        var _ := Do(PlaySound(sound));
      }
    }

    /** A command about one participant. */
    method ParticipantCommand(cmd: string, target: string, newName: Option<string>, from: Participant, replyTo: Participant)
      modifies this`calls
      ensures calls == old(calls) + ActionCalls(TargetCommand(cmd, target, newName, from, lookup, u), replyTo, |old(calls)|)
    {
      match TargetCommand(cmd, target, newName, from, lookup, u)
      case Reply(text) =>
        var _ := Do(SendChatMessage(replyTo, text));
      case Notice(to, text) =>
        var _ := Do(SendChatMessage(to, text));
      case Act(call, success, failure) =>
        var ok := Do(call);
        var _ := Do(SendChatMessage(replyTo, if ok then success else failure));
    }

    /** `cfg.EmailCommands`, with a null table read as an empty one (the source tests it for null). */
    function EmailTable(): map<string, EmailArgs> {
      if settings.emails.None? then map[] else settings.emails.value
    }

    /** A broadcast command. */
    method BroadcastCommand(command: string, message: string, replyTo: Participant, now: int)
      modifies this`calls, this`broadcastSent
      ensures ChatFields() == BroadcastOutcome(old(ChatFields()), command, message, replyTo, now)
    {
      match BroadcastGuard(LastSent(broadcastSent, command), settings.guardSecs, now)
      case AlreadySent =>
        var _ := Do(SendChatMessage(replyTo, command + ": This broadcast message was already sent."));
      case SentRecently =>
        var _ := Do(SendChatMessage(replyTo, command + ": This broadcast message was already sent recently. Please try again later."));
      case SendNow =>
        var ok := Do(SendChatMessage(everyone, message));
        if ok {
          broadcastSent := broadcastSent[command := now];
        }
    }

    /** `/topic <arg>`. */
    method ChangeTopic(arg: string, replyTo: Participant, hour: Hour) returns (fault: Option<string>)
      modifies this`calls, this`topic
      ensures Outcome(ChatFields(), fault) == ChangeTopicOutcome(old(ChatFields()), arg, replyTo, hour)
    {
      match TopicCommand(topic, arg)
      case Fault(reason) =>
        return Some(reason);
      case Ok(o) =>
        ghost var s0 := ChatFields();
        topic := o.topic;
        var _ := Do(SendChatMessage(replyTo, o.reply));
        if o.broadcast {
          var _ := Do(SendChatMessage(everyone, GetTopic(topic, true, hour, u).value));
        } else {
          AppendEmpty(calls);
        }
        assert calls == s0.calls + [SendChatMessage(replyTo, o.reply)]
                        + (if o.broadcast then [SendChatMessage(everyone, GetTopic(o.topic, true, hour, u).value)] else []);
        assert ChatFields() == s0.(topic := o.topic, calls := calls);
        return None;
    }
  }
}
