/**
 * The pieces of the chat-command interpreter that both bot variants share
 * word for word: splitting the command line, the broadcast guard, the
 * `/topic` sub-commands, e-mail templating, the on/off argument of the mode
 * commands, `/waitmsg`, the argument of `/rename`, the responder chain that
 * feeds small talk to the chat bots, the ordering of the chat bots, the
 * classification of an administrator's command, and the lines of the remote
 * command file.
 */
module Commands {
  import opened Wrappers
  import opened Strings
  import opened Modes

  // ---------------------------------------------------------------------------
  // The command line
  // ---------------------------------------------------------------------------

  /** A command line split at its first blank: the verb, and the rest when it is not empty. */
  datatype CommandLine = CommandLine(command: string, target: Option<string>)

  /**
   * `a = text.Split(' ', 2)`, `sCommand = a[0].ToLower().Substring(1)` and
   * `sTarget` the second part unless it is missing or empty. Only reached
   * for a text that starts with a slash.
   */
  function SplitCommand(text: string): (r: CommandLine)
    requires StartsWith(text, "/")
    ensures ' ' !in r.command
    ensures |r.command| < |text|
    ensures forall i :: 0 <= i < |r.command| ==> r.command[i] == LowerChar(text[i + 1])
    ensures r.target.Some? ==> r.target.value != [] && text == text[..|r.command| + 1] + " " + r.target.value
    ensures r.target.None? ==> text == text[..|r.command| + 1] || text == text[..|r.command| + 1] + " "
  {
    var a := SplitFirst(text, ' ');
    assert text[0] == '/';
    assert a[0] != [] && a[0][0] == '/';
    var lowered := Lower(a[0]);
    var verb := lowered[1..];
    assert forall i :: 0 <= i < |verb| ==> verb[i] == LowerChar(a[0][i + 1]) && a[0][i + 1] != ' ';
    assert text[..|a[0]|] == a[0];
    CommandLine(verb, if |a| == 1 || a[1] == [] then None else Some(a[1]))
  }

  // ---------------------------------------------------------------------------
  // The broadcast guard
  // ---------------------------------------------------------------------------

  /** How a broadcast command is answered. */
  datatype GuardVerdict = SendNow | AlreadySent | SentRecently

  /**
   * `BroadcastCommandGuardTimeSecs` against the time the command was last
   * sent: a negative guard forbids any repeat, a positive one forbids a
   * repeat within that many seconds, zero allows every repeat.
   */
  function BroadcastGuard(sent: Option<int>, guard: int, now: int): (v: GuardVerdict)
    ensures sent.None? ==> v == SendNow
    ensures guard == 0 ==> v == SendNow
    ensures v == AlreadySent <==> sent.Some? && guard < 0
    ensures v == SentRecently <==> sent.Some? && guard > 0 && now <= sent.value + guard
    ensures v == SendNow <==> sent.None? || guard == 0 || (guard > 0 && now > sent.value + guard)
  {
    if sent.None? then SendNow
    else if guard < 0 then AlreadySent
    else if guard > 0 && now <= sent.value + guard then SentRecently
    else SendNow
  }

  function LastSent(sent: map<string, int>, command: string): Option<int> {
    if command in sent then Some(sent[command]) else None
  }

  /** One request for a broadcast command, and whether the chat message went out. */
  datatype Request = Request(command: string, now: int, delivered: bool)

  /** `BroadcastSentTime` after one request: the time is recorded only for a delivered broadcast, under its own command. */
  function Record(sent: map<string, int>, r: Request, guard: int): (m: map<string, int>)
    ensures m.Keys == sent.Keys || m.Keys == sent.Keys + {r.command}
    ensures forall k :: k in sent && k != r.command ==> m[k] == sent[k]
    ensures r.command in m <==> r.command in sent || (BroadcastGuard(None, guard, r.now) == SendNow && r.delivered)
    ensures m != sent ==> r.delivered && BroadcastGuard(LastSent(sent, r.command), guard, r.now) == SendNow && m[r.command] == r.now
  {
    if BroadcastGuard(LastSent(sent, r.command), guard, r.now) == SendNow && r.delivered then sent[r.command := r.now]
    else sent
  }

  /** `BroadcastSentTime` after a run of requests. */
  function Replay(sent: map<string, int>, reqs: seq<Request>, guard: int): map<string, int>
    decreases |reqs|
  {
    if reqs == [] then sent else Record(Replay(sent, reqs[..|reqs| - 1], guard), reqs[|reqs| - 1], guard)
  }

  /** The answer to the `j`-th request of a run. */
  function VerdictAt(sent: map<string, int>, reqs: seq<Request>, guard: int, j: nat): GuardVerdict
    requires j < |reqs|
  {
    BroadcastGuard(LastSent(Replay(sent, reqs[..j], guard), reqs[j].command), guard, reqs[j].now)
  }

  /** Once a command has a recorded time no earlier than `t`, it keeps one, while the clock stays at or after `t`. */
  lemma {:induction false} RecordedStays(sent: map<string, int>, reqs: seq<Request>, guard: int, i: nat, k: nat, c: string, t: int)
    requires i <= k <= |reqs|
    requires c in Replay(sent, reqs[..i], guard) && Replay(sent, reqs[..i], guard)[c] >= t
    requires forall j :: i <= j < k ==> reqs[j].now >= t
    ensures c in Replay(sent, reqs[..k], guard) && Replay(sent, reqs[..k], guard)[c] >= t
    decreases k - i
  {
    if i < k {
      assert reqs[..i + 1][..i] == reqs[..i];
      RecordedStays(sent, reqs, guard, i + 1, k, c, t);
    }
  }

  /** With a negative guard, a command that was delivered once is refused ever after. */
  lemma NegativeGuardSendsOnce(sent: map<string, int>, reqs: seq<Request>, guard: int, i: nat, j: nat)
    requires guard < 0 && i < j < |reqs| && reqs[i].command == reqs[j].command
    requires VerdictAt(sent, reqs, guard, i) == SendNow && reqs[i].delivered
    ensures VerdictAt(sent, reqs, guard, j) == AlreadySent
  {
    assert reqs[..i + 1][..i] == reqs[..i];
    KeyStays(sent, reqs, guard, i + 1, j, reqs[i].command);
  }

  /** Once a command has a recorded time, it keeps one. */
  lemma {:induction false} KeyStays(sent: map<string, int>, reqs: seq<Request>, guard: int, i: nat, k: nat, c: string)
    requires i <= k <= |reqs|
    requires c in Replay(sent, reqs[..i], guard)
    ensures c in Replay(sent, reqs[..k], guard)
    decreases k - i
  {
    if i < k {
      assert reqs[..i + 1][..i] == reqs[..i];
      KeyStays(sent, reqs, guard, i + 1, k, c);
    }
  }

  /**
   * With a positive guard and a clock that does not run backwards, two
   * delivered broadcasts of the same command are more than `guard` seconds
   * apart.
   */
  lemma PositiveGuardSpacesBroadcasts(sent: map<string, int>, reqs: seq<Request>, guard: int, i: nat, j: nat)
    requires guard > 0 && i < j < |reqs| && reqs[i].command == reqs[j].command
    requires forall a, b :: 0 <= a < b < |reqs| ==> reqs[a].now <= reqs[b].now
    requires VerdictAt(sent, reqs, guard, i) == SendNow && reqs[i].delivered
    requires VerdictAt(sent, reqs, guard, j) == SendNow
    ensures reqs[j].now > reqs[i].now + guard
  {
    var c := reqs[i].command;
    assert reqs[..i + 1][..i] == reqs[..i];
    RecordedStays(sent, reqs, guard, i + 1, j, c, reqs[i].now);
  }

  // ---------------------------------------------------------------------------
  // The topic
  // ---------------------------------------------------------------------------

  /** The sub-command of `/topic <arg>`: the first word of the argument, lower-cased, without leading slashes. */
  function TopicVerb(arg: string): string {
    TrimStartChar(Lower(SplitFirst(arg, ' ')[0]), '/')
  }

  predicate IsClearVerb(verb: string) { verb == "clear" || verb == "off" }

  /** A verb that is neither `force` nor a clear verb asks to set the topic. */
  predicate IsSetVerb(verb: string) { verb != "force" && !IsClearVerb(verb) }

  /** `string.Compare(Topic, arg, true) == 0`: a null topic equals no text. */
  predicate SameTopic(topic: Option<string>, arg: string) {
    topic.Some? && Lower(topic.value) == Lower(arg)
  }

  /** The topic after a `/topic` command, the reply to the sender, and whether the topic is then sent to everyone. */
  datatype TopicOutcome = TopicOutcome(topic: Option<string>, reply: string, broadcast: bool)

  /**
   * `/topic <arg>` from an administrator: `force <text>` always replaces the
   * topic (and throws when no text follows), `clear` and `off` remove it,
   * anything else sets it, but only when no topic is set. A text equal to
   * the current topic up to case gets an "already set" reply.
   */
  function TopicCommand(topic: Option<string>, arg: string): (r: Result<TopicOutcome>)
    ensures r.Fault? <==> TopicVerb(arg) == "force" && ' ' !in arg
    ensures r.Ok? && TopicVerb(arg) == "force" ==>
      r.value.topic == Some(SplitFirst(arg, ' ')[1]) && r.value.broadcast
      && r.value.reply == "Topic forced to: " + SplitFirst(arg, ' ')[1]
    ensures r.Ok? && IsClearVerb(TopicVerb(arg)) ==>
      r.value.topic.None? && !r.value.broadcast
      && r.value.reply == (if topic.None? then "The topic has not been set; There is nothing to clear" else "Topic cleared")
    ensures r.Ok? && IsSetVerb(TopicVerb(arg)) ==>
      (r.value.topic != topic <==> topic.None?)
      && (r.value.broadcast <==> topic.None?)
      && (topic.None? ==> r.value.topic == Some(arg))
    ensures r.Ok? && IsSetVerb(TopicVerb(arg)) && SameTopic(topic, arg) ==>
      r.value.reply == "The topic is already set to: " + arg
    ensures r.Ok? && IsSetVerb(TopicVerb(arg)) && topic.None? ==> r.value.reply == "Topic set to: " + arg
    ensures r.Ok? && IsSetVerb(TopicVerb(arg)) && topic.Some? && !SameTopic(topic, arg) ==>
      r.value.reply == "Topic is already set; Use /topic force to change it"
    ensures r.Ok? && r.value.broadcast ==> r.value.topic.Some?
  {
    var b := SplitFirst(arg, ' ');
    var verb := TopicVerb(arg);
    if verb == "force" then
      if |b| == 1 then Fault("IndexOutOfRangeException")
      else Ok(TopicOutcome(Some(b[1]), "Topic forced to: " + b[1], true))
    else if IsClearVerb(verb) then
      if topic.None? then Ok(TopicOutcome(None, "The topic has not been set; There is nothing to clear", false))
      else Ok(TopicOutcome(None, "Topic cleared", false))
    else if SameTopic(topic, arg) then
      Ok(TopicOutcome(topic, "The topic is already set to: " + arg, false))
    else if topic.None? then
      Ok(TopicOutcome(Some(arg), "Topic set to: " + arg, true))
    else
      Ok(TopicOutcome(topic, "Topic is already set; Use /topic force to change it", false))
  }

  /** Once a topic is set, no later plain set changes it or broadcasts it: only `force` or a clear can. */
  lemma SetTopicSticks(topic: Option<string>, first: string, second: string)
    requires IsSetVerb(TopicVerb(first)) && IsSetVerb(TopicVerb(second))
    requires TopicCommand(topic, first).Ok?
    ensures var t := TopicCommand(topic, first).value.topic;
      t.Some? ==> TopicCommand(t, second).Ok? && TopicCommand(t, second).value.topic == t
                  && !TopicCommand(t, second).value.broadcast
  {
    var t := TopicCommand(topic, first).value.topic;
    if t.Some? {
      assert TopicVerb(second) != "force";
    }
  }

  /** Setting the same text twice: the second request gets the "already set" reply. */
  lemma SetTopicTwiceIsAlreadySet(arg: string)
    requires IsSetVerb(TopicVerb(arg))
    ensures TopicCommand(None, arg) == Ok(TopicOutcome(Some(arg), "Topic set to: " + arg, true))
    ensures TopicCommand(Some(arg), arg) == Ok(TopicOutcome(Some(arg), "The topic is already set to: " + arg, false))
  {
    assert SameTopic(Some(arg), arg);
  }

  // ---------------------------------------------------------------------------
  // E-mail commands
  // ---------------------------------------------------------------------------

  /** One entry of `EmailCommands`. */
  datatype EmailArgs = EmailArgs(subject: string, body: string, argsExample: string)

  /** What an e-mail command does: reply with the usage example, or send this mail. */
  datatype EmailPlan = EmailUsage | Mail(to: string, subject: string, body: string)

  predicate HasPlaceholder(e: EmailArgs) { Contains(e.subject, "{0}") || Contains(e.body, "{0}") }

  /**
   * `args = sTarget.Trim().Split(' ', 2)`; the address is the first part; a
   * template mentioning `{0}` needs the second part, trimmed, to fill it in.
   */
  function PlanEmail(target: string, e: EmailArgs): (r: EmailPlan)
    ensures r.EmailUsage? <==> HasPlaceholder(e) && ' ' !in Trim(target)
    ensures r.Mail? ==> r.to == SplitFirst(Trim(target), ' ')[0] && ' ' !in r.to
    ensures r.Mail? && !HasPlaceholder(e) ==> r.subject == e.subject && r.body == e.body
    ensures r.Mail? && HasPlaceholder(e) ==>
      var arg := Trim(SplitFirst(Trim(target), ' ')[1]);
      r.subject == ReplaceAll(e.subject, "{0}", arg) && r.body == ReplaceAll(e.body, "{0}", arg)
  {
    var args := SplitFirst(Trim(target), ' ');
    if HasPlaceholder(e) then
      if |args| <= 1 then EmailUsage
      else
        var arg := Trim(args[1]);
        Mail(args[0], ReplaceAll(e.subject, "{0}", arg), ReplaceAll(e.body, "{0}", arg))
    else Mail(args[0], e.subject, e.body)
  }

  // ---------------------------------------------------------------------------
  // Mode commands and the waiting-room message
  // ---------------------------------------------------------------------------

  /** `sTarget.ToLower().Trim()` must be "on" or "off". */
  function ParseOnOff(target: string): (r: Option<bool>)
    ensures r == Some(true) <==> Trim(Lower(target)) == "on"
    ensures r == Some(false) <==> Trim(Lower(target)) == "off"
  {
    var v := Trim(Lower(target));
    if v == "on" then Some(true) else if v == "off" then Some(false) else None
  }

  /** The argument of a mode command does not depend on case. */
  lemma ParseOnOffIgnoresCase(target: string)
    ensures ParseOnOff(Upper(target)) == ParseOnOff(target)
    ensures ParseOnOff(Lower(target)) == ParseOnOff(target)
  {
    LowerUpper(target);
  }

  /** Which of the four `/waitmsg` replies is sent. */
  datatype WaitReply = TurnedOff | AlreadyOff | AlreadySetTo | NowSetTo

  /** The waiting-room message after `/waitmsg`, and the reply. */
  datatype WaitOutcome = WaitOutcome(message: Option<string>, reply: WaitReply)

  predicate IsOffText(w: string) { w == [] || Lower(w) == "off" }

  /**
   * `/waitmsg <text>`: an empty text or "off" removes the message, any other
   * text becomes the message, trimmed.
   */
  function WaitMsgCommand(current: Option<string>, target: string): (r: WaitOutcome)
    ensures IsOffText(Trim(target)) ==> r.message.None? || r.message == current
    ensures IsOffText(Trim(target)) ==> (r.reply == TurnedOff <==> current.Some? && current.value != [])
    ensures !IsOffText(Trim(target)) ==> r.message == Some(Trim(target))
    ensures r.message == current <==> r.reply == AlreadyOff || r.reply == AlreadySetTo
  {
    var w := Trim(target);
    if IsOffText(w) then
      if current.Some? && current.value != [] then WaitOutcome(None, TurnedOff)
      else WaitOutcome(current, AlreadyOff)
    else if current == Some(w) then WaitOutcome(current, AlreadySetTo)
    else WaitOutcome(Some(w), NowSetTo)
  }

  /** Repeating a `/waitmsg` command changes nothing and gets an "already" reply. */
  lemma WaitMsgIdempotent(current: Option<string>, target: string)
    ensures var once := WaitMsgCommand(current, target);
      var twice := WaitMsgCommand(once.message, target);
      twice.message == once.message && (twice.reply == AlreadyOff || twice.reply == AlreadySetTo)
  {
  }

  // ---------------------------------------------------------------------------
  // Renaming
  // ---------------------------------------------------------------------------

  const RenameSeparator := " to "

  /** `sTarget.Split(" to ", RemoveEmptyEntries)` must give exactly two names: the old one and the new one. */
  function ParseRename(target: string): (r: Option<(string, string)>)
    ensures r.Some? <==> |NonEmpty(SplitSep(target, RenameSeparator))| == 2
    ensures r.Some? ==> r.value.0 != [] && r.value.1 != []
    ensures r.Some? ==> Contains(target, RenameSeparator)
    ensures r.Some? ==> var parts := NonEmpty(SplitSep(target, RenameSeparator)); r.value == (parts[0], parts[1])
  {
    var parts := NonEmpty(SplitSep(target, RenameSeparator));
    if |parts| == 2 then
      SplitSepSplits(target, RenameSeparator);
      Some((parts[0], parts[1]))
    else None
  }

  /** A text without the separator is one piece. */
  lemma SplitSepSplits(s: string, sep: string)
    requires |sep| > 0
    ensures !Contains(s, sep) ==> SplitSep(s, sep) == [s]
  {
  }

  /** A text that cannot end a partial separator. */
  predicate EndsClear(a: string) {
    !EndsWith(a, " ") && !EndsWith(a, " t") && !EndsWith(a, " to")
  }

  /**
   * `Old to New` names the intended pair when neither name contains the
   * separator and the old name does not end in a part of it.
   */
  lemma RenameRoundTrip(oldName: string, newName: string)
    requires oldName != [] && newName != []
    requires !Contains(oldName, RenameSeparator) && !Contains(newName, RenameSeparator) && EndsClear(oldName)
    ensures ParseRename(oldName + RenameSeparator + newName) == Some((oldName, newName))
  {
    var s := oldName + RenameSeparator + newName;
    var n := |oldName|;
    SeparatorAfterOldName(oldName, newName);
    assert s[..n] == oldName;
    assert s[n + 4..] == newName;
    SplitSepSplits(newName, RenameSeparator);
    assert SplitSep(s, RenameSeparator) == [oldName, newName];
    NonEmptyPair(oldName, newName);
  }

  /** The first separator of `Old to New` is the one after the old name. */
  lemma SeparatorAfterOldName(oldName: string, newName: string)
    requires !Contains(oldName, RenameSeparator) && EndsClear(oldName)
    ensures FindFrom(oldName + RenameSeparator + newName, RenameSeparator, 0) == Some(|oldName|)
  {
    var s := oldName + RenameSeparator + newName;
    var n := |oldName|;
    assert s[..n] == oldName;
    assert s[n..n + 4] == RenameSeparator;
    forall j | 0 <= j < n
      ensures !OccursAt(s, RenameSeparator, j)
    {
      if j + 4 <= n {
        InsideMisses(oldName, s, j);
      } else {
        StraddleMisses(oldName, s, j);
      }
    }
    FirstOccurrence(s, RenameSeparator, 0, n);
  }

  /** Removing empty entries keeps two non-empty names. */
  lemma NonEmptyPair(a: string, b: string)
    requires a != [] && b != []
    ensures NonEmpty([a, b]) == [a, b]
  {
    assert [a, b][1..] == [b];
    assert NonEmpty([b]) == [b] + NonEmpty([]);
  }

  /** The separator does not start inside the old name when it would end inside it too. */
  lemma InsideMisses(oldName: string, s: string, j: nat)
    requires !Contains(oldName, RenameSeparator) && |oldName| <= |s| && s[..|oldName|] == oldName
    requires j + 4 <= |oldName|
    ensures !OccursAt(s, RenameSeparator, j)
  {
    assert s[j..j + 4] == oldName[j..j + 4];
    assert !OccursAt(oldName, RenameSeparator, j);
  }

  /** The separator does not start in the last three characters of an old name that ends clear of it. */
  lemma StraddleMisses(oldName: string, s: string, j: nat)
    requires EndsClear(oldName) && |oldName| <= |s| && s[..|oldName|] == oldName
    requires j < |oldName| < j + 4
    ensures !OccursAt(s, RenameSeparator, j)
  {
    var n := |oldName|;
    var c0 := oldName[j];
    assert s[j] == c0 by { assert s[..n][j] == s[j]; }
    if j + 1 == n {
      assert oldName[n - 1..] == [c0];
      assert c0 != ' ';
    } else {
      var c1 := oldName[j + 1];
      assert s[j + 1] == c1 by { assert s[..n][j + 1] == s[j + 1]; }
      if j + 2 == n {
        assert oldName[n - 2..] == [c0, c1];
        assert c0 != ' ' || c1 != 't';
      } else {
        var c2 := oldName[j + 2];
        assert s[j + 2] == c2 by { assert s[..n][j + 2] == s[j + 2]; }
        assert oldName[n - 3..] == [c0, c1, c2];
        assert c0 != ' ' || c1 != 't' || c2 != 'o';
      }
    }
    if j + 4 <= |s| {
      var w := s[j..j + 4];
      assert w[0] == s[j] && w[1] == s[j + 1] && w[2] == s[j + 2];
      assert w != RenameSeparator;
    }
  }

  /** The first occurrence found from `i` is `n` when `n` is one and none comes before it. */
  lemma {:induction false} FirstOccurrence(s: string, p: string, i: nat, n: nat)
    requires i <= n && OccursAt(s, p, n)
    requires forall j :: i <= j < n ==> !OccursAt(s, p, j)
    ensures FindFrom(s, p, i) == Some(n)
    decreases n - i
  {
    if i < n {
      assert !OccursAt(s, p, i);
      FirstOccurrence(s, p, i + 1, n);
    }
  }

  // ---------------------------------------------------------------------------
  // The responder chain
  // ---------------------------------------------------------------------------

  /** The first non-null reply of the responders, asked in order; an exception counts as null. */
  function FirstAnswer<B>(bots: seq<B>, ask: B -> Option<string>): (r: Option<string>)
    ensures r.Some? <==> exists i :: 0 <= i < |bots| && ask(bots[i]).Some?
    ensures r.Some? ==> exists i :: 0 <= i < |bots| && r == ask(bots[i]) && forall j :: 0 <= j < i ==> ask(bots[j]).None?
  {
    if bots == [] then None
    else if ask(bots[0]).Some? then ask(bots[0])
    else
      var r := FirstAnswer(bots[1..], ask);
      assert forall i :: 1 <= i < |bots| ==> bots[1..][i - 1] == bots[i];
      if r.Some? then
        var i :| 0 <= i < |bots[1..]| && r == ask(bots[1..][i]) && forall j :: 0 <= j < i ==> ask(bots[1..][j]).None?;
        assert forall j :: 1 <= j < i + 1 ==> bots[j] == bots[1..][j - 1];
        r
      else r
  }

  /**
   * The `foreach (var chatBot in chatBots)` loop that stops at the first
   * reply: `asked` is how many bots were asked; the ones after the answering
   * bot are not.
   */
  method RunChain<B>(bots: seq<B>, ask: B -> Option<string>) returns (response: Option<string>, asked: nat)
    ensures response == FirstAnswer(bots, ask)
    ensures asked <= |bots|
    ensures forall j :: 0 <= j < asked - 1 ==> ask(bots[j]).None?
    ensures response.Some? ==> asked >= 1 && response == ask(bots[asked - 1])
    ensures response.None? ==> asked == |bots|
  {
    response := None;
    asked := 0;
    while asked < |bots|
      invariant asked <= |bots|
      invariant forall j :: 0 <= j < asked ==> ask(bots[j]).None?
      invariant FirstAnswer(bots, ask) == FirstAnswer(bots[asked..], ask)
    {
      var reply := ask(bots[asked]);
      assert bots[asked..][0] == bots[asked] && bots[asked..][1..] == bots[asked + 1..];
      asked := asked + 1;
      if reply.Some? {
        response := reply;
        return;
      }
    }
  }

  // ---------------------------------------------------------------------------
  // Chat bot ordering
  // ---------------------------------------------------------------------------

  /** What `GetChatBots` keeps of a loaded plugin: its name and `IntelligenceLevel`. */
  datatype ChatBotInfo = ChatBotInfo(name: string, level: int)

  /** Each bot is at least as intelligent as the one after it. */
  predicate ByLevelDescending(bots: seq<ChatBotInfo>) {
    forall i :: 0 < i < |bots| ==> bots[i - 1].level >= bots[i].level
  }

  /** In a descending order every bot is at least as intelligent as every later one. */
  lemma {:induction false} DescendingOrdersAll(bots: seq<ChatBotInfo>, i: nat, j: nat)
    requires ByLevelDescending(bots) && i <= j < |bots|
    ensures bots[i].level >= bots[j].level
    decreases j - i
  {
    if i < j {
      DescendingOrdersAll(bots, i, j - 1);
    }
  }

  /** Inserts `b` after every bot of a higher level and before the rest, keeping ties in their order. */
  function InsertByLevel(b: ChatBotInfo, sorted: seq<ChatBotInfo>): (r: seq<ChatBotInfo>)
    requires ByLevelDescending(sorted)
    ensures ByLevelDescending(r)
    ensures |r| == |sorted| + 1 && (r[0] == b || (sorted != [] && r[0] == sorted[0]))
  {
    if sorted == [] then [b]
    else if sorted[0].level > b.level then
      var rest := InsertByLevel(b, sorted[1..]);
      DescendingTail(sorted);
      ConsKeepsDescending(sorted[0], rest);
      [sorted[0]] + rest
    else
      ConsKeepsDescending(b, sorted);
      [b] + sorted
  }

  /** Inserting adds the one bot and loses none. */
  lemma {:induction false} InsertByLevelCounts(b: ChatBotInfo, sorted: seq<ChatBotInfo>)
    requires ByLevelDescending(sorted)
    ensures multiset(InsertByLevel(b, sorted)) == multiset(sorted) + multiset{b}
    decreases |sorted|
  {
    if sorted != [] && sorted[0].level > b.level {
      DescendingTail(sorted);
      InsertByLevelCounts(b, sorted[1..]);
      assert sorted == [sorted[0]] + sorted[1..];
      assert InsertByLevel(b, sorted) == [sorted[0]] + InsertByLevel(b, sorted[1..]);
    }
  }

  lemma DescendingTail(s: seq<ChatBotInfo>)
    requires s != [] && ByLevelDescending(s)
    ensures ByLevelDescending(s[1..]) && (|s| > 1 ==> s[0].level >= s[1].level)
  {
    forall i | 0 < i < |s[1..]| ensures s[1..][i - 1].level >= s[1..][i].level {
      assert s[1..][i - 1] == s[i] && s[1..][i] == s[i + 1];
    }
  }

  lemma ConsKeepsDescending(x: ChatBotInfo, s: seq<ChatBotInfo>)
    requires ByLevelDescending(s) && (s == [] || x.level >= s[0].level)
    ensures ByLevelDescending([x] + s)
  {
    var r := [x] + s;
    forall i | 0 < i < |r| ensures r[i - 1].level >= r[i].level {
      assert r[i] == s[i - 1];
      if i > 1 {
        assert r[i - 1] == s[i - 2];
      }
    }
  }

  /** `OrderByDescending(bot => bot.IntelligenceLevel)`: the same bots, most intelligent first. */
  function SortByLevel(bots: seq<ChatBotInfo>): (r: seq<ChatBotInfo>)
    ensures ByLevelDescending(r)
    ensures multiset(r) == multiset(bots)
  {
    if bots == [] then []
    else
      assert bots == [bots[0]] + bots[1..];
      InsertByLevelCounts(bots[0], SortByLevel(bots[1..]));
      InsertByLevel(bots[0], SortByLevel(bots[1..]))
  }

  /**
   * `GetChatBots`: null when no plugin could be loaded, otherwise the loaded
   * bots ordered by intelligence level, highest first.
   */
  function ChatBotsFrom(loaded: Option<seq<ChatBotInfo>>): (r: Option<seq<ChatBotInfo>>)
    ensures r.None? <==> loaded.None? || loaded.value == []
    ensures r.Some? ==> ByLevelDescending(r.value) && multiset(r.value) == multiset(loaded.value)
  {
    if loaded.None? || loaded.value == [] then None else Some(SortByLevel(loaded.value))
  }

  // ---------------------------------------------------------------------------
  // Keyword replies in small talk
  // ---------------------------------------------------------------------------

  /**
   * The `foreach` over `BroadcastCommands` in small talk, enumerated in
   * `order`: every key whose pattern matches overwrites the reply, so the
   * last matching key wins.
   */
  function KeywordReply(order: seq<string>, table: map<string, string>, hit: string -> bool): Option<string>
    decreases |order|
  {
    if order == [] then None
    else
      var last := order[|order| - 1];
      if last in table && hit(last) then Some(table[last]) else KeywordReply(order[..|order| - 1], table, hit)
  }

  /** A keyword reply exists exactly when some key matches, and it is the value of the last matching key. */
  lemma {:induction false} KeywordReplyIsLastMatch(order: seq<string>, table: map<string, string>, hit: string -> bool)
    ensures KeywordReply(order, table, hit).Some? <==> exists i :: 0 <= i < |order| && order[i] in table && hit(order[i])
    ensures KeywordReply(order, table, hit).Some? ==>
      exists i :: 0 <= i < |order| && order[i] in table && hit(order[i]) && KeywordReply(order, table, hit).value == table[order[i]]
                  && forall j :: i < j < |order| ==> !(order[j] in table && hit(order[j]))
    decreases |order|
  {
    if order != [] {
      var n := |order| - 1;
      if order[n] in table && hit(order[n]) {
        assert KeywordReply(order, table, hit) == Some(table[order[n]]);
      } else {
        var prefix := order[..n];
        KeywordReplyIsLastMatch(prefix, table, hit);
        assert forall i :: 0 <= i < n ==> prefix[i] == order[i];
        assert KeywordReply(order, table, hit) == KeywordReply(prefix, table, hit);
      }
    }
  }

  /** `order` is the enumeration order of `table`'s dictionary: each key exactly once, and nothing else. */
  predicate EnumeratesKeys(order: seq<string>, table: map<string, string>) {
    multiset(order) == multiset(table.Keys)
  }

  /**
   * Over the dictionary's own enumeration order the search visits every key:
   * there is a reply exactly when some key of the table matches, and it is
   * the value of the last matching key in that order.
   */
  lemma KeywordReplyOverTable(order: seq<string>, table: map<string, string>, hit: string -> bool)
    requires EnumeratesKeys(order, table)
    ensures KeywordReply(order, table, hit).Some? <==> exists k :: k in table && hit(k)
    ensures KeywordReply(order, table, hit).Some? ==>
      exists i :: 0 <= i < |order| && order[i] in table && hit(order[i]) && KeywordReply(order, table, hit).value == table[order[i]]
                  && forall j :: i < j < |order| ==> !hit(order[j])
  {
    KeywordReplyIsLastMatch(order, table, hit);
    if exists k :: k in table && hit(k) {
      var k :| k in table && hit(k);
      assert k in multiset(table.Keys);
      assert k in order;
      var i :| 0 <= i < |order| && order[i] == k;
      assert order[i] in table && hit(order[i]);
    }
    if KeywordReply(order, table, hit).Some? {
      var i :| 0 <= i < |order| && order[i] in table && hit(order[i]) && KeywordReply(order, table, hit).value == table[order[i]]
               && forall j :: i < j < |order| ==> !(order[j] in table && hit(order[j]));
      forall j | i < j < |order|
        ensures !hit(order[j])
      {
        assert order[j] in multiset(order);
        assert order[j] in table.Keys;
      }
    }
  }

  /** `List.FindIndex(pick)`: the first index whose element is picked. */
  function FindIndex<T>(xs: seq<T>, pick: T -> bool): (r: Option<nat>)
    ensures r.Some? ==> r.value < |xs| && pick(xs[r.value]) && forall j :: 0 <= j < r.value ==> !pick(xs[j])
    ensures r.None? ==> forall j :: 0 <= j < |xs| ==> !pick(xs[j])
    decreases |xs|
  {
    if xs == [] then None
    else if pick(xs[0]) then Some(0)
    else
      var r := FindIndex(xs[1..], pick);
      assert forall j :: 1 <= j < |xs| ==> xs[j] == xs[1..][j - 1];
      if r.Some? then Some(r.value + 1) else None
  }

  // ---------------------------------------------------------------------------
  // Classifying an administrator's command
  // ---------------------------------------------------------------------------

  /** The three modes that can be switched from the chat. */
  predicate IsChatMode(command: string) {
    command == "citadel" || command == "lockdown" || command == "passive"
  }

  /** Which branch of the interpreter a command line from an administrator reaches. */
  datatype CommandPlan =
    | BroadcastPlan(message: string)
    | TopicQuery
    | TopicChange(arg: string)
    | MissingArgument
    | EmailPlanned(args: EmailArgs, target: string)
    | ModeChange(name: string, on: Option<bool>, arg: string)
    | WaitMsgChange(arg: string)
    | RenameUsage
    | SpeakerOff
    | SayPlan(text: string)
    | PlayPlan(name: string)
    | TargetPlan(command: string, target: string, newName: Option<string>)

  /** The branches that change nothing but what is said and done in the meeting. */
  predicate ChangesOnlyCalls(plan: CommandPlan) {
    plan.EmailPlanned? || plan.RenameUsage? || plan.SpeakerOff? || plan.SayPlan? || plan.PlayPlan? || plan.TargetPlan?
  }

  /** A command past the broadcast table and `/topic` that carries an argument. */
  predicate HasArgument(line: CommandLine, broadcasts: map<string, string>) {
    line.command !in broadcasts && line.command != "topic" && line.target.Some?
  }

  /**
   * The `if` chain of the interpreter in its order: a broadcast command,
   * `/topic`, then (only with an argument) an e-mail command, a mode command,
   * `/waitmsg`, the `rename` argument, `/speaker off`, `/speak` and `/say`,
   * `/play`, and last the commands about one participant.
   */
  function ClassifyCommand(line: CommandLine, broadcasts: map<string, string>, emails: map<string, EmailArgs>): (r: CommandPlan)
    ensures line.command in broadcasts <==> r.BroadcastPlan?
    ensures r.BroadcastPlan? ==> r.message == broadcasts[line.command]
    ensures r.TopicQuery? || r.TopicChange? ==> line.command == "topic"
    ensures r == MissingArgument <==> line.command !in broadcasts && line.command != "topic" && line.target.None?
    ensures line.command !in broadcasts && line.command !in emails && IsChatMode(line.command) && line.target.Some? ==>
      r == ModeChange(line.command, ParseOnOff(line.target.value), line.target.value)
    ensures r.ModeChange? ==> IsChatMode(r.name)
    ensures r == RenameUsage <==>
      line.command !in broadcasts && line.command !in emails && line.command == "rename"
      && line.target.Some? && ParseRename(line.target.value).None?
    ensures r.TargetPlan? ==> line.target.Some? && (r.newName.Some? <==> r.command == "rename")
    ensures r.TargetPlan? && r.newName.None? ==> r.target == line.target.value
    ensures r.TopicChange? <==> line.command !in broadcasts && line.command == "topic" && line.target.Some?
    ensures r.TopicChange? ==> r.arg == line.target.value
    ensures r.EmailPlanned? <==> HasArgument(line, broadcasts) && line.command in emails
    ensures r.EmailPlanned? ==> r == EmailPlanned(emails[line.command], line.target.value)
    ensures r.WaitMsgChange? <==> HasArgument(line, broadcasts) && line.command !in emails && line.command == "waitmsg"
    ensures r.WaitMsgChange? ==> r.arg == line.target.value
    ensures r == SpeakerOff <==>
      HasArgument(line, broadcasts) && line.command !in emails && line.command == "speaker" && line.target.value == "off"
    ensures r.SayPlan? <==> HasArgument(line, broadcasts) && line.command !in emails && (line.command == "speak" || line.command == "say")
    ensures r.SayPlan? ==> r.text == line.target.value
    ensures r.PlayPlan? <==> HasArgument(line, broadcasts) && line.command !in emails && line.command == "play"
    ensures r.PlayPlan? ==> r.name == line.target.value
    ensures r.TargetPlan? && r.newName.Some? ==>
      line.command == "rename" && ParseRename(line.target.value) == Some((r.target, r.newName.value))
    ensures r.TargetPlan? ==> r.command == line.command && HasArgument(line, broadcasts) && line.command !in emails
  {
    var command := line.command;
    if command in broadcasts then BroadcastPlan(broadcasts[command])
    else if command == "topic" then
      if line.target.None? then TopicQuery else TopicChange(line.target.value)
    else if line.target.None? then MissingArgument
    else
      var target := line.target.value;
      if command in emails then EmailPlanned(emails[command], target)
      else if IsChatMode(command) then ModeChange(command, ParseOnOff(target), target)
      else if command == "waitmsg" then WaitMsgChange(target)
      else if command == "rename" then
        match ParseRename(target)
        case None => RenameUsage
        case Some(names) => TargetPlan(command, names.0, Some(names.1))
      else if command == "speaker" && target == "off" then SpeakerOff
      else if command == "speak" || command == "say" then SayPlan(target)
      else if command == "play" then PlayPlan(target)
      else TargetPlan(command, target, None)
  }

  // ---------------------------------------------------------------------------
  // The remote command file
  // ---------------------------------------------------------------------------

  /** What one line of `command_file.txt` asks for. */
  datatype RemoteAction = SwitchMode(name: string, on: bool) | Leave(endForAll: bool, exit: bool) | UnknownCommand(line: string)

  /**
   * The `else if` chain that follows the citadel test, on a trimmed line: a
   * mode switch, leaving, or an unknown command.
   */
  function ChainAction(line: string): (r: RemoteAction)
    ensures r.SwitchMode? ==> IsModeName(r.name) && r.on == (line == r.name + ":on")
    ensures r.UnknownCommand? ==> r == UnknownCommand(line)
  {
    if line == "lockdown:on" || line == "lockdown:off" then SwitchMode("lockdown", line == "lockdown:on")
    else if line == "debug:on" || line == "debug:off" then SwitchMode("debug", line == "debug:on")
    else if line == "pause:on" || line == "pause:off" then SwitchMode("pause", line == "pause:on")
    else if line == "passive:on" || line == "passive:off" then SwitchMode("passive", line == "passive:on")
    else if line == "exit" then Leave(false, true)
    else if line == "kill" then Leave(true, false)
    else UnknownCommand(line)
  }

  /**
   * One line, trimmed; blank lines are skipped. The citadel test stands on
   * its own and the lockdown test starts a new `if` chain, so a citadel line
   * also ends in the final `else` and is reported as unknown.
   */
  function RemoteActions(raw: string): (r: seq<RemoteAction>)
    ensures Trim(raw) == [] <==> r == []
    ensures |r| <= 2
    ensures Trim(raw) == "citadel:on" || Trim(raw) == "citadel:off" ==>
      r == [SwitchMode("citadel", Trim(raw) == "citadel:on"), UnknownCommand(Trim(raw))]
    ensures Trim(raw) == "exit" ==> r == [Leave(false, true)]
    ensures Trim(raw) == "kill" ==> r == [Leave(true, false)]
    ensures forall i :: 0 <= i < |r| && r[i].SwitchMode? ==> IsModeName(r[i].name)
  {
    var line := Trim(raw);
    if line == [] then []
    else
      var citadel := if line == "citadel:on" || line == "citadel:off" then [SwitchMode("citadel", line == "citadel:on")] else [];
      citadel + [ChainAction(line)]
  }

  /** The actions of a whole file, line after line. */
  function RemoteScript(lines: seq<string>): seq<RemoteAction>
    decreases |lines|
  {
    if lines == [] then [] else RemoteScript(lines[..|lines| - 1]) + RemoteActions(lines[|lines| - 1])
  }

  /** The script of the command file; a missing file is an empty one. */
  function ScriptOf(file: Option<seq<string>>): seq<RemoteAction> {
    if file.Some? then RemoteScript(file.value) else []
  }

  /** The mode state after one action: a switch of a known mode; `SetMode` cannot fail on these names. */
  function ModeStep(st: ModeState, a: RemoteAction): ModeState {
    if a.SwitchMode? && IsModeName(a.name) then SetMode(st, a.name, a.on).value.next else st
  }

  /** The mode state after the mode switches of a script. */
  function ModesAfter(st: ModeState, script: seq<RemoteAction>): ModeState
    decreases |script|
  {
    if script == [] then st else ModeStep(ModesAfter(st, script[..|script| - 1]), script[|script| - 1])
  }

  /** The `LeaveMeeting(endForAll)` arguments of a script, in order. */
  function LeavesOf(script: seq<RemoteAction>): (r: seq<bool>)
    ensures |r| <= |script|
    decreases |script|
  {
    if script == [] then []
    else
      var a := script[|script| - 1];
      LeavesOf(script[..|script| - 1]) + (if a.Leave? then [a.endForAll] else [])
  }

  /** Whether a script contains `exit`. */
  predicate ExitsIn(script: seq<RemoteAction>) {
    exists i :: 0 <= i < |script| && script[i].Leave? && script[i].exit
  }

  /** Running two scripts one after the other is running their concatenation. */
  lemma ScriptAppend(st: ModeState, s: seq<RemoteAction>, t: seq<RemoteAction>)
    ensures ModesAfter(st, s + t) == ModesAfter(ModesAfter(st, s), t)
    ensures LeavesOf(s + t) == LeavesOf(s) + LeavesOf(t)
    ensures ExitsIn(s + t) == (ExitsIn(s) || ExitsIn(t))
  {
    ModesAfterAppend(st, s, t);
    LeavesOfAppend(s, t);
    ExitsInAppend(s, t);
  }

  lemma {:induction false} ModesAfterAppend(st: ModeState, s: seq<RemoteAction>, t: seq<RemoteAction>)
    ensures ModesAfter(st, s + t) == ModesAfter(ModesAfter(st, s), t)
    decreases |t|
  {
    if t == [] {
      assert s + t == s;
    } else {
      var t0 := t[..|t| - 1];
      var st1 := s + t;
      assert st1[..|st1| - 1] == s + t0;
      assert st1[|st1| - 1] == t[|t| - 1];
      ModesAfterAppend(st, s, t0);
      calc {
        ModesAfter(st, st1);
        ModeStep(ModesAfter(st, s + t0), t[|t| - 1]);
        ModeStep(ModesAfter(ModesAfter(st, s), t0), t[|t| - 1]);
        ModesAfter(ModesAfter(st, s), t);
      }
    }
  }

  lemma {:induction false} LeavesOfAppend(s: seq<RemoteAction>, t: seq<RemoteAction>)
    ensures LeavesOf(s + t) == LeavesOf(s) + LeavesOf(t)
    decreases |t|
  {
    if t == [] {
      assert s + t == s;
    } else {
      var t0 := t[..|t| - 1];
      var a := t[|t| - 1];
      var st1 := s + t;
      assert st1[..|st1| - 1] == s + t0;
      assert st1[|st1| - 1] == a;
      LeavesOfAppend(s, t0);
      var last := if a.Leave? then [a.endForAll] else [];
      calc {
        LeavesOf(st1);
        LeavesOf(s + t0) + last;
        (LeavesOf(s) + LeavesOf(t0)) + last;
        LeavesOf(s) + (LeavesOf(t0) + last);
        LeavesOf(s) + LeavesOf(t);
      }
    }
  }

  lemma ExitsInAppend(s: seq<RemoteAction>, t: seq<RemoteAction>)
    ensures ExitsIn(s + t) == (ExitsIn(s) || ExitsIn(t))
  {
    var st1 := s + t;
    if ExitsIn(st1) {
      var i :| 0 <= i < |st1| && st1[i].Leave? && st1[i].exit;
      if i < |s| {
        assert s[i] == st1[i];
      } else {
        assert t[i - |s|] == st1[i];
      }
    }
    if ExitsIn(s) {
      var i :| 0 <= i < |s| && s[i].Leave? && s[i].exit;
      assert st1[i] == s[i];
    }
    if ExitsIn(t) {
      var i :| 0 <= i < |t| && t[i].Leave? && t[i].exit;
      assert st1[|s| + i] == t[i];
    }
  }
}
