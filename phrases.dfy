/**
 * The text helpers shared by both UsherBot variants: time-of-day words,
 * the topic line, a participant's first name, chat-response formatting and
 * the keyword tables (one-time greetings, small talk) looked up word by word.
 */
module Phrases {
  import opened Wrappers
  import opened Strings
  import opened Platform

  /** An hour of the local clock. */
  type Hour = h: int | 0 <= h < 24

  /** `GetDayTime` */
  function GetDayTime(hour: Hour): (r: string)
    ensures r == "morning" <==> hour < 12
    ensures r == "afternoon" <==> 12 <= hour < 17
    ensures r == "evening" <==> 17 <= hour
  {
    if 12 <= hour < 17 then "afternoon"
    else if hour < 12 then "morning"
    else "evening"
  }

  /** `GetTodayTonight`: "tonight" exactly in the evening hours. */
  function GetTodayTonight(hour: Hour): (r: string)
    ensures r == "tonight" <==> GetDayTime(hour) == "evening"
    ensures r == "today" || r == "tonight"
  {
    if hour < 17 then "today" else "tonight"
  }

  const DefaultTopic := "The topic has not been set"

  /** `string.IsNullOrEmpty(Topic)` */
  predicate TopicUnset(topic: Option<string>) {
    topic.None? || topic.value == []
  }

  /** `GetTopic(useDefault)`: the topic line, the default text, or null. */
  function GetTopic(topic: Option<string>, useDefault: bool, hour: Hour, u: Utils): (r: Option<string>)
    ensures r.None? <==> TopicUnset(topic) && !useDefault
    ensures TopicUnset(topic) && useDefault ==> r == Some(DefaultTopic)
    ensures !TopicUnset(topic) ==> r == Some(u.upperFirst(GetTodayTonight(hour)) + "'s topic: " + topic.value)
  {
    if TopicUnset(topic) then
      (if useDefault then Some(DefaultTopic) else None)
    else
      Some(u.upperFirst(GetTodayTonight(hour)) + "'s topic: " + topic.value)
  }

  /** A set topic line starts with the day word and ends with the topic text itself. */
  lemma TopicLineShape(topic: Option<string>, useDefault: bool, hour: Hour, u: Utils)
    requires !TopicUnset(topic)
    ensures var line := GetTopic(topic, useDefault, hour, u).value;
      StartsWith(line, u.upperFirst(GetTodayTonight(hour)) + "'s topic: ") && EndsWith(line, topic.value)
  {
    var prefix := u.upperFirst(GetTodayTonight(hour)) + "'s topic: ";
    var line := prefix + topic.value;
    assert line[..|prefix|] == prefix && line[|line| - |topic.value|..] == topic.value;
  }

  /** `RemoveIPhoneStuff`: the regex clean-up, unless it would leave nothing. */
  function RemoveIPhoneStuff(name: string, u: Utils): (r: string)
    ensures (r == []) == (name == [])
    ensures r == name || r == u.iPhoneRegexes(name)
    ensures name != [] && u.iPhoneRegexes(name) != [] ==> r == u.iPhoneRegexes(name)
    ensures name == [] || u.iPhoneRegexes(name) == [] ==> r == name
  {
    if name == [] then name
    else
      var ret := u.iPhoneRegexes(name);
      if ret == [] then name else ret
  }

  /** `name.Split(' ')[0]` */
  function FirstWord(s: string): (w: string)
    ensures ' ' !in w && StartsWith(s, w)
    ensures w == s || (|w| < |s| && s[|w|] == ' ')
  {
    match IndexOf(s, ' ')
    case None => s
    case Some(k) => s[..k]
  }

  /**
   * `GetFirstName`: null for a missing or blank name; otherwise the first
   * blank-separated word after the iPhone clean-up, kept as it is when it
   * starts with a capital and is not all capitals, title-cased otherwise. An
   * empty first word makes `Substring(0, 1)` throw.
   */
  function GetFirstName(name: Option<string>, u: Utils): (r: Result<Option<string>>)
    ensures r == Ok(None) <==> name.None? || Trim(name.value) == []
    ensures r.Fault? ==> name.Some? && FirstWord(RemoveIPhoneStuff(Trim(name.value), u)) == []
    ensures r.Ok? && r.value.Some? ==>
      var w := FirstWord(RemoveIPhoneStuff(Trim(name.value), u));
      w != [] && (r.value.value == w || r.value.value == u.titleCase(w))
  {
    if name.None? || name.value == [] then Ok(None)
    else
      var t := Trim(name.value);
      if t == [] then Ok(None)
      else
        var w := FirstWord(RemoveIPhoneStuff(t, u));
        if w == [] then Fault("ArgumentOutOfRangeException")
        else if [w[0]] == Upper([w[0]]) && w != Upper(w) then Ok(Some(w))
        else Ok(Some(u.titleCase(w)))
  }

  /** `w.ToUpper()` leaves `w` alone exactly when `w` has no lower-case letter. */
  lemma UpperFixesExactlyNoLower(w: string)
    ensures Upper(w) == w <==> forall i :: 0 <= i < |w| ==> !IsLower(w[i])
  {
    if Upper(w) == w {
      forall i | 0 <= i < |w| ensures !IsLower(w[i]) {
        assert UpperChar(w[i]) == w[i];
      }
    } else {
      var i :| 0 <= i < |Upper(w)| && Upper(w)[i] != w[i];
    }
  }

  /**
   * A first word that starts with a character upper-casing leaves alone and
   * has a lower-case letter somewhere is returned as it is; a word without
   * lower-case letters is title-cased.
   */
  lemma FirstNameCasing(name: string, u: Utils)
    requires Trim(name) != []
    requires var w := FirstWord(RemoveIPhoneStuff(Trim(name), u)); w != []
    ensures var w := FirstWord(RemoveIPhoneStuff(Trim(name), u));
      GetFirstName(Some(name), u) ==
        if !IsLower(w[0]) && exists i :: 0 <= i < |w| && IsLower(w[i]) then Ok(Some(w)) else Ok(Some(u.titleCase(w)))
  {
    var w := FirstWord(RemoveIPhoneStuff(Trim(name), u));
    UpperFixesExactlyNoLower(w);
    assert Upper([w[0]])[0] == UpperChar(w[0]);
    assert [w[0]] == Upper([w[0]]) <==> !IsLower(w[0]);
  }

  /**
   * `FormatChatResponse(text, to)`: `string.Format` with the first name of
   * `to` (or nothing when it has none) and the time of day. The first-name
   * lookup runs first, as an argument, and its exception wins; then a null
   * text and a malformed template make `string.Format` throw.
   */
  function FormatChatResponse(text: Option<string>, to: Option<string>, hour: Hour, u: Utils): (r: Result<string>)
    ensures r.Fault? <==> GetFirstName(to, u).Fault? || text.None? || !u.formatAccepts(text.value, 2)
    ensures GetFirstName(to, u).Fault? ==> r == Fault(GetFirstName(to, u).reason)
    ensures GetFirstName(to, u).Ok? && text.None? ==> r == Fault("ArgumentNullException")
    ensures GetFirstName(to, u).Ok? && text.Some? && !u.formatAccepts(text.value, 2) ==> r == Fault("FormatException")
    ensures r.Ok? ==> r.value == u.format(text.value, [NameArg(GetFirstName(to, u).value), GetDayTime(hour)])
  {
    match GetFirstName(to, u)
    case Fault(reason) => Fault(reason)
    case Ok(first) =>
      if text.None? then Fault("ArgumentNullException")
      else if !u.formatAccepts(text.value, 2) then Fault("FormatException")
      else Ok(u.format(text.value, [NameArg(first), GetDayTime(hour)]))
  }

  /** A missing first name fills `{0}` with nothing. */
  function NameArg(first: Option<string>): string {
    if first.Some? then first.value else ""
  }

  /**
   * The name filled into `{0}`: nothing for a missing or blank name, and
   * otherwise the first word of the cleaned name, as it is or title-cased.
   */
  lemma FormatChatResponseName(text: string, to: Option<string>, hour: Hour, u: Utils)
    requires FormatChatResponse(Some(text), to, hour, u).Ok?
    ensures var r := FormatChatResponse(Some(text), to, hour, u).value;
      (to.None? || Trim(to.value) == [] ==> r == u.format(text, ["", GetDayTime(hour)]))
      && (to.Some? && Trim(to.value) != [] ==>
            var w := FirstWord(RemoveIPhoneStuff(Trim(to.value), u));
            w != [] && (r == u.format(text, [w, GetDayTime(hour)]) || r == u.format(text, [u.titleCase(w), GetDayTime(hour)])))
  {
    var first := GetFirstName(to, u);
    if to.Some? && Trim(to.value) != [] {
      assert first.value.Some?;
    }
  }

  /**
   * The message `SendTopic` sends: the topic line, after the one-time
   * greeting formatted for the recipient when there is one.
   */
  function TopicText(hi: Option<string>, name: string, line: string, hour: Hour, u: Utils): (r: Result<string>)
    ensures hi.None? ==> r == Ok(line)
    ensures r.Fault? <==> hi.Some? && FormatChatResponse(hi, Some(name), hour, u).Fault?
    ensures r.Ok? && hi.Some? ==> r.value == FormatChatResponse(hi, Some(name), hour, u).value + " " + line
    ensures r.Ok? ==> EndsWith(r.value, line)
  {
    if hi.None? then Ok(line)
    else
      match FormatChatResponse(hi, Some(name), hour, u)
      case Fault(reason) => Fault(reason)
      case Ok(greeting) =>
        assert (greeting + " " + line)[|greeting| + 1..] == line;
        Ok(greeting + " " + line)
  }

  /** The table value for the first word whose lower-case form is a key, if any. */
  function FirstHit(words: seq<string>, table: map<string, string>): (r: Option<string>)
    ensures r.Some? <==> exists i :: 0 <= i < |words| && Lower(words[i]) in table
    ensures r.Some? ==> exists i :: 0 <= i < |words| && Lower(words[i]) in table && r.value == table[Lower(words[i])]
                                 && forall j :: 0 <= j < i ==> Lower(words[j]) !in table
  {
    if words == [] then None
    else if Lower(words[0]) in table then Some(table[Lower(words[0])])
    else
      var r := FirstHit(words[1..], table);
      assert forall i :: 1 <= i < |words| ==> words[1..][i - 1] == words[i];
      if r.Some? then
        var i :| 0 <= i < |words[1..]| && Lower(words[1..][i]) in table && r.value == table[Lower(words[1..][i])]
          && forall j :: 0 <= j < i ==> Lower(words[1..][j]) !in table;
        assert forall j :: 1 <= j < i + 1 ==> words[j] == words[1..][j - 1];
        r
      else r
  }

  /**
   * The word loop shared by `OneTimeHi` and `SmallTalk`: `TryGetValue` on the
   * lower-cased word, leaving the loop at the first hit.
   */
  method LookupFirst(words: seq<string>, table: map<string, string>) returns (response: Option<string>)
    ensures response == FirstHit(words, table)
  {
    response := None;
    var i := 0;
    while i < |words|
      invariant 0 <= i <= |words|
      invariant forall j :: 0 <= j < i ==> Lower(words[j]) !in table
      invariant response == None
    {
      var key := Lower(words[i]);
      if key in table {
        response := Some(table[key]);
        FirstHitAt(words, table, i);
        return;
      }
      i := i + 1;
    }
  }

  lemma FirstHitAt(words: seq<string>, table: map<string, string>, i: nat)
    requires i < |words| && Lower(words[i]) in table
    requires forall j :: 0 <= j < i ==> Lower(words[j]) !in table
    ensures FirstHit(words, table) == Some(table[Lower(words[i])])
  {
    var r := FirstHit(words, table);
    var k :| 0 <= k < |words| && Lower(words[k]) in table && r.value == table[Lower(words[k])]
      && forall j :: 0 <= j < k ==> Lower(words[j]) !in table;
    assert k == i;
  }

  /** What `OneTimeHi` returns and the greeting record it leaves. */
  datatype Greeting<K> = Greeting(reply: Option<string>, greeted: map<K, string>)

  /**
   * `OneTimeHi` for one participant key: nothing for a participant already
   * greeted; otherwise the first hit of the words, recorded under the key
   * when there is one.
   */
  function OneTimeHi<K(==)>(greeted: map<K, string>, key: K, words: seq<string>, table: map<string, string>): (g: Greeting<K>)
    ensures g.reply.Some? <==> key !in greeted && FirstHit(words, table).Some?
    ensures g.reply.Some? ==> g.reply == FirstHit(words, table)
    ensures g.greeted.Keys == greeted.Keys + (if g.reply.Some? then {key} else {})
    ensures forall k :: k in greeted ==> g.greeted[k] == greeted[k]
    ensures g.reply.Some? ==> g.greeted[key] == g.reply.value
  {
    if key in greeted then Greeting(None, greeted)
    else
      var r := FirstHit(words, table);
      if r.Some? then Greeting(r, greeted[key := r.value]) else Greeting(None, greeted)
  }

  /** One `OneTimeHi` request: whose key, and the words of the text. */
  datatype HiRequest<K> = HiRequest(key: K, words: seq<string>)

  /** The replies of a run of `OneTimeHi` requests, each seeing the record the previous ones left. */
  function HiReplies<K(==)>(greeted: map<K, string>, reqs: seq<HiRequest<K>>, table: map<string, string>): (rs: seq<Option<string>>)
    ensures |rs| == |reqs|
    decreases |reqs|
  {
    if reqs == [] then []
    else
      var g := OneTimeHi(greeted, reqs[0].key, reqs[0].words, table);
      [g.reply] + HiReplies(g.greeted, reqs[1..], table)
  }

  /** Over any run of requests, a key already greeted never gets another reply. */
  lemma {:induction false} GreetedGetsNothing<K>(greeted: map<K, string>, reqs: seq<HiRequest<K>>, table: map<string, string>, key: K)
    requires key in greeted
    ensures forall i :: 0 <= i < |reqs| && reqs[i].key == key ==> HiReplies(greeted, reqs, table)[i].None?
    decreases |reqs|
  {
    if reqs != [] {
      var g := OneTimeHi(greeted, reqs[0].key, reqs[0].words, table);
      GreetedGetsNothing(g.greeted, reqs[1..], table, key);
      var rs := HiReplies(greeted, reqs, table);
      assert forall i :: 1 <= i < |reqs| ==> rs[i] == HiReplies(g.greeted, reqs[1..], table)[i - 1] && reqs[i] == reqs[1..][i - 1];
    }
  }

  /** Over any run of requests, each key gets a reply at most once. */
  lemma {:induction false} HiAtMostOnce<K>(greeted: map<K, string>, reqs: seq<HiRequest<K>>, table: map<string, string>, i: nat, j: nat)
    requires i < j < |reqs| && reqs[i].key == reqs[j].key
    ensures HiReplies(greeted, reqs, table)[i].None? || HiReplies(greeted, reqs, table)[j].None?
    decreases |reqs|
  {
    var g := OneTimeHi(greeted, reqs[0].key, reqs[0].words, table);
    var rs := HiReplies(greeted, reqs, table);
    var rest := HiReplies(g.greeted, reqs[1..], table);
    assert forall k :: 1 <= k < |reqs| ==> rs[k] == rest[k - 1] && reqs[k] == reqs[1..][k - 1];
    if i == 0 {
      if g.reply.Some? {
        GreetedGetsNothing(g.greeted, reqs[1..], table, reqs[0].key);
      }
    } else {
      HiAtMostOnce(g.greeted, reqs[1..], table, i - 1, j - 1);
    }
  }
}
