/**
 * The text-to-speech front end of ZoomController.TTS/Sound.cs: the camel-case
 * splitter and the pre-processing of spoken text (pure), and the sound queue
 * that `Speak` and `Play` feed and the timer handler drains (imperative).
 */
module Sound {
  import opened Wrappers
  import opened Strings

  // ---------------------------------------------------------------------------
  // SplitCamelCase: `string.Join(" ", Regex.Split(input, pattern))` with the
  // pattern `(?<=[a-z])(?=[A-Z])|(?<=[A-Z])(?=[A-Z][a-z])`.
  // ---------------------------------------------------------------------------

  /**
   * The pattern matches (with an empty match) at position `k` of `s`: a
   * lower-case letter before and an upper-case letter after, or an upper-case
   * letter before and an upper-case letter followed by a lower-case one after.
   * Both alternatives need a character on each side, so no match happens at
   * the start or the end of `s`.
   */
  predicate CutAt(s: string, k: int) {
    0 < k < |s| &&
    ((IsLower(s[k - 1]) && IsUpper(s[k])) ||
     (IsUpper(s[k - 1]) && IsUpper(s[k]) && k + 1 < |s| && IsLower(s[k + 1])))
  }

  /** The pattern matches nowhere strictly between `i` and `k`. */
  predicate NoCutBetween(s: string, i: int, k: int)
    decreases k - i
  {
    i + 1 >= k || (!CutAt(s, i + 1) && NoCutBetween(s, i + 1, k))
  }

  /** The first match after `start`, or `|s|` when there is none. */
  function NextCut(s: string, start: nat): (k: nat)
    requires start <= |s|
    ensures start <= k <= |s|
    ensures start < |s| ==> start < k
    ensures k < |s| ==> CutAt(s, k)
    ensures NoCutBetween(s, start, k)
    decreases |s| - start
  {
    if start + 1 >= |s| then |s|
    else if CutAt(s, start + 1) then start + 1
    else NextCut(s, start + 1)
  }

  /** The pieces `Regex.Split` returns for `s[start..]`, `start` being 0 or a match. */
  function PiecesFrom(s: string, start: nat): seq<string>
    requires start <= |s|
    decreases |s| - start
  {
    var k := NextCut(s, start);
    if k == |s| then [s[start..]] else [s[start..k]] + PiecesFrom(s, k)
  }

  /** `Regex.Split(s, pattern)`: of the empty string, one empty piece. */
  function RegexSplit(s: string): seq<string> {
    PiecesFrom(s, 0)
  }

  /** `string.Join(sep, parts)` */
  function Join(sep: string, parts: seq<string>): string {
    if |parts| == 0 then ""
    else if |parts| == 1 then parts[0]
    else parts[0] + sep + Join(sep, parts[1..])
  }

  /** The concatenation of the pieces, with nothing between them. */
  function Concat(parts: seq<string>): string {
    if |parts| == 0 then "" else parts[0] + Concat(parts[1..])
  }

  function SplitCamelCase(input: string): string {
    Join(" ", RegexSplit(input))
  }

  /** One space where the pattern matches at `k`, nothing elsewhere. */
  function Gap(s: string, k: int): string {
    if CutAt(s, k) then " " else ""
  }

  /**
   * A reference definition of the splitter, character by character: the
   * characters of `s[i..]` in order, each followed by one space when the
   * pattern matches right after it.
   */
  function Spaced(s: string, i: nat): string
    requires i <= |s|
    decreases |s| - i
  {
    if i == |s| then "" else [s[i]] + Gap(s, i + 1) + Spaced(s, i + 1)
  }

  /** Gluing the pieces back together gives the input again. */
  lemma {:induction false} PiecesConcat(s: string, start: nat)
    requires start <= |s|
    ensures Concat(PiecesFrom(s, start)) == s[start..]
    decreases |s| - start
  {
    var k := NextCut(s, start);
    if k < |s| {
      PiecesConcat(s, k);
      assert s[start..] == s[start..k] + s[k..];
    }
  }

  /** Every piece is non-empty once the input is. */
  lemma {:induction false} PiecesNonEmpty(s: string, start: nat)
    requires start < |s|
    ensures forall p :: p in PiecesFrom(s, start) ==> p != ""
    decreases |s| - start
  {
    var k := NextCut(s, start);
    if k < |s| {
      PiecesNonEmpty(s, k);
    }
  }

  /** `s[i..k]` has no match strictly inside, so `Spaced` copies it verbatim. */
  lemma {:induction false} SpacedRun(s: string, i: nat, k: nat)
    requires i < k <= |s|
    requires NoCutBetween(s, i, k)
    ensures Spaced(s, i) == s[i..k] + Gap(s, k) + Spaced(s, k)
    decreases k - i
  {
    if i + 1 < k {
      SpacedRun(s, i + 1, k);
      var rest := Gap(s, k) + Spaced(s, k);
      calc {
        Spaced(s, i);
        [s[i]] + Gap(s, i + 1) + Spaced(s, i + 1);
        { assert Gap(s, i + 1) == ""; }
        [s[i]] + Spaced(s, i + 1);
        [s[i]] + (s[i + 1..k] + Gap(s, k) + Spaced(s, k));
        { assert s[i + 1..k] + Gap(s, k) + Spaced(s, k) == s[i + 1..k] + rest; }
        [s[i]] + (s[i + 1..k] + rest);
        ([s[i]] + s[i + 1..k]) + rest;
        { assert [s[i]] + s[i + 1..k] == s[i..k]; }
        s[i..k] + rest;
        s[i..k] + Gap(s, k) + Spaced(s, k);
      }
    } else {
      assert s[i..k] == [s[i]];
      assert Spaced(s, i) == [s[i]] + Gap(s, i + 1) + Spaced(s, i + 1);
    }
  }

  /** Joining the pieces with single spaces is the character-level reference. */
  lemma {:induction false} JoinPiecesSpaced(s: string, start: nat)
    requires start < |s|
    ensures Join(" ", PiecesFrom(s, start)) == Spaced(s, start)
    decreases |s| - start
  {
    var k := NextCut(s, start);
    SpacedRun(s, start, k);
    if k < |s| {
      JoinPiecesSpaced(s, k);
      PiecesNonEmpty(s, k);
      assert PiecesFrom(s, start) == [s[start..k]] + PiecesFrom(s, k);
      assert Gap(s, k) == " ";
    } else {
      assert Gap(s, k) == "" && Spaced(s, k) == "";
      assert s[start..] == s[start..k];
    }
  }

  /**
   * The splitter puts one space before each match of the pattern and changes
   * nothing else: exactly at a lower-to-upper step, and before the last
   * capital of a run of capitals followed by a lower-case letter. The length
   * of the example's words plays no part: any CamelCase word is split.
   */
  lemma SplitCamelCaseSpaced(input: string)
    ensures SplitCamelCase(input) == Spaced(input, 0)
  {
    if |input| > 0 {
      JoinPiecesSpaced(input, 0);
    } else {
      assert RegexSplit(input) == [""];
    }
  }

  /**
   * Removing the inserted spaces gives the input back: the output is the
   * pieces joined by single spaces, the pieces concatenated are the input,
   * and none of them is empty (so no two spaces are ever inserted together).
   */
  lemma SplitCamelCaseRoundTrip(input: string)
    ensures Concat(RegexSplit(input)) == input
    ensures input != "" ==> forall p :: p in RegexSplit(input) ==> p != ""
  {
    PiecesConcat(input, 0);
    if input != "" {
      PiecesNonEmpty(input, 0);
    }
  }

  /** The characters of `Spaced(s, i)` are those of `s[i..]` and spaces. */
  lemma {:induction false} SpacedChars(s: string, i: nat, c: char)
    requires i <= |s|
    requires c in Spaced(s, i)
    ensures c == ' ' || c in s[i..]
    decreases |s| - i
  {
    if i < |s| {
      var head := [s[i]] + Gap(s, i + 1);
      assert Spaced(s, i) == head + Spaced(s, i + 1);
      if c !in head {
        SpacedChars(s, i + 1, c);
        assert s[i + 1..] == s[i..][1..];
      }
    }
  }

  /** The example word of the doc comment of `SplitCamelCase`. */
  lemma CamelCaseExample()
    ensures SplitCamelCase("CamelCase") == "Camel Case"
  {
  }

  /**
   * The comment in `TTSPreprocess` speaks of words longer than 4 characters,
   * but nothing in the code looks at the length: short words split the same.
   */
  lemma ShortWordExamples()
    ensures SplitCamelCase("iPad") == "i Pad"
    ensures SplitCamelCase("AI") == "AI"
  {
  }

  /** A run of capitals keeps together up to the capital that starts a word. */
  lemma CapitalRunExample()
    ensures SplitCamelCase("AIBot") == "AI Bot"
  {
  }

  // ---------------------------------------------------------------------------
  // TTSPreprocess: the split text with every whole-word "AI" replaced.
  // ---------------------------------------------------------------------------

  /** What a whole-word "AI" is replaced with. */
  const AIMarkup: string := "<say-as interpret-as='characters'>" + "AI" + "</say-as>"

  /**
   * `\b` at position `i` of `s`: a word character on exactly one side.
   * `isWord` stands for the regular-expression class `\w`.
   */
  predicate Boundary(s: string, i: nat, isWord: char -> bool)
    requires i <= |s|
  {
    (i > 0 && isWord(s[i - 1])) != (i < |s| && isWord(s[i]))
  }

  /** `\bAI\b` matches at position `i` of `s`. */
  predicate WholeAIAt(s: string, i: nat, isWord: char -> bool)
    requires i <= |s|
  {
    i + 2 <= |s| && s[i] == 'A' && s[i + 1] == 'I' &&
    Boundary(s, i, isWord) && Boundary(s, i + 2, isWord)
  }

  /**
   * `Regex.Replace(s, @"\bAI\b", AIMarkup)` on `s[i..]`, scanning left to right
   * (the boundaries look at the whole of `s`).
   */
  function ReplaceAIFrom(s: string, i: nat, isWord: char -> bool): string
    requires i <= |s|
    decreases |s| - i
  {
    if i == |s| then ""
    else if WholeAIAt(s, i, isWord) then AIMarkup + ReplaceAIFrom(s, i + 2, isWord)
    else [s[i]] + ReplaceAIFrom(s, i + 1, isWord)
  }

  function ReplaceAI(s: string, isWord: char -> bool): string {
    ReplaceAIFrom(s, 0, isWord)
  }

  function TTSPreprocess(input: string, isWord: char -> bool): string {
    ReplaceAI(SplitCamelCase(input), isWord)
  }

  /**
   * The inverse of the replacement on text that held no markup of its own:
   * every occurrence of the markup turned back into "AI".
   */
  function RestoreAI(t: string): string
    decreases |t|
  {
    if |t| == 0 then ""
    else if |t| >= |AIMarkup| && t[..|AIMarkup|] == AIMarkup then "AI" + RestoreAI(t[|AIMarkup|..])
    else [t[0]] + RestoreAI(t[1..])
  }

  lemma {:induction false} RestoreReplaceFrom(s: string, i: nat, isWord: char -> bool)
    requires i <= |s|
    requires '<' !in s
    ensures RestoreAI(ReplaceAIFrom(s, i, isWord)) == s[i..]
    decreases |s| - i
  {
    if i < |s| {
      var t := ReplaceAIFrom(s, i, isWord);
      if WholeAIAt(s, i, isWord) {
        RestoreReplaceFrom(s, i + 2, isWord);
        assert t[..|AIMarkup|] == AIMarkup;
        assert t[|AIMarkup|..] == ReplaceAIFrom(s, i + 2, isWord);
        assert s[i..] == "AI" + s[i + 2..];
      } else {
        RestoreReplaceFrom(s, i + 1, isWord);
        assert AIMarkup[0] == '<';
        assert t[0] == s[i] && s[i] != '<';
        assert |t| >= |AIMarkup| ==> t[..|AIMarkup|][0] != AIMarkup[0];
        assert t[1..] == ReplaceAIFrom(s, i + 1, isWord);
        assert s[i..] == [s[i]] + s[i + 1..];
      }
    }
  }

  /**
   * The replacement changes nothing but the whole-word "AI"s: on text with
   * no '<', turning the markup back into "AI" gives the text again.
   */
  lemma ReplaceAIRoundTrip(s: string, isWord: char -> bool)
    requires '<' !in s
    ensures RestoreAI(ReplaceAI(s, isWord)) == s
  {
    RestoreReplaceFrom(s, 0, isWord);
  }

  /** Text without a whole-word "AI" is left as it is. */
  lemma {:induction false} ReplaceAINoMatch(s: string, i: nat, isWord: char -> bool)
    requires i <= |s|
    requires forall j :: i <= j <= |s| ==> !WholeAIAt(s, j, isWord)
    ensures ReplaceAIFrom(s, i, isWord) == s[i..]
    decreases |s| - i
  {
    if i < |s| {
      ReplaceAINoMatch(s, i + 1, isWord);
      assert s[i..] == [s[i]] + s[i + 1..];
    }
  }

  /** A lone "AI" is spelled out; "AIR" is not touched. */
  lemma AIExamples(isWord: char -> bool)
    requires isWord('A') && isWord('I') && isWord('R') && !isWord(' ')
    ensures ReplaceAI("AI", isWord) == AIMarkup
    ensures ReplaceAI("AIR", isWord) == "AIR"
    ensures ReplaceAI("an AI", isWord) == "an " + AIMarkup
  {
  }

  /**
   * The pre-processed text is the split text with whole-word "AI"s spelled
   * out and nothing else changed: restoring them gives the split text back.
   */
  lemma TTSPreprocessRoundTrip(input: string, isWord: char -> bool)
    requires '<' !in input
    ensures RestoreAI(TTSPreprocess(input, isWord)) == SplitCamelCase(input)
  {
    var split := SplitCamelCase(input);
    SplitCamelCaseSpaced(input);
    forall c | c in split
      ensures c != '<'
    {
      SpacedChars(input, 0, c);
    }
    ReplaceAIRoundTrip(split, isWord);
  }

  // ---------------------------------------------------------------------------
  // PlaySoundFile: the path resolution.
  // ---------------------------------------------------------------------------

  /**
   * `Path.GetExtension(path)`: from the last '.' to the end, provided no
   * directory or volume separator comes after that '.' and the '.' is not
   * the last character; otherwise the empty string.
   */
  function ExtensionFrom(path: string, i: nat): (r: string)
    requires i <= |path|
    requires forall k :: i <= k < |path| ==> path[k] != '.' && path[k] !in "\\/:"
    ensures |r| <= |path| && (r != [] ==> |r| >= 2 && r[0] == '.' && r == path[|path| - |r|..])
    ensures forall k :: 1 <= k < |r| ==> r[k] != '.' && r[k] !in "\\/:"
    ensures '.' !in path ==> r == []
    ensures forall k :: 0 <= k < |path| - 1 && path[k] == '.' && PlainAfter(path, k) ==> r == path[k..]
    decreases i
  {
    if i == 0 then ""
    else if path[i - 1] == '.' then (if i == |path| then "" else path[i - 1..])
    else if path[i - 1] in "\\/:" then ""
    else ExtensionFrom(path, i - 1)
  }

  /** No '.' and no separator follows index `k`. */
  predicate PlainAfter(path: string, k: nat) {
    forall m :: k < m < |path| ==> path[m] != '.' && path[m] !in "\\/:"
  }

  function Extension(path: string): string {
    ExtensionFrom(path, |path|)
  }

  /**
   * Where `PlaySoundFile(path)` plays from. The file system comes in as
   * `isDirectory` (`Directory.Exists`) and `pickWav`, the random `.wav` file
   * of a directory (`None`: there is none, and the pick throws).
   */
  function ResolveSoundFile(path: string, isDirectory: string -> bool,
                            pickWav: string -> Option<string>): Option<string>
  {
    var p := "sounds\\" + path;
    if Extension(p) != "" then Some(p)
    else if isDirectory(p) then pickWav(p)
    else Some(p + ".wav")
  }

  /** Appending ".wav" gives the path the extension ".wav". */
  lemma WavExtension(p: string)
    ensures Extension(p + ".wav") == ".wav"
  {
    var q := p + ".wav";
    assert q[|q| - 4] == '.';
    assert q[|q| - 4..] == ".wav";
    assert ExtensionFrom(q, |q| - 3) == ".wav";
    assert ExtensionFrom(q, |q| - 2) == ".wav";
    assert ExtensionFrom(q, |q| - 1) == ".wav";
  }

  /** A file that is not a directory is always played as a `.wav` file. */
  lemma ResolvedFileIsWav(path: string, isDirectory: string -> bool,
                          pickWav: string -> Option<string>)
    requires !isDirectory("sounds\\" + path)
    ensures var r := ResolveSoundFile(path, isDirectory, pickWav);
      r.Some? && r.value[..7] == "sounds\\" &&
      (Extension(r.value) == ".wav" || Extension(r.value) == Extension("sounds\\" + path))
  {
    var p := "sounds\\" + path;
    if Extension(p) == "" {
      WavExtension(p);
      assert (p + ".wav")[..7] == p[..7];
    }
  }

  // ---------------------------------------------------------------------------
  // The sound queue.
  // ---------------------------------------------------------------------------

  /** `SoundItem`: an action ("speak" or "play") and its text or path. */
  datatype SoundItem = SoundItem(action: string, parameters: string)

  /**
   * What processing one item did: `tts.Speak(text)`, `SoundPlayer(path).PlaySync()`,
   * or an exception caught and logged with the item it came from.
   */
  datatype Effect =
    | Spoke(text: string)
    | Played(file: string)
    | Logged(item: SoundItem)

  /** One round of the timer handler's loop body. */
  function Handle(item: SoundItem, isDirectory: string -> bool,
                  pickWav: string -> Option<string>): Effect
  {
    if item.action == "speak" then Spoke(item.parameters)
    else if item.action == "play" then
      match ResolveSoundFile(item.parameters, isDirectory, pickWav)
      case Some(file) => Played(file)
      case None => Logged(item)
    else Logged(item)
  }

  /** `Handle` with the file system fixed. */
  function HandlerOf(isDirectory: string -> bool, pickWav: string -> Option<string>): SoundItem -> Effect {
    (item: SoundItem) => Handle(item, isDirectory, pickWav)
  }

  /** The effects of processing `items` in order, `handle` doing one item. */
  function HandleAll(items: seq<SoundItem>, handle: SoundItem -> Effect): seq<Effect> {
    if |items| == 0 then [] else [handle(items[0])] + HandleAll(items[1..], handle)
  }

  /** Processing is item by item: one effect per item, in order. */
  lemma {:induction false} HandleAllEach(items: seq<SoundItem>, handle: SoundItem -> Effect)
    ensures |HandleAll(items, handle)| == |items|
    ensures forall i :: 0 <= i < |items| ==> HandleAll(items, handle)[i] == handle(items[i])
  {
    if |items| > 0 {
      HandleAllEach(items[1..], handle);
    }
  }

  /** Draining two queues one after the other is draining their concatenation. */
  lemma {:induction false} HandleAllAppend(a: seq<SoundItem>, b: seq<SoundItem>,
                                           handle: SoundItem -> Effect)
    ensures HandleAll(a + b, handle) == HandleAll(a, handle) + HandleAll(b, handle)
  {
    if |a| == 0 {
      assert a + b == b;
    } else {
      var ab := a + b;
      assert ab[0] == a[0];
      assert ab[1..] == a[1..] + b;
      HandleAllAppend(a[1..], b, handle);
      calc {
        HandleAll(ab, handle);
        [handle(a[0])] + HandleAll(a[1..] + b, handle);
        [handle(a[0])] + (HandleAll(a[1..], handle) + HandleAll(b, handle));
        ([handle(a[0])] + HandleAll(a[1..], handle)) + HandleAll(b, handle);
        HandleAll(a, handle) + HandleAll(b, handle);
      }
    }
  }

  /** An item with an unknown action is logged, and so is a pick from an empty directory. */
  lemma HandleFailures(item: SoundItem, isDirectory: string -> bool,
                       pickWav: string -> Option<string>)
    ensures item.action != "speak" && item.action != "play" ==>
      Handle(item, isDirectory, pickWav) == Logged(item)
    ensures (item.action == "play" &&
             ResolveSoundFile(item.parameters, isDirectory, pickWav).None?) ==>
            Handle(item, isDirectory, pickWav) == Logged(item)
  {
  }

  /**
   * The static state of `Sound`: the queue, and the effects so far standing
   * for the speech engine and the sound player. `isWord`, `isDirectory` and
   * `pickWav` are the regular-expression word class and the file system.
   */
  class SoundQueue {
    var q: seq<SoundItem>
    var effects: seq<Effect>
    const isWord: char -> bool
    const isDirectory: string -> bool
    const pickWav: string -> Option<string>

    constructor (isWord: char -> bool, isDirectory: string -> bool,
                 pickWav: string -> Option<string>)
      ensures q == [] && effects == []
      ensures this.isWord == isWord && this.isDirectory == isDirectory && this.pickWav == pickWav
    {
      q := [];
      effects := [];
      this.isWord := isWord;
      this.isDirectory := isDirectory;
      this.pickWav := pickWav;
    }

    /** `Sound.Speak(text)`: the pre-processed text joins the tail of the queue. */
    method Speak(text: string)
      modifies this
      ensures q == old(q) + [SoundItem("speak", TTSPreprocess(text, isWord))]
      ensures effects == old(effects)
    {
      q := q + [SoundItem("speak", TTSPreprocess(text, isWord))];
    }

    /** `Sound.Play(path)`: the path, unchanged, joins the tail of the queue. */
    method Play(path: string)
      modifies this
      ensures q == old(q) + [SoundItem("play", path)]
      ensures effects == old(effects)
    {
      q := q + [SoundItem("play", path)];
    }

    /**
     * `TimerHandler`: take items off the head of the queue until it is
     * empty. A failing item is logged and the loop goes on with the next.
     */
    method TimerHandler()
      modifies this
      ensures q == []
      ensures effects == old(effects) + HandleAll(old(q), HandlerOf(isDirectory, pickWav))
    {
      ghost var handle := HandlerOf(isDirectory, pickWav);
      ghost var taken: seq<SoundItem> := [];
      while q != []
        invariant old(q) == taken + q
        invariant effects == old(effects) + HandleAll(taken, handle)
        decreases |q|
      {
        var si := q[0];
        q := q[1..];
        var e := Handle(si, isDirectory, pickWav);
        effects := effects + [e];
        HandleAllAppend(taken, [si], handle);
        assert HandleAll([si], handle) == [e];
        taken := taken + [si];
      }
      assert old(q) == taken + [] == taken;
    }
  }

  /** Spoken text comes out pre-processed, after everything queued before it. */
  lemma SpeakThenDrain(before: seq<SoundItem>, text: string, isWord: char -> bool,
                       isDirectory: string -> bool, pickWav: string -> Option<string>)
    ensures var item := SoundItem("speak", TTSPreprocess(text, isWord));
      var handle := HandlerOf(isDirectory, pickWav);
      HandleAll(before + [item], handle) == HandleAll(before, handle) + [Spoke(TTSPreprocess(text, isWord))]
  {
    var item := SoundItem("speak", TTSPreprocess(text, isWord));
    var handle := HandlerOf(isDirectory, pickWav);
    HandleAllAppend(before, [item], handle);
    assert HandleAll([item], handle) == [handle(item)];
  }
}
