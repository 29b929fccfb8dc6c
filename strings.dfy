/**
 * The string operations of the .NET base library that the bot relies on,
 * restricted to what the bot needs: ASCII case mapping (`ToLower`, `ToUpper`),
 * white-space trimming (`Trim`, `TrimStart`, `TrimEnd`), `Split`, `Replace`,
 * `StartsWith`, `EndsWith` and `Contains`, all with ordinal comparison.
 */
module Strings {
  import opened Wrappers

  /** The white-space characters of `Char.IsWhiteSpace` in the ASCII range. */
  predicate IsWhite(c: char) {
    c == ' ' || c == '\t' || c == '\n' || c == '\r' || c == '\U{000B}' || c == '\U{000C}'
  }

  predicate IsUpper(c: char) { 'A' <= c <= 'Z' }

  predicate IsLower(c: char) { 'a' <= c <= 'z' }

  function LowerChar(c: char): (r: char)
    ensures !IsUpper(r)
    ensures IsUpper(c) || r == c
  {
    if IsUpper(c) then (c as int + 32) as char else c
  }

  function UpperChar(c: char): (r: char)
    ensures !IsLower(r)
    ensures IsLower(c) || r == c
  {
    if IsLower(c) then (c as int - 32) as char else c
  }

  /** `s.ToLower()` */
  function Lower(s: string): (r: string)
    ensures |r| == |s|
    ensures forall i :: 0 <= i < |s| ==> r[i] == LowerChar(s[i])
  {
    if s == [] then [] else [LowerChar(s[0])] + Lower(s[1..])
  }

  /** `s.ToUpper()` */
  function Upper(s: string): (r: string)
    ensures |r| == |s|
    ensures forall i :: 0 <= i < |s| ==> r[i] == UpperChar(s[i])
  {
    if s == [] then [] else [UpperChar(s[0])] + Upper(s[1..])
  }

  /** Lower-casing forgets any earlier change of case. */
  lemma {:induction false} LowerUpper(s: string)
    ensures Lower(Upper(s)) == Lower(s) && Lower(Lower(s)) == Lower(s)
  {
    assert forall i :: 0 <= i < |s| ==> Lower(Upper(s))[i] == Lower(s)[i];
    assert forall i :: 0 <= i < |s| ==> Lower(Lower(s))[i] == Lower(s)[i];
  }

  /** How many white-space characters `s` starts with. */
  function LeadingWhite(s: string): (n: nat)
    ensures n <= |s|
    ensures n == |s| || !IsWhite(s[n])
  {
    if s != [] && IsWhite(s[0]) then 1 + LeadingWhite(s[1..]) else 0
  }

  /** How many white-space characters `s` ends with. */
  function TrailingWhite(s: string): (n: nat)
    ensures n <= |s|
    ensures n == |s| || !IsWhite(s[|s| - n - 1])
  {
    if s != [] && IsWhite(s[|s| - 1]) then 1 + TrailingWhite(s[..|s| - 1]) else 0
  }

  /** `s.TrimStart()` */
  function TrimStart(s: string): (r: string)
    ensures r == [] || !IsWhite(r[0])
    ensures s != [] && IsWhite(s[0]) ==> |r| < |s|
  {
    s[LeadingWhite(s)..]
  }

  /** `s.TrimEnd()` */
  function TrimEnd(s: string): (r: string)
    ensures r == [] || !IsWhite(r[|r| - 1])
    ensures |r| <= |s| && r == s[..|r|]
  {
    s[..|s| - TrailingWhite(s)]
  }

  /** `s.Trim()` */
  function Trim(s: string): (r: string)
    ensures r == [] || (!IsWhite(r[0]) && !IsWhite(r[|r| - 1]))
  {
    TrimEnd(TrimStart(s))
  }

  /** Trimming keeps a slice of the input: no new characters and no new double white space. */
  lemma TrimKeeps(s: string)
    ensures forall i :: 0 <= i < |Trim(s)| ==> Trim(s)[i] in s
    ensures NoDoubleWhite(s) ==> NoDoubleWhite(Trim(s))
  {
    var n := LeadingWhite(s);
    var t := TrimStart(s);
    assert t == s[n..|s|];
    var m := |t| - TrailingWhite(t);
    assert Trim(s) == s[n..n + m];
    SliceKeepsNoDoubleWhite(s, n, n + m);
    forall i | 0 <= i < |Trim(s)| ensures Trim(s)[i] in s {
      assert Trim(s)[i] == s[n + i];
    }
  }

  /** How many copies of `c` `s` ends with. */
  function TrailingChar(s: string, c: char): (n: nat)
    ensures n <= |s|
    ensures n == |s| || s[|s| - n - 1] != c
  {
    if s != [] && s[|s| - 1] == c then 1 + TrailingChar(s[..|s| - 1], c) else 0
  }

  /** `s.TrimEnd(c)`: removes every trailing `c`. */
  function TrimEndChar(s: string, c: char): (r: string)
    ensures r == [] || r[|r| - 1] != c
  {
    s[..|s| - TrailingChar(s, c)]
  }

  /** How many copies of `c` `s` starts with. */
  function LeadingChar(s: string, c: char): (n: nat)
    ensures n <= |s|
    ensures n == |s| || s[n] != c
  {
    if s != [] && s[0] == c then 1 + LeadingChar(s[1..], c) else 0
  }

  /** `s.TrimStart(c)`: removes every leading `c`. */
  function TrimStartChar(s: string, c: char): (r: string)
    ensures r == [] || r[0] != c
  {
    s[LeadingChar(s, c)..]
  }

  /** `s.Replace(c.ToString(), "")`: deletes every `c`. */
  function RemoveChar(s: string, c: char): (r: string)
    ensures |r| <= |s|
  {
    if s == [] then [] else (if s[0] == c then [] else [s[0]]) + RemoveChar(s[1..], c)
  }

  /** Deleting `c` leaves no `c` and adds no character. */
  lemma {:induction false} RemoveCharFacts(s: string, c: char)
    ensures c !in RemoveChar(s, c)
    ensures forall x :: x in RemoveChar(s, c) ==> x in s
    decreases |s|
  {
    if s != [] {
      RemoveCharFacts(s[1..], c);
      var head := if s[0] == c then [] else [s[0]];
      assert RemoveChar(s, c) == head + RemoveChar(s[1..], c);
      forall x | x in RemoveChar(s, c) ensures x in s {
        if x !in head {
          assert x in s[1..];
        }
      }
    }
  }

  /** Characters `i` and `i + 1` of `s` are both white space. */
  predicate DoubleWhiteAt(s: string, i: int) {
    0 <= i < |s| - 1 && IsWhite(s[i]) && IsWhite(s[i + 1])
  }

  /** No two adjacent characters are both white space. */
  predicate NoDoubleWhite(s: string) {
    forall i :: 0 <= i < |s| ==> !DoubleWhiteAt(s, i)
  }

  lemma SliceKeepsNoDoubleWhite(s: string, lo: int, hi: int)
    requires 0 <= lo <= hi <= |s|
    ensures NoDoubleWhite(s) ==> NoDoubleWhite(s[lo..hi])
  {
    if NoDoubleWhite(s) {
      var t := s[lo..hi];
      forall i | 0 <= i < |t| ensures !DoubleWhiteAt(t, i) {
        assert !DoubleWhiteAt(s, lo + i);
      }
    }
  }

  lemma ConsKeepsNoDoubleWhite(c: char, t: string)
    requires NoDoubleWhite(t)
    requires t == [] || !IsWhite(c) || !IsWhite(t[0])
    ensures NoDoubleWhite([c] + t)
  {
    var r := [c] + t;
    forall i | 0 <= i < |r| ensures !DoubleWhiteAt(r, i) {
      if 0 < i { assert !DoubleWhiteAt(t, i - 1); }
    }
  }

  /** `Regex.Replace(s, @"\s+", " ")`: every run of white space becomes one blank. */
  function CollapseWhite(s: string): (r: string)
    decreases |s|
  {
    if s == [] then []
    else if IsWhite(s[0]) then [' '] + CollapseWhite(TrimStart(s))
    else [s[0]] + CollapseWhite(s[1..])
  }

  /**
   * The collapsed text has no two adjacent blanks, keeps every other
   * character, is empty exactly when the input is, and starts with white
   * space exactly when the input does.
   */
  lemma {:induction false} CollapseWhiteFacts(s: string)
    ensures var r := CollapseWhite(s);
      NoDoubleWhite(r)
      && (forall i :: 0 <= i < |r| ==> r[i] == ' ' || (r[i] in s && !IsWhite(r[i])))
      && (r == []) == (s == [])
      && (s != [] ==> (IsWhite(r[0]) <==> IsWhite(s[0])))
    decreases |s|
  {
    if s != [] {
      var t := if IsWhite(s[0]) then TrimStart(s) else s[1..];
      var head := if IsWhite(s[0]) then ' ' else s[0];
      CollapseWhiteFacts(t);
      var rest := CollapseWhite(t);
      assert CollapseWhite(s) == [head] + rest;
      ConsKeepsNoDoubleWhite(head, rest);
      forall i | 0 <= i < |t| ensures t[i] in s {
        if IsWhite(s[0]) {
          assert t[i] == s[LeadingWhite(s) + i];
        } else {
          assert t[i] == s[i + 1];
        }
      }
      var r := [head] + rest;
      forall i | 0 <= i < |r| ensures r[i] == ' ' || (r[i] in s && !IsWhite(r[i])) {
        if i > 0 {
          assert r[i] == rest[i - 1];
        }
      }
    }
  }

  predicate StartsWith(s: string, p: string) { |p| <= |s| && s[..|p|] == p }

  predicate EndsWith(s: string, p: string) { |p| <= |s| && s[|s| - |p|..] == p }

  /** First index of `c` in `s`. */
  function IndexOf(s: string, c: char): (r: Option<nat>)
    ensures r.None? ==> c !in s
    ensures r.Some? ==> r.value < |s| && s[r.value] == c && c !in s[..r.value]
  {
    if c !in s then None
    else if s[0] == c then Some(0)
    else
      var k := IndexOf(s[1..], c);
      assert s[1..][..k.value] == s[1..k.value + 1];
      Some(k.value + 1)
  }

  /** `p` occurs in `s` starting at index `j`. */
  predicate OccursAt(s: string, p: string, j: int) {
    0 <= j && j + |p| <= |s| && s[j..j + |p|] == p
  }

  /** First index at or after `i` where `p` occurs in `s`. */
  function FindFrom(s: string, p: string, i: nat): (r: Option<nat>)
    requires i <= |s|
    ensures r.Some? ==> i <= r.value && OccursAt(s, p, r.value)
    ensures r.Some? ==> forall j :: i <= j < r.value ==> !OccursAt(s, p, j)
    ensures r.None? ==> forall j :: i <= j ==> !OccursAt(s, p, j)
    decreases |s| - i
  {
    if i + |p| > |s| then None
    else if s[i..i + |p|] == p then Some(i)
    else FindFrom(s, p, i + 1)
  }

  /** `s.Contains(p)` */
  predicate Contains(s: string, p: string) {
    FindFrom(s, p, 0).Some?
  }

  /** `s.Split(c)`: every piece between two occurrences of `c`. */
  function SplitOn(s: string, c: char): (parts: seq<string>)
    ensures |parts| >= 1
    ensures forall j :: 0 <= j < |parts| ==> c !in parts[j]
    decreases |s|
  {
    match IndexOf(s, c)
    case None => [s]
    case Some(k) => [s[..k]] + SplitOn(s[k + 1..], c)
  }

  /** `s.Split(new[] { c }, 2)`: the text before the first `c` and, if there is one, the rest after it. */
  function SplitFirst(s: string, c: char): (parts: seq<string>)
    ensures 1 <= |parts| <= 2 && c !in parts[0]
    ensures |parts| == 1 ==> parts[0] == s
    ensures |parts| == 2 ==> s == parts[0] + [c] + parts[1]
  {
    match IndexOf(s, c)
    case None => [s]
    case Some(k) => [s[..k], s[k + 1..]]
  }

  /** `s.Split(new[] { sep }, StringSplitOptions.None)` for a non-empty separator. */
  function SplitSep(s: string, sep: string): (parts: seq<string>)
    requires |sep| > 0
    ensures |parts| >= 1
    decreases |s|
  {
    match FindFrom(s, sep, 0)
    case None => [s]
    case Some(k) => [s[..k]] + SplitSep(s[k + |sep|..], sep)
  }

  /** What `StringSplitOptions.RemoveEmptyEntries` keeps. */
  function NonEmpty(parts: seq<string>): (r: seq<string>)
    ensures |r| <= |parts|
    ensures forall j :: 0 <= j < |r| ==> r[j] != []
  {
    if parts == [] then []
    else (if parts[0] == [] then [] else [parts[0]]) + NonEmpty(parts[1..])
  }

  /** `s.Replace(p, rep)` for a non-empty pattern: every occurrence, scanning left to right. */
  function ReplaceAll(s: string, p: string, rep: string): (r: string)
    requires |p| > 0
    ensures !Contains(s, p) ==> r == s
    decreases |s|
  {
    match FindFrom(s, p, 0)
    case None => s
    case Some(k) => s[..k] + rep + ReplaceAll(s[k + |p|..], p, rep)
  }
}
