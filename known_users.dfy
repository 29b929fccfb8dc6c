/**
 * The roster of known participants ("good users") shared by both UsherBot
 * variants: how a display name is normalised for comparison, and how the
 * roster file, one participant per line with `|`-separated aliases and a
 * trailing `^` for administrators, becomes a map from normalised name to
 * administrator flag.
 */
module KnownUsers {
  import opened Strings

  /** The role suffixes a display name may carry, already lower-cased. */
  const RoleSuffixes: seq<string> := ["(usher)", "(dl)", "(chair)", "(speaker)"]

  /** The length of the first role suffix from index `j` on that `t` ends with, or 0 when it ends with none. */
  function RoleSuffixLength(t: string, j: nat := 0): (n: nat)
    requires j <= |RoleSuffixes|
    ensures n == 0 || (n <= |t| && t[|t| - n..] in RoleSuffixes)
    ensures n == 0 <==> forall i :: j <= i < |RoleSuffixes| ==> !EndsWith(t, RoleSuffixes[i])
    decreases |RoleSuffixes| - j
  {
    if j == |RoleSuffixes| then 0
    else if EndsWith(t, RoleSuffixes[j]) then |RoleSuffixes[j]|
    else RoleSuffixLength(t, j + 1)
  }

  /**
   * `Regex.Replace(s, @"\s*\((?:Usher|DL|Chair|Speaker)\)\s*$", "")` on a
   * lower-case name: one role suffix at the very end, with the white space
   * around it, is removed.
   */
  function StripRoleSuffix(s: string): (r: string)
    ensures |r| <= |s| && r == s[..|r|]
    ensures r == s <==> forall i :: 0 <= i < |RoleSuffixes| ==> !EndsWith(TrimEnd(s), RoleSuffixes[i])
    ensures r != s ==>
      var t := TrimEnd(s);
      var n := RoleSuffixLength(t);
      0 < n <= |t| && t[|t| - n..] in RoleSuffixes && r == TrimEnd(t[..|t| - n])
  {
    var t := TrimEnd(s);
    var n := RoleSuffixLength(t);
    if n == 0 then s
    else
      var u := t[..|t| - n];
      assert |u| < |s| && u == s[..|u|];
      TrimEnd(u)
  }

  /** Only one suffix goes per call: a name with two stacked suffixes keeps the inner one. */
  lemma StackedSuffixesNeedTwoStrips()
    ensures StripRoleSuffix("a(dl)(dl)") == "a(dl)"
    ensures StripRoleSuffix(StripRoleSuffix("a(dl)(dl)")) == "a"
  {
    assert TrimEnd("a(dl)(dl)") == "a(dl)(dl)";
    assert EndsWith("a(dl)(dl)", "(dl)") && !EndsWith("a(dl)(dl)", "(usher)");
    assert "a(dl)(dl)"[..5] == "a(dl)";
    assert TrimEnd("a(dl)") == "a(dl)";
    assert EndsWith("a(dl)", "(dl)") && !EndsWith("a(dl)", "(usher)");
    assert "a(dl)"[..1] == "a";
    assert TrimEnd("a") == "a";
  }

  lemma PrefixKeepsNoDoubleWhite(s: string, r: string)
    requires NoDoubleWhite(s) && |r| <= |s| && r == s[..|r|]
    ensures NoDoubleWhite(r)
  {
    forall i
      ensures !DoubleWhiteAt(r, i)
    {
      assert !DoubleWhiteAt(s, i);
      if 0 <= i < |r| - 1 {
        assert r[i] == s[i] && r[i + 1] == s[i + 1];
      }
    }
  }

  lemma LoweredHasNoUpper(s: string)
    ensures forall x :: x in RemoveChar(Lower(s), '.') ==> !IsUpper(x)
  {
    var lowered := Lower(s);
    RemoveCharFacts(lowered, '.');
    forall x | x in RemoveChar(lowered, '.') ensures !IsUpper(x) {
      assert x in lowered;
      var i :| 0 <= i < |lowered| && lowered[i] == x;
    }
  }

  /**
   * `CleanUserName`: lower-case, delete periods, collapse white space to single
   * blanks, drop a trailing role suffix, and trim.
   */
  function CleanUserName(s: string): string {
    Trim(StripRoleSuffix(CollapseWhite(RemoveChar(Lower(s), '.'))))
  }

  /** A cleaned name has no period and no upper-case letter, single blanks only, and no white space at either end. */
  lemma CleanUserNameFacts(s: string)
    ensures var r := CleanUserName(s);
      '.' !in r && (forall i :: 0 <= i < |r| ==> !IsUpper(r[i]))
      && NoDoubleWhite(r) && (r == [] || (!IsWhite(r[0]) && !IsWhite(r[|r| - 1])))
  {
    StrippedFacts(s);
    TrimClean(StripRoleSuffix(CollapseWhite(RemoveChar(Lower(s), '.'))));
  }

  /** Trimming keeps a name free of periods, upper-case letters and double blanks, and clears its ends. */
  lemma TrimClean(t: string)
    requires (forall x :: x in t ==> x != '.' && !IsUpper(x)) && NoDoubleWhite(t)
    ensures var r := Trim(t);
      '.' !in r && (forall i :: 0 <= i < |r| ==> !IsUpper(r[i]))
      && NoDoubleWhite(r) && (r == [] || (!IsWhite(r[0]) && !IsWhite(r[|r| - 1])))
  {
    TrimKeeps(t);
    var r := Trim(t);
    forall i | 0 <= i < |r| ensures r[i] != '.' && !IsUpper(r[i]) {
      assert r[i] in t;
    }
  }

  /** The name before the trim already has no period, no upper-case letter and single blanks only. */
  lemma StrippedFacts(s: string)
    ensures var stripped := StripRoleSuffix(CollapseWhite(RemoveChar(Lower(s), '.')));
      (forall x :: x in stripped ==> x != '.' && !IsUpper(x)) && NoDoubleWhite(stripped)
  {
    var noDots := RemoveChar(Lower(s), '.');
    var collapsed := CollapseWhite(noDots);
    var stripped := StripRoleSuffix(collapsed);
    RemoveCharFacts(Lower(s), '.');
    CollapseWhiteFacts(noDots);
    PrefixKeepsNoDoubleWhite(collapsed, stripped);
    LoweredHasNoUpper(s);
    forall x | x in stripped ensures x != '.' && !IsUpper(x) {
      var i :| 0 <= i < |stripped| && stripped[i] == x;
      assert collapsed[i] == x;
    }
  }

  /** A roster line, trimmed, that ends in `^` names an administrator. */
  predicate IsAdminLine(line: string) {
    EndsWith(Trim(line), "^")
  }

  /** The `|`-separated names of a roster line, before normalisation. */
  function LineNames(line: string): seq<string> {
    var t := Trim(line);
    if t == [] then [] else SplitOn(if EndsWith(t, "^") then TrimEndChar(t, '^') else t, '|')
  }

  /** `CleanUserName` applied to each name. */
  function CleanAll(names: seq<string>): seq<string> {
    seq(|names|, j requires 0 <= j < |names| => CleanUserName(names[j]))
  }

  /** A roster line after parsing: its normalised names and whether it is an administrator line. */
  datatype RosterLine = RosterLine(aliases: seq<string>, admin: bool)

  /** The parse of one roster line. */
  function ParseLine(line: string): (e: RosterLine)
    ensures e.admin <==> IsAdminLine(line)
    ensures |e.aliases| == |LineNames(line)|
    ensures forall j :: 0 <= j < |e.aliases| ==> e.aliases[j] == CleanUserName(LineNames(line)[j])
  {
    RosterLine(CleanAll(LineNames(line)), IsAdminLine(line))
  }

  /** The parse of every roster line. */
  function ParseAll(lines: seq<string>): seq<RosterLine> {
    seq(|lines|, i requires 0 <= i < |lines| => ParseLine(lines[i]))
  }

  /** `k` is a non-empty alias on parsed line `e`. */
  predicate Lists(e: RosterLine, k: string) {
    k != [] && k in e.aliases
  }

  /** One normalised alias added to the roster: a new entry, or the administrator flag or-ed into an old one. */
  function AddName(d: map<string, bool>, c: string, admin: bool): map<string, bool> {
    if c == [] then d
    else if c in d then d[c := d[c] || admin]
    else d[c := admin]
  }

  /** The normalised aliases `cleaned` added to `d` one after the other. */
  function AddNames(d: map<string, bool>, cleaned: seq<string>, admin: bool): map<string, bool>
    decreases |cleaned|
  {
    if cleaned == [] then d
    else AddName(AddNames(d, cleaned[..|cleaned| - 1], admin), cleaned[|cleaned| - 1], admin)
  }

  /** The roster after reading the parsed lines `es` in order into an empty map. */
  function Directory(es: seq<RosterLine>): map<string, bool>
    decreases |es|
  {
    if es == [] then map[]
    else
      var e := es[|es| - 1];
      AddNames(Directory(es[..|es| - 1]), e.aliases, e.admin)
  }

  /** The aliases of one line entered into the roster, one after the other. */
  method AddAliases(users0: map<string, bool>, cleaned: seq<string>, admin: bool) returns (users: map<string, bool>)
    ensures users == AddNames(users0, cleaned, admin)
  {
    users := users0;
    var j := 0;
    while j < |cleaned|
      invariant 0 <= j <= |cleaned|
      invariant users == AddNames(users0, cleaned[..j], admin)
    {
      var clean := cleaned[j];
      if clean != [] {
        if clean in users {
          users := users[clean := users[clean] || admin];
        } else {
          users := users[clean := admin];
        }
      }
      assert cleaned[..j + 1][..j] == cleaned[..j];
      j := j + 1;
    }
    assert cleaned[..j] == cleaned;
  }

  /** The body of `LoadGoodUsers`'s read loop: one roster line added alias by alias. */
  method AddLine(users0: map<string, bool>, raw: string) returns (users: map<string, bool>)
    ensures users == AddNames(users0, ParseLine(raw).aliases, ParseLine(raw).admin)
  {
    var line := Trim(raw);
    if line == [] {
      return users0;
    }
    var admin := EndsWith(line, "^");
    if admin {
      line := TrimEndChar(line, '^');
    }
    var names := SplitOn(line, '|');
    assert names == LineNames(raw);
    users := AddAliases(users0, CleanAll(names), admin);
  }

  /** `good_users.txt` when it exists: its last write time and its lines. */
  datatype GoodUsersFile = GoodUsersFile(lastWrite: int, lines: seq<string>)

  /** `GoodUsers.ContainsKey(CleanUserName(name))` */
  predicate IsKnown(users: map<string, bool>, name: string) {
    CleanUserName(name) in users
  }

  /** `GoodUsers.TryGetValue(CleanUserName(name), out bool admin) && admin` */
  predicate IsAdmin(users: map<string, bool>, name: string) {
    CleanUserName(name) in users && users[CleanUserName(name)]
  }

  /**
   * `LoadGoodUsers` after its file checks: the roster is cleared and rebuilt
   * line by line.
   */
  method BuildDirectory(lines: seq<string>) returns (users: map<string, bool>)
    ensures users == Directory(ParseAll(lines))
  {
    ghost var es := ParseAll(lines);
    assert |es| == |lines|;
    users := map[];
    var i := 0;
    while i < |lines|
      invariant 0 <= i <= |lines|
      invariant users == Directory(es[..i])
    {
      ghost var before := users;
      users := AddLine(users, lines[i]);
      assert es[i] == ParseLine(lines[i]);
      DirectoryStep(es, i);
      assert users == AddNames(before, es[i].aliases, es[i].admin);
      i := i + 1;
    }
    assert es[..i] == es;
  }

  lemma DirectoryStep(es: seq<RosterLine>, i: nat)
    requires i < |es|
    ensures Directory(es[..i + 1]) == AddNames(Directory(es[..i]), es[i].aliases, es[i].admin)
  {
    assert es[..i + 1][..i] == es[..i];
  }

  /** One alias: the old entries stay, it is added if non-empty, and the flag is or-ed in. */
  lemma AddNameEffect(d: map<string, bool>, c: string, admin: bool, k: string)
    ensures var r := AddName(d, c, admin);
      (k in r <==> k in d || (c != [] && k == c))
      && (k in r ==> (r[k] <==> (k in d && d[k]) || (admin && c != [] && k == c)))
  {
  }

  /** Adding aliases keeps old entries, adds exactly the non-empty ones, and ors the flag in. */
  lemma {:induction false} AddNamesEffect(d: map<string, bool>, cleaned: seq<string>, admin: bool, k: string)
    ensures var r := AddNames(d, cleaned, admin);
      (k in r <==> k in d || (k != [] && k in cleaned))
      && (k in r ==> (r[k] <==> (k in d && d[k]) || (admin && k != [] && k in cleaned)))
    decreases |cleaned|
  {
    if cleaned != [] {
      var init := cleaned[..|cleaned| - 1];
      AddNamesEffect(d, init, admin, k);
      AddNameEffect(AddNames(d, init, admin), cleaned[|cleaned| - 1], admin, k);
      assert cleaned == init + [cleaned[|cleaned| - 1]];
    }
  }

  /** A name is on the roster exactly when some line lists it as a non-empty alias. */
  lemma {:induction false} DirectoryKeys(es: seq<RosterLine>, k: string)
    ensures k in Directory(es) <==> exists i :: 0 <= i < |es| && Lists(es[i], k)
    decreases |es|
  {
    if es != [] {
      var init := es[..|es| - 1];
      var e := es[|es| - 1];
      DirectoryKeys(init, k);
      AddNamesEffect(Directory(init), e.aliases, e.admin, k);
      if k in Directory(init) {
        var i :| 0 <= i < |init| && Lists(init[i], k);
        assert init[i] == es[i];
      }
      if exists i :: 0 <= i < |es| && Lists(es[i], k) {
        var i :| 0 <= i < |es| && Lists(es[i], k);
        if i < |init| {
          assert init[i] == es[i];
        }
      }
    }
  }

  /** A roster entry is an administrator exactly when some administrator line lists it. */
  lemma {:induction false} DirectoryAdmin(es: seq<RosterLine>, k: string)
    requires k in Directory(es)
    ensures Directory(es)[k] <==> exists i :: 0 <= i < |es| && Lists(es[i], k) && es[i].admin
    decreases |es|
  {
    var init := es[..|es| - 1];
    var e := es[|es| - 1];
    AddNamesEffect(Directory(init), e.aliases, e.admin, k);
    if k in Directory(init) {
      DirectoryAdmin(init, k);
      if Directory(init)[k] {
        var i :| 0 <= i < |init| && Lists(init[i], k) && init[i].admin;
        assert init[i] == es[i];
      }
    } else {
      DirectoryKeys(init, k);
    }
    if exists i :: 0 <= i < |es| && Lists(es[i], k) && es[i].admin {
      var i :| 0 <= i < |es| && Lists(es[i], k) && es[i].admin;
      if i < |init| {
        assert init[i] == es[i];
      }
    }
  }

  /** Every roster key is a non-empty normalised form of a name on some line. */
  lemma DirectoryKeysAreClean(lines: seq<string>, k: string)
    requires k in Directory(ParseAll(lines))
    ensures k != [] && exists i, j :: 0 <= i < |lines| && 0 <= j < |LineNames(lines[i])| && CleanUserName(LineNames(lines[i])[j]) == k
  {
    var es := ParseAll(lines);
    DirectoryKeys(es, k);
    var i :| 0 <= i < |es| && Lists(es[i], k);
    var j :| 0 <= j < |es[i].aliases| && es[i].aliases[j] == k;
    assert es[i] == ParseLine(lines[i]);
  }

  lemma {:induction false} LowerRemovePeriods(s: string)
    ensures Lower(RemoveChar(s, '.')) == RemoveChar(Lower(s), '.')
  {
    if s != [] {
      LowerRemovePeriods(s[1..]);
      assert Lower(s)[1..] == Lower(s[1..]);
      var head := if s[0] == '.' then [] else [s[0]];
      assert RemoveChar(s, '.') == head + RemoveChar(s[1..], '.');
      assert Lower(head + RemoveChar(s[1..], '.')) == Lower(head) + Lower(RemoveChar(s[1..], '.')) by {
        LowerAppend(head, RemoveChar(s[1..], '.'));
      }
    }
  }

  lemma {:induction false} LowerAppend(a: string, b: string)
    ensures Lower(a + b) == Lower(a) + Lower(b)
    decreases |a|
  {
    if a == [] {
      assert a + b == b;
    } else {
      assert (a + b)[0] == a[0];
      assert (a + b)[1..] == a[1..] + b;
      LowerAppend(a[1..], b);
    }
  }

  /** Names that differ only in letter case get the same roster key. */
  lemma CleanIgnoresCase(s: string)
    ensures CleanUserName(Upper(s)) == CleanUserName(s)
    ensures CleanUserName(Lower(s)) == CleanUserName(s)
  {
    LowerUpper(s);
  }

  /** Names that differ only in periods get the same roster key. */
  lemma CleanIgnoresPeriods(s: string)
    ensures CleanUserName(RemoveChar(s, '.')) == CleanUserName(s)
  {
    LowerRemovePeriods(s);
    RemoveTwice(Lower(s), '.');
  }

  lemma {:induction false} RemoveTwice(s: string, c: char)
    ensures RemoveChar(RemoveChar(s, c), c) == RemoveChar(s, c)
  {
    if s != [] {
      RemoveTwice(s[1..], c);
      var head := if s[0] == c then [] else [s[0]];
      RemoveAppend(head, RemoveChar(s[1..], c), c);
    }
  }

  lemma {:induction false} RemoveAppend(a: string, b: string, c: char)
    ensures RemoveChar(a + b, c) == RemoveChar(a, c) + RemoveChar(b, c)
    decreases |a|
  {
    if a == [] {
      assert a + b == b;
    } else {
      assert (a + b)[0] == a[0];
      assert (a + b)[1..] == a[1..] + b;
      RemoveAppend(a[1..], b, c);
    }
  }
}
