/**
 * String helpers with the exact behaviour of the JavaScript and Python
 * built-ins the repository calls: trimming, `split` on a character or on a
 * pattern, `join`, and substring search.
 */
module Text {
  import opened Wrappers

  /** The characters `String.prototype.trim` and `parseInt` skip: ECMAScript WhiteSpace and LineTerminator. */
  predicate IsJsSpace(c: char) {
    c == ' ' || c == '\t' || c == '\n' || c == '\r' || c == '\U{B}' || c == '\U{C}'
    || c == '\U{A0}' || c == '\U{1680}' || ('\U{2000}' <= c <= '\U{200A}')
    || c == '\U{2028}' || c == '\U{2029}' || c == '\U{202F}' || c == '\U{205F}'
    || c == '\U{3000}' || c == '\U{FEFF}'
  }

  /** The characters Python's `str.strip()` removes (those for which `str.isspace()` holds). */
  predicate IsPySpace(c: char) {
    c == ' ' || ('\t' <= c <= '\r') || ('\U{1C}' <= c <= '\U{1F}') || c == '\U{85}'
    || c == '\U{A0}' || c == '\U{1680}' || ('\U{2000}' <= c <= '\U{200A}')
    || c == '\U{2028}' || c == '\U{2029}' || c == '\U{202F}' || c == '\U{205F}'
    || c == '\U{3000}'
  }

  /** `s` with its leading `ws` characters removed. */
  function TrimStart(s: string, ws: char -> bool): (r: string)
    ensures |r| <= |s|
    ensures r != [] ==> !ws(r[0])
    decreases |s|
  {
    if |s| > 0 && ws(s[0]) then TrimStart(s[1..], ws) else s
  }

  /** What `TrimStart` removes is a run of `ws` characters, and what it keeps is the rest. */
  lemma {:induction false} TrimStartShape(s: string, ws: char -> bool)
    ensures var r := TrimStart(s, ws);
      r == s[|s| - |r|..] && forall i :: 0 <= i < |s| - |r| ==> ws(s[i])
    decreases |s|
  {
    if |s| > 0 && ws(s[0]) {
      TrimStartShape(s[1..], ws);
    }
  }

  /** `s` with its trailing `ws` characters removed. */
  function TrimEnd(s: string, ws: char -> bool): (r: string)
    ensures |r| <= |s|
    ensures r != [] ==> !ws(r[|r| - 1])
    decreases |s|
  {
    if |s| > 0 && ws(s[|s| - 1]) then TrimEnd(s[..|s| - 1], ws) else s
  }

  /** What `TrimEnd` removes is a run of `ws` characters, and what it keeps is the rest. */
  lemma {:induction false} TrimEndShape(s: string, ws: char -> bool)
    ensures var r := TrimEnd(s, ws);
      r == s[..|r|] && forall i :: |r| <= i < |s| ==> ws(s[i])
    decreases |s|
  {
    if |s| > 0 && ws(s[|s| - 1]) {
      TrimEndShape(s[..|s| - 1], ws);
    }
  }

  /** `s` with whitespace removed at both ends. */
  function Trim(s: string, ws: char -> bool): string {
    TrimStart(TrimEnd(s, ws), ws)
  }

  /** `r` sits at offset `i` of `s` with only `ws` characters before and after it. */
  predicate Surrounded(s: string, r: string, i: int, ws: char -> bool) {
    0 <= i <= |s| - |r| && r == s[i..i + |r|]
    && (forall k :: 0 <= k < i ==> ws(s[k]))
    && (forall k :: i + |r| <= k < |s| ==> ws(s[k]))
  }

  /**
   * The trim is the part of `s` between a leading and a trailing run of
   * `ws` characters, and it neither starts nor ends with one.
   */
  lemma TrimSpec(s: string, ws: char -> bool)
    ensures var r := Trim(s, ws);
      r != [] ==> !ws(r[0]) && !ws(r[|r| - 1])
    ensures exists i :: Surrounded(s, Trim(s, ws), i, ws)
  {
    var e := TrimEnd(s, ws);
    var r := TrimStart(e, ws);
    TrimEndShape(s, ws);
    TrimStartShape(e, ws);
    var i := |e| - |r|;
    assert r == s[i..i + |r|];
    assert forall k :: 0 <= k < i ==> e[k] == s[k];
    assert Surrounded(s, r, i, ws);
  }

  /** Every character of a trim comes from the trimmed string. */
  lemma TrimFrom(s: string, ws: char -> bool)
    ensures forall c :: c in Trim(s, ws) ==> c in s
  {
    var e := TrimEnd(s, ws);
    TrimEndShape(s, ws);
    TrimStartShape(e, ws);
    assert forall c :: c in Trim(s, ws) ==> c in e;
  }

  /** A string that already has no whitespace at either end is its own trim. */
  lemma TrimKeeps(s: string, ws: char -> bool)
    requires s != [] ==> !ws(s[0]) && !ws(s[|s| - 1])
    ensures Trim(s, ws) == s
  {
  }

  /** Trailing whitespace never survives a trim. */
  lemma TrimIgnoresTrailing(s: string, c: char, ws: char -> bool)
    requires ws(c)
    ensures Trim(s + [c], ws) == Trim(s, ws)
  {
    assert (s + [c])[..|s|] == s;
  }

  /** Trimming is idempotent. */
  lemma TrimTwice(s: string, ws: char -> bool)
    ensures Trim(Trim(s, ws), ws) == Trim(s, ws)
  {
    TrimSpec(s, ws);
    TrimKeeps(Trim(s, ws), ws);
  }

  /** Index of the first `c` in `s`. */
  function IndexOfChar(s: string, c: char): (i: nat)
    requires c in s
    ensures i < |s| && s[i] == c && c !in s[..i]
  {
    if s[0] == c then 0
    else
      var j := IndexOfChar(s[1..], c);
      assert s[..j + 1] == [s[0]] + s[1..][..j];
      j + 1
  }

  /** `s.split(sep)` for a one-character separator, in JavaScript and in Python alike. */
  function Split(s: string, sep: char): (parts: seq<string>)
    ensures |parts| > 0
    ensures forall i :: 0 <= i < |parts| ==> sep !in parts[i]
    decreases |s|
  {
    if sep !in s then [s]
    else
      var i := IndexOfChar(s, sep);
      [s[..i]] + Split(s[i + 1..], sep)
  }

  /** `parts.join(sep)`. */
  function Join(parts: seq<string>, sep: string): string
  {
    if |parts| == 0 then ""
    else if |parts| == 1 then parts[0]
    else parts[0] + sep + Join(parts[1..], sep)
  }

  /** Joining the pieces of a split with the separator gives back the string. */
  lemma {:induction false} JoinSplit(s: string, sep: char)
    ensures Join(Split(s, sep), [sep]) == s
    decreases |s|
  {
    if sep in s {
      var i := IndexOfChar(s, sep);
      var rest := Split(s[i + 1..], sep);
      JoinSplit(s[i + 1..], sep);
      SplitAt(s, sep, i);
      JoinCons(s[..i], rest, [sep]);
      Around(s, i);
    }
  }

  /** Splitting a join of separator-free pieces gives back the pieces. */
  lemma {:induction false} SplitJoin(parts: seq<string>, sep: char)
    requires |parts| > 0
    requires forall i :: 0 <= i < |parts| ==> sep !in parts[i]
    ensures Split(Join(parts, [sep]), sep) == parts
    decreases |parts|
  {
    if |parts| > 1 {
      var p := parts[0];
      var rest := Join(parts[1..], [sep]);
      var s := p + [sep] + rest;
      assert parts == [p] + parts[1..];
      JoinCons(p, parts[1..], [sep]);
      assert s[|p|] == sep && s[..|p|] == p && s[|p| + 1..] == rest;
      SplitAt(s, sep, |p|);
      SplitJoin(parts[1..], sep);
    }
  }

  lemma JoinCons(p: string, rest: seq<string>, sep: string)
    requires |rest| > 0
    ensures Join([p] + rest, sep) == p + sep + Join(rest, sep)
  {
    assert ([p] + rest)[1..] == rest;
  }

  /** A split cuts at the first separator. */
  lemma SplitAt(s: string, sep: char, i: nat)
    requires i < |s| && s[i] == sep && sep !in s[..i]
    ensures Split(s, sep) == [s[..i]] + Split(s[i + 1..], sep)
  {
    var j := IndexOfChar(s, sep);
    assert forall k :: 0 <= k < i ==> s[..i][k] == s[k];
    assert forall k :: 0 <= k < j ==> s[..j][k] == s[k];
    assert j == i;
  }

  lemma Around(s: string, i: nat)
    requires i < |s|
    ensures s == s[..i] + [s[i]] + s[i + 1..]
  {
  }

  /** `pat` occurs in `s` at index `i`. */
  predicate OccursAt(s: string, pat: string, i: int) {
    0 <= i && i + |pat| <= |s| && s[i..i + |pat|] == pat
  }

  /** The first occurrence of `pat` in `s` at or after `from`. */
  function FindFrom(s: string, pat: string, from: nat): (r: Option<nat>)
    ensures r.Some? ==> from <= r.value && OccursAt(s, pat, r.value)
    ensures r.Some? ==> forall j :: from <= j < r.value ==> !OccursAt(s, pat, j)
    ensures r.None? ==> forall j :: from <= j ==> !OccursAt(s, pat, j)
    decreases |s| - from
  {
    if from + |pat| > |s| then None
    else if s[from..from + |pat|] == pat then Some(from)
    else FindFrom(s, pat, from + 1)
  }

  /** The first occurrence of `pat` in `s`. */
  function Find(s: string, pat: string): (r: Option<nat>)
    ensures r.Some? ==> OccursAt(s, pat, r.value) && forall j :: 0 <= j < r.value ==> !OccursAt(s, pat, j)
    ensures r.None? ==> forall j :: 0 <= j ==> !OccursAt(s, pat, j)
  {
    FindFrom(s, pat, 0)
  }

  /** Python's `pat in s` on strings. */
  predicate Contains(s: string, pat: string) {
    Find(s, pat).Some?
  }

  /** The text before the first `pat`, or all of `s`. */
  function BeforeFirst(s: string, pat: string): string {
    match Find(s, pat)
    case None => s
    case Some(i) => s[..i]
  }

  /** The text after the first `pat`. */
  function AfterFirst(s: string, pat: string): string
    requires Contains(s, pat)
  {
    var i := Find(s, pat).value;
    s[i + |pat|..]
  }

  /** Python's `s.split(sep)` for a non-empty separator. */
  function PySplit(s: string, sep: string): (parts: seq<string>)
    requires |sep| > 0
    ensures |parts| > 0 && parts[0] == BeforeFirst(s, sep)
    ensures Contains(s, sep) ==> |parts| > 1 && parts[1] == BeforeFirst(AfterFirst(s, sep), sep)
    ensures !Contains(s, sep) ==> parts == [s]
    decreases |s|
  {
    match Find(s, sep)
    case None => [s]
    case Some(i) => [s[..i]] + PySplit(s[i + |sep|..], sep)
  }

  /** Cutting at the first `pat` leaves no `pat` behind, so cutting again changes nothing. */
  lemma BeforeFirstTwice(s: string, pat: string)
    ensures BeforeFirst(BeforeFirst(s, pat), pat) == BeforeFirst(s, pat)
  {
    match Find(s, pat)
    case None =>
    case Some(i) =>
      var t := s[..i];
      if |pat| > 0 {
        forall j | 0 <= j
          ensures !OccursAt(t, pat, j)
        {
          if OccursAt(t, pat, j) {
            assert s[j..j + |pat|] == t[j..j + |pat|];
            assert OccursAt(s, pat, j);
          }
        }
      }
  }

  /** An occurrence inside a slice is an occurrence in the whole string. */
  lemma OccursInSlice(s: string, pat: string, a: nat, b: nat, j: int)
    requires a <= b <= |s| && OccursAt(s[a..b], pat, j)
    ensures OccursAt(s, pat, a + j)
  {
    var t := s[a..b];
    var u := t[j..j + |pat|];
    assert forall k :: 0 <= k < |pat| ==> u[k] == s[a + j..a + j + |pat|][k];
    assert s[a + j..a + j + |pat|] == u;
  }

  /** The first occurrence is the one with no occurrence before it. */
  lemma FindIs(s: string, pat: string, k: nat)
    requires OccursAt(s, pat, k) && forall j :: 0 <= j < k ==> !OccursAt(s, pat, j)
    ensures Find(s, pat) == Some(k)
  {
  }

  /** The text before the first `pat` holds no `pat`. */
  lemma BeforeFirstFree(s: string, pat: string)
    requires |pat| > 0
    ensures !Contains(BeforeFirst(s, pat), pat)
  {
    BeforeFirstTwice(s, pat);
  }

  /** Trimming a text without `pat` leaves a text without `pat`. */
  lemma TrimFree(s: string, pat: string, ws: char -> bool)
    requires !Contains(s, pat)
    ensures !Contains(Trim(s, ws), pat)
  {
    TrimSpec(s, ws);
    var r := Trim(s, ws);
    var i :| Surrounded(s, r, i, ws);
    if Contains(r, pat) {
      OccursInSlice(s, pat, i, i + |r|, Find(r, pat).value);
    }
  }
}
