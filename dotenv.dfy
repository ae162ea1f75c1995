/**
 * The settings text codec of the front end: `parseDotEnv` and
 * `stringifyDotEnv` (gui/src/utils/TwitchHandler.tsx). A settings object is
 * a plain JavaScript object, modelled by its own entries in the order
 * `Object.entries` lists them: array-index keys first, in ascending numeric
 * order, then every other key in the order it was first assigned.
 * Assigning to a key that is already there keeps its place, and assigning
 * a string to `__proto__` goes to the prototype setter, which ignores it.
 */
module DotEnv {
  import opened Wrappers
  import opened Text
  import opened Js

  datatype Entry = Entry(key: string, value: string)

  type Env = seq<Entry>

  predicate HasKey(env: Env, key: string) {
    exists i :: 0 <= i < |env| && env[i].key == key
  }

  predicate DistinctKeys(env: Env) {
    forall i, j :: 0 <= i < j < |env| ==> env[i].key != env[j].key
  }

  /** The key `Object.prototype` answers with an accessor, so it never becomes an own key. */
  const ProtoKey := "__proto__"

  /** The largest array index, 2^32 - 2. */
  const MaxIndex := 0xFFFF_FFFE

  predicate IsDigit(c: char) {
    '0' <= c <= '9'
  }

  /** Strict lexicographic order on UTF-16 code units. */
  predicate LexBelow(a: string, b: string)
    decreases |a|
  {
    0 < |a| && 0 < |b| && (a[0] < b[0] || (a[0] == b[0] && LexBelow(a[1..], b[1..])))
  }

  /**
   * An array index: the numeral, without leading zeros, of an integer
   * from 0 to 2^32 - 2.
   */
  predicate IsIndexKey(k: string) {
    0 < |k| && (forall i :: 0 <= i < |k| ==> IsDigit(k[i]))
    && (k[0] == '0' ==> |k| == 1)
    && DigitsValue(k, 10) <= MaxIndex
  }

  /** Shorter numerals first, numerals of one length by their digits: numeric order on numerals without leading zeros. */
  predicate IndexBefore(a: string, b: string) {
    |a| < |b| || (|a| == |b| && LexBelow(a, b))
  }

  /** `x` may stand before `y`: only an index below it stands before an index. */
  predicate Ordered(x: Entry, y: Entry) {
    IsIndexKey(y.key) ==> IsIndexKey(x.key) && IndexBefore(x.key, y.key)
  }

  /** Every array index comes before every other key, and the indices ascend. */
  predicate Canonical(env: Env) {
    forall i, j :: 0 <= i < j < |env| ==> Ordered(env[i], env[j])
  }

  /** Where `key` stands in `env`, scanning from the front. */
  function KeyIndex(env: Env, key: string): (r: Option<nat>)
    ensures r.None? <==> !HasKey(env, key)
    ensures r.Some? ==> r.value < |env| && env[r.value].key == key
    ensures r.Some? ==> forall j :: 0 <= j < r.value ==> env[j].key != key
  {
    if env == [] then None
    else if env[0].key == key then Some(0)
    else
      var r := KeyIndex(env[1..], key);
      assert HasKey(env, key) ==> HasKey(env[1..], key) by {
        if HasKey(env, key) {
          var i :| 0 <= i < |env| && env[i].key == key;
          assert env[1..][i - 1].key == key;
        }
      }
      if r.None? then None else Some(r.value + 1)
  }

  /** `env[key]` for an own key, `undefined` being `None`. */
  function Get(env: Env, key: string): (r: Option<string>)
    ensures r.Some? <==> HasKey(env, key)
    ensures r.Some? ==> Entry(key, r.value) in env
  {
    match KeyIndex(env, key)
    case None => None
    case Some(i) => Some(env[i].value)
  }

  /** How many leading entries are array indices below `key`: where a new index `key` goes. */
  function Slot(env: Env, key: string): (p: nat)
    ensures p <= |env|
    ensures forall q :: 0 <= q < p ==> IsIndexKey(env[q].key) && IndexBefore(env[q].key, key)
    ensures p < |env| ==> !(IsIndexKey(env[p].key) && IndexBefore(env[p].key, key))
  {
    if env == [] || !IsIndexKey(env[0].key) || !IndexBefore(env[0].key, key) then 0
    else 1 + Slot(env[1..], key)
  }

  /**
   * `env[key] = value` on a plain object: `__proto__` is left alone, an
   * existing key keeps its place, a new array index goes just after the
   * indices below it and any other new key goes last.
   */
  function Put(env: Env, key: string, value: string): (r: Env)
    ensures key == ProtoKey ==> r == env
    ensures key != ProtoKey && HasKey(env, key) ==>
      |r| == |env| &&
      forall i :: 0 <= i < |env| ==> r[i].key == env[i].key && (r[i] == env[i] || r[i] == Entry(key, value))
    ensures key != ProtoKey && !HasKey(env, key) && !IsIndexKey(key) ==> r == env + [Entry(key, value)]
    ensures key != ProtoKey && !HasKey(env, key) && IsIndexKey(key) ==>
      var p := Slot(env, key); r == env[..p] + [Entry(key, value)] + env[p..]
    ensures !IsIndexKey(key) ==> |env| <= |r| <= |env| + 1 && forall i :: 0 <= i < |env| ==> r[i].key == env[i].key
    ensures DistinctKeys(env) ==> DistinctKeys(r)
    ensures Canonical(env) ==> Canonical(r)
  {
    if key == ProtoKey then env
    else
      match KeyIndex(env, key)
      case Some(i) => env[i := Entry(key, value)]
      case None =>
        if !IsIndexKey(key) then env + [Entry(key, value)]
        else
          var p := Slot(env, key);
          InsertDistinct(env, p, Entry(key, value));
          if Canonical(env) then
            InsertCanonical(env, Entry(key, value));
            env[..p] + [Entry(key, value)] + env[p..]
          else env[..p] + [Entry(key, value)] + env[p..]
  }

  /** A new key inserted anywhere keeps the keys distinct. */
  lemma InsertDistinct(env: Env, p: nat, e: Entry)
    requires p <= |env| && !HasKey(env, e.key)
    ensures DistinctKeys(env) ==> DistinctKeys(env[..p] + [e] + env[p..])
  {
    var r := env[..p] + [e] + env[p..];
    assert forall i :: 0 <= i < p ==> r[i] == env[i];
    assert r[p] == e;
    assert forall i :: p < i < |r| ==> r[i] == env[i - 1];
  }

  /** A new array index at its slot keeps the object in `Object.entries` order. */
  lemma InsertCanonical(env: Env, e: Entry)
    requires Canonical(env) && !HasKey(env, e.key) && IsIndexKey(e.key)
    ensures Canonical(env[..Slot(env, e.key)] + [e] + env[Slot(env, e.key)..])
  {
    var p := Slot(env, e.key);
    var r := env[..p] + [e] + env[p..];
    forall i, j | 0 <= i < j < |r|
      ensures Ordered(r[i], r[j])
    {
      if j < p {
        assert r[i] == env[i] && r[j] == env[j];
      } else if j == p {
        assert r[i] == env[i] && r[j] == e;
      } else if i < p {
        assert r[i] == env[i] && r[j] == env[j - 1];
      } else if i == p {
        assert r[i] == e && r[j] == env[j - 1];
        AfterSlot(env, e, j - 1);
      } else {
        assert r[i] == env[i - 1] && r[j] == env[j - 1];
      }
    }
  }

  /** Every entry from the slot on may follow the new index. */
  lemma AfterSlot(env: Env, e: Entry, k: nat)
    requires Canonical(env) && !HasKey(env, e.key) && IsIndexKey(e.key)
    requires Slot(env, e.key) <= k < |env|
    ensures Ordered(e, env[k])
  {
    var p := Slot(env, e.key);
    assert env[p].key != e.key;
    assert p == k || Ordered(env[p], env[k]);
    FollowsSlot(e, env[p], env[k], p == k);
  }

  /** The entry at the slot does not sort below the new index, and what follows it is ordered after it. */
  lemma FollowsSlot(e: Entry, first: Entry, later: Entry, same: bool)
    requires IsIndexKey(e.key) && first.key != e.key
    requires !(IsIndexKey(first.key) && IndexBefore(first.key, e.key))
    requires same ==> later == first
    requires !same ==> Ordered(first, later)
    ensures Ordered(e, later)
  {
    if IsIndexKey(later.key) {
      FollowsSlotKey(e.key, first.key, later.key);
    }
  }

  /** A key that does not sort below `b`, and differs from it, sorts below all that `b` sorts below. */
  lemma FollowsSlotKey(a: string, b: string, c: string)
    requires a != b && !IndexBefore(b, a) && (c == b || IndexBefore(b, c))
    ensures IndexBefore(a, c)
  {
    IndexTotal(a, b);
    if c != b {
      IndexTrans(a, b, c);
    }
  }

  lemma {:induction false} LexTotal(a: string, b: string)
    requires |a| == |b| && a != b
    ensures LexBelow(a, b) || LexBelow(b, a)
    decreases |a|
  {
    if a[0] == b[0] {
      assert a == [a[0]] + a[1..] && b == [b[0]] + b[1..];
      LexTotal(a[1..], b[1..]);
    }
  }

  lemma {:induction false} LexTrans(a: string, b: string, c: string)
    requires LexBelow(a, b) && LexBelow(b, c)
    ensures LexBelow(a, c)
    decreases |a|
  {
    if a[0] == b[0] && b[0] == c[0] {
      LexTrans(a[1..], b[1..], c[1..]);
    }
  }

  /** Two different keys are in order one way or the other. */
  lemma IndexTotal(a: string, b: string)
    requires a != b
    ensures IndexBefore(a, b) || IndexBefore(b, a)
  {
    if |a| == |b| {
      LexTotal(a, b);
    }
  }

  lemma IndexTrans(a: string, b: string, c: string)
    requires IndexBefore(a, b) && IndexBefore(b, c)
    ensures IndexBefore(a, c)
  {
    if |a| == |b| == |c| {
      LexTrans(a, b, c);
    }
  }

  // Index order is numeric order

  function Pow10(n: nat): (r: nat)
    ensures r >= 1
  {
    if n == 0 then 1 else 10 * Pow10(n - 1)
  }

  lemma {:induction false} Pow10Grows(m: nat, n: nat)
    requires m <= n
    ensures Pow10(m) <= Pow10(n)
    decreases n
  {
    if m < n {
      Pow10Grows(m, n - 1);
    }
  }

  predicate Numeral(s: string) {
    forall i :: 0 <= i < |s| ==> IsDigit(s[i])
  }

  /** A numeral of `n` digits stands for less than 10^n. */
  lemma {:induction false} DigitsBound(s: string)
    requires Numeral(s)
    ensures DigitsValue(s, 10) < Pow10(|s|)
    decreases |s|
  {
    if s != [] {
      var init := s[..|s| - 1];
      DigitsBound(init);
      assert DigitValue(s[|s| - 1], 10).GetOr(0) < 10;
    }
  }

  /** The leading digit of a numeral counts `10^(n-1)` times. */
  lemma {:induction false} DigitsHead(s: string)
    requires s != [] && Numeral(s)
    ensures DigitsValue(s, 10) == (s[0] as nat - '0' as nat) * Pow10(|s| - 1) + DigitsValue(s[1..], 10)
    decreases |s|
  {
    if |s| == 1 {
      assert s[..0] == [] && s[1..] == [];
    } else {
      var init := s[..|s| - 1];
      DigitsHead(init);
      assert init[0] == s[0];
      assert init[1..] == s[1..][..|s[1..]| - 1];
      assert s[1..][|s[1..]| - 1] == s[|s| - 1];
      HeadStep(s[0] as nat - '0' as nat, Pow10(|s| - 2), DigitsValue(init[1..], 10),
               DigitValue(s[|s| - 1], 10).GetOr(0));
    }
  }

  lemma HeadStep(d: nat, p: nat, rest: nat, last: nat)
    ensures (d * p + rest) * 10 + last == d * (10 * p) + (rest * 10 + last)
  {
  }

  /** Of two numerals of one length, the one whose digits come first lexicographically is smaller. */
  lemma {:induction false} LexValue(a: string, b: string)
    requires |a| == |b| && Numeral(a) && Numeral(b) && LexBelow(a, b)
    ensures DigitsValue(a, 10) < DigitsValue(b, 10)
    decreases |a|
  {
    DigitsHead(a);
    DigitsHead(b);
    if a[0] == b[0] {
      LexValue(a[1..], b[1..]);
    } else {
      DigitsBound(a[1..]);
      LeadingDigit(a[0] as nat - '0' as nat, b[0] as nat - '0' as nat,
                   DigitsValue(a[1..], 10), DigitsValue(b[1..], 10), Pow10(|a| - 1));
    }
  }

  lemma LeadingDigit(da: nat, db: nat, ra: nat, rb: nat, p: nat)
    requires da < db && ra < p
    ensures da * p + ra < db * p + rb
  {
    MulMono(da + 1, db, p);
  }

  lemma MulMono(x: nat, y: nat, p: nat)
    requires x <= y
    ensures x * p <= y * p
  {
  }

  /** A numeral without a leading zero stands for more than any shorter numeral. */
  lemma ShorterValue(a: string, b: string)
    requires |a| < |b| && Numeral(a) && Numeral(b) && b[0] != '0'
    ensures DigitsValue(a, 10) < DigitsValue(b, 10)
  {
    DigitsBound(a);
    DigitsHead(b);
    Pow10Grows(|a|, |b| - 1);
    MulMono(1, b[0] as nat - '0' as nat, Pow10(|b| - 1));
  }

  lemma IndexBeforeValue(a: string, b: string)
    requires IsIndexKey(a) && IsIndexKey(b) && IndexBefore(a, b)
    ensures DigitsValue(a, 10) < DigitsValue(b, 10)
  {
    if |a| < |b| {
      ShorterValue(a, b);
    } else {
      LexValue(a, b);
    }
  }

  /** On array indices, `IndexBefore` is ascending numeric order. */
  lemma IndexOrderNumeric(a: string, b: string)
    requires IsIndexKey(a) && IsIndexKey(b)
    ensures IndexBefore(a, b) <==> DigitsValue(a, 10) < DigitsValue(b, 10)
  {
    if IndexBefore(a, b) {
      IndexBeforeValue(a, b);
    } else if a != b {
      IndexTotal(a, b);
      IndexBeforeValue(b, a);
    }
  }

  lemma {:induction false} GetCons(env: Env, key: string)
    requires env != []
    ensures Get(env, key) == if env[0].key == key then Some(env[0].value) else Get(env[1..], key)
  {
  }

  /** A key is read from the first part that holds it. */
  lemma {:induction false} GetAppend(a: Env, b: Env, key: string)
    ensures Get(a + b, key) == if HasKey(a, key) then Get(a, key) else Get(b, key)
    decreases |a|
  {
    if a == [] {
      assert a + b == b;
    } else {
      assert (a + b)[1..] == a[1..] + b;
      GetCons(a + b, key);
      GetCons(a, key);
      GetAppend(a[1..], b, key);
      if a[0].key != key {
        assert HasKey(a, key) <==> HasKey(a[1..], key) by {
          if HasKey(a, key) {
            var i :| 0 <= i < |a| && a[i].key == key;
            assert a[1..][i - 1].key == key;
          }
          if HasKey(a[1..], key) {
            var i :| 0 <= i < |a[1..]| && a[1..][i].key == key;
            assert a[i + 1].key == key;
          }
        }
      }
    }
  }

  /** After `env[key] = value`, `env[key]` is `value`, unless `key` is `__proto__`. */
  lemma PutSame(env: Env, key: string, value: string)
    ensures Get(Put(env, key, value), key) == if key == ProtoKey then Get(env, key) else Some(value)
  {
    var r := Put(env, key, value);
    if key != ProtoKey {
      var k := KeyIndex(env, key);
      if k.Some? {
        assert r[k.value] == Entry(key, value);
        assert KeyIndex(r, key) == k;
      } else if !IsIndexKey(key) {
        assert r[|env|] == Entry(key, value);
        assert forall j :: 0 <= j < |env| ==> r[j] == env[j];
        assert KeyIndex(r, key) == Some(|env|);
      } else {
        InsertSame(env, Slot(env, key), Entry(key, value));
      }
    }
  }

  /** An entry for a new key inserted anywhere is what that key reads. */
  lemma InsertSame(env: Env, p: nat, e: Entry)
    requires p <= |env| && !HasKey(env, e.key)
    ensures Get(env[..p] + [e] + env[p..], e.key) == Some(e.value)
  {
    assert !HasKey(env[..p], e.key) by {
      forall i | 0 <= i < p ensures env[..p][i].key != e.key {
        assert env[..p][i] == env[i];
      }
    }
    GetAppend(env[..p] + [e], env[p..], e.key);
    GetAppend(env[..p], [e], e.key);
    GetCons([e], e.key);
    assert HasKey(env[..p] + [e], e.key) by {
      assert (env[..p] + [e])[p].key == e.key;
    }
  }

  /** `env[key] = value` leaves every other key as it was. */
  lemma PutOther(env: Env, key: string, value: string, other: string)
    requires other != key
    ensures Get(Put(env, key, value), other) == Get(env, other)
  {
    if key != ProtoKey {
      if HasKey(env, key) || !IsIndexKey(key) {
        KeysKeptOther(env, Put(env, key, value), other);
      } else {
        InsertOther(env, Slot(env, key), Entry(key, value), other);
      }
    }
  }

  /** Entries that keep their keys, with nothing new in front, read `other` the same. */
  lemma KeysKeptOther(env: Env, r: Env, other: string)
    requires |env| <= |r|
    requires forall i :: 0 <= i < |env| ==> r[i].key == env[i].key && (r[i] == env[i] || r[i].key != other)
    requires forall i :: |env| <= i < |r| ==> r[i].key != other
    ensures Get(r, other) == Get(env, other)
  {
    if KeyIndex(env, other).None? {
      assert KeyIndex(r, other).None?;
    } else {
      var i := KeyIndex(env, other).value;
      assert r[i] == env[i];
      assert KeyIndex(r, other) == Some(i);
    }
  }

  /** An entry for another key inserted anywhere does not change what `other` reads. */
  lemma InsertOther(env: Env, p: nat, e: Entry, other: string)
    requires p <= |env| && e.key != other
    ensures Get(env[..p] + [e] + env[p..], other) == Get(env, other)
  {
    assert env[..p] + [e] + env[p..] == env[..p] + ([e] + env[p..]);
    assert env == env[..p] + env[p..];
    GetAppend(env[..p], [e] + env[p..], other);
    GetAppend(env[..p], env[p..], other);
    GetCons([e] + env[p..], other);
    assert ([e] + env[p..])[1..] == env[p..];
  }

  /** `line.split(/\r?\n/)` removes a `\r` before each `\n`. */
  function DropCR(p: string): (r: string)
    ensures forall c :: c in r ==> c in p
  {
    if |p| > 0 && p[|p| - 1] == '\r' then p[..|p| - 1] else p
  }

  /** `contents.split(/\r?\n/)`. */
  function SplitLines(s: string): (lines: seq<string>)
    ensures |lines| > 0
    ensures forall i :: 0 <= i < |lines| ==> '\n' !in lines[i]
    decreases |s|
  {
    if '\n' !in s then [s]
    else
      var i := IndexOfChar(s, '\n');
      [DropCR(s[..i])] + SplitLines(s[i + 1..])
  }

  /** The filter `line && !line.startsWith("#")`: not blank, not a comment. */
  predicate IsSetting(line: string) {
    line != "" && line[0] != '#'
  }

  function Kept(lines: seq<string>): (r: seq<string>)
    ensures forall i :: 0 <= i < |r| ==> IsSetting(r[i]) && r[i] in lines
    ensures forall l :: l in r <==> l in lines && IsSetting(l)
    ensures |r| <= |lines|
  {
    if lines == [] then []
    else (if IsSetting(lines[0]) then [lines[0]] else []) + Kept(lines[1..])
  }

  lemma {:induction false} KeptAppend(a: seq<string>, b: seq<string>)
    ensures Kept(a + b) == Kept(a) + Kept(b)
  {
    if a != [] {
      assert (a + b)[1..] == a[1..] + b;
      KeptAppend(a[1..], b);
    } else {
      assert a + b == b;
    }
  }

  /** `const [key, ...rest] = line.split("=")`: the key. */
  function KeyOf(line: string): string {
    Split(line, '=')[0]
  }

  /** `rest.join("=").trim()`: the value. */
  function ValueOf(line: string): string {
    JsTrim(Join(Split(line, '=')[1..], "="))
  }

  /** The key is the text before the first `=` and the value is the rest, trimmed. */
  lemma KeyValueOf(line: string)
    ensures '=' !in line ==> KeyOf(line) == line && ValueOf(line) == JsTrim("")
    ensures '=' in line ==> var i := IndexOfChar(line, '=');
      KeyOf(line) == line[..i] && ValueOf(line) == JsTrim(line[i + 1..])
  {
    if '=' in line {
      var i := IndexOfChar(line, '=');
      var parts := Split(line, '=');
      SplitAt(line, '=', i);
      assert parts[0] == line[..i] && parts[1..] == Split(line[i + 1..], '=');
      JoinSplit(line[i + 1..], '=');
    } else {
      assert Split(line, '=')[1..] == [];
    }
  }

  /** The reducer `acc[key] = rest.join("=").trim()`. */
  function AddLine(acc: Env, line: string): Env {
    Put(acc, KeyOf(line), ValueOf(line))
  }

  function Fold(acc: Env, lines: seq<string>): Env
    decreases |lines|
  {
    if lines == [] then acc else Fold(AddLine(acc, lines[0]), lines[1..])
  }

  /** Everything `parseDotEnv` does after splitting the text into lines. */
  function ParseLines(lines: seq<string>): Env {
    Fold([], Kept(TrimAll(lines)))
  }

  /** `parseDotEnv(contents)`. */
  function ParseDotEnv(contents: string): Env {
    ParseLines(SplitLines(contents))
  }

  function Line(e: Entry): string {
    e.key + "=" + e.value
  }

  function Lines(env: Env): (r: seq<string>)
    ensures |r| == |env| && forall i :: 0 <= i < |env| ==> r[i] == Line(env[i])
  {
    seq(|env|, i requires 0 <= i < |env| => Line(env[i]))
  }

  /** `stringifyDotEnv(values)`: one `key=value` per entry, in entry order, joined by `\n`. */
  function StringifyDotEnv(env: Env): string {
    Join(Lines(env), "\n")
  }

  // ---------------------------------------------------------------------
  // Line endings, comments and blank lines

  lemma {:induction false} SplitLinesLf(ls: seq<string>)
    requires |ls| > 0
    requires forall i :: 0 <= i < |ls| ==> '\n' !in ls[i] && (ls[i] == [] || ls[i][|ls[i]| - 1] != '\r')
    ensures SplitLines(Join(ls, "\n")) == ls
    decreases |ls|
  {
    if |ls| > 1 {
      var p := ls[0];
      var rest := Join(ls[1..], "\n");
      var s := p + "\n" + rest;
      assert s[|p|] == '\n' && s[..|p|] == p;
      var i := IndexOfChar(s, '\n');
      assert s[..i] == p;
      assert s[i + 1..] == rest;
      SplitLinesLf(ls[1..]);
    }
  }

  lemma {:induction false} SplitLinesCrLf(ls: seq<string>)
    requires |ls| > 0
    requires forall i :: 0 <= i < |ls| ==> '\n' !in ls[i]
    ensures SplitLines(Join(ls, "\r\n")) == ls
    decreases |ls|
  {
    if |ls| > 1 {
      var p := ls[0];
      var rest := Join(ls[1..], "\r\n");
      var s := p + "\r\n" + rest;
      assert s[|p| + 1] == '\n' && s[..|p| + 1] == p + "\r";
      var i := IndexOfChar(s, '\n');
      assert s[..i] == p + "\r";
      assert DropCR(p + "\r") == p;
      assert s[i + 1..] == rest;
      SplitLinesCrLf(ls[1..]);
    }
  }

  /** Text whose lines end in `\r\n` parses like the same lines on their own. */
  lemma ParseAcceptsCrLf(ls: seq<string>)
    requires |ls| > 0
    requires forall i :: 0 <= i < |ls| ==> '\n' !in ls[i]
    ensures ParseDotEnv(Join(ls, "\r\n")) == ParseLines(ls)
  {
    SplitLinesCrLf(ls);
  }

  /** Text whose lines end in `\n` parses like the same lines on their own. */
  lemma ParseAcceptsLf(ls: seq<string>)
    requires |ls| > 0
    requires forall i :: 0 <= i < |ls| ==> '\n' !in ls[i] && (ls[i] == [] || ls[i][|ls[i]| - 1] != '\r')
    ensures ParseDotEnv(Join(ls, "\n")) == ParseLines(ls)
  {
    SplitLinesLf(ls);
  }

  /** A blank line or a comment (after trimming) changes nothing, wherever it stands. */
  lemma IgnoredLine(a: seq<string>, c: string, b: seq<string>)
    requires !IsSetting(JsTrim(c))
    ensures ParseLines(a + [c] + b) == ParseLines(a + b)
  {
    TrimAllSplice(a, c, b);
    TrimAllAppend(a, b);
    assert TrimAll([c]) == [JsTrim(c)];
    assert Kept(TrimAll([c])) == [];
    KeptSplice(TrimAll(a), TrimAll([c]), TrimAll(b));
  }

  lemma TrimAllSplice(a: seq<string>, c: string, b: seq<string>)
    ensures TrimAll(a + [c] + b) == TrimAll(a) + TrimAll([c]) + TrimAll(b)
  {
    TrimAllAppend(a + [c], b);
    TrimAllAppend(a, [c]);
  }

  lemma KeptSplice(a: seq<string>, c: seq<string>, b: seq<string>)
    requires Kept(c) == []
    ensures Kept(a + c + b) == Kept(a + b)
  {
    KeptAppend(a + c, b);
    KeptAppend(a, c);
    KeptAppend(a, b);
  }

  // ---------------------------------------------------------------------
  // Later keys win

  /** The value of the last line whose key is `key`. */
  function LastValue(lines: seq<string>, key: string): Option<string> {
    if lines == [] then None
    else if KeyOf(lines[|lines| - 1]) == key then Some(ValueOf(lines[|lines| - 1]))
    else LastValue(lines[..|lines| - 1], key)
  }

  lemma {:induction false} FoldSnoc(acc: Env, lines: seq<string>, l: string)
    ensures Fold(acc, lines + [l]) == AddLine(Fold(acc, lines), l)
    decreases |lines|
  {
    if lines != [] {
      assert (lines + [l])[1..] == lines[1..] + [l];
      FoldSnoc(AddLine(acc, lines[0]), lines[1..], l);
    }
  }

  lemma {:induction false} FoldLookup(acc: Env, lines: seq<string>, key: string)
    ensures Get(Fold(acc, lines), key) ==
      if key != ProtoKey && LastValue(lines, key).Some? then LastValue(lines, key) else Get(acc, key)
    decreases |lines|
  {
    if lines != [] {
      var init := lines[..|lines| - 1];
      assert lines == init + [lines[|lines| - 1]];
      var l := lines[|lines| - 1];
      FoldSnoc(acc, init, l);
      FoldLookup(acc, init, key);
      if KeyOf(l) == key {
        PutSame(Fold(acc, init), key, ValueOf(l));
      } else {
        PutOther(Fold(acc, init), KeyOf(l), ValueOf(l), key);
      }
    }
  }

  /** `parseDotEnv` gives each key the value of its last line, and never makes `__proto__` an own key. */
  lemma ParsedValue(contents: string, key: string)
    ensures Get(ParseDotEnv(contents), key) ==
      if key == ProtoKey then None else LastValue(Kept(TrimAll(SplitLines(contents))), key)
  {
    FoldLookup([], Kept(TrimAll(SplitLines(contents))), key);
  }

  // ---------------------------------------------------------------------
  // Round trip

  /** A key that reads back: no `=`, no line break, not starting with whitespace or `#`, not `__proto__`. */
  predicate StorableKey(k: string) {
    '=' !in k && '\n' !in k && (k != [] ==> !IsJsSpace(k[0]) && k[0] != '#') && k != ProtoKey
  }

  /** A value that reads back: no line break, no whitespace at either end. */
  predicate StorableValue(v: string) {
    '\n' !in v && (v != [] ==> !IsJsSpace(v[0]) && !IsJsSpace(v[|v| - 1]))
  }

  /** A storable value is its own trim. */
  lemma StorableTrimmed(v: string)
    requires StorableValue(v)
    ensures JsTrim(v) == v
  {
    TrimKeeps(v, IsJsSpace);
  }

  predicate StorableEntry(e: Entry) {
    StorableKey(e.key) && StorableValue(e.value)
  }

  /** A settings object that reads back: a plain object's own entries, each storable. */
  predicate Storable(env: Env) {
    DistinctKeys(env) && Canonical(env) && forall i :: 0 <= i < |env| ==> StorableEntry(env[i])
  }

  /** An object without array-index keys lists its keys in the order they were first assigned. */
  lemma NoIndexCanonical(env: Env)
    requires forall i :: 0 <= i < |env| ==> !IsIndexKey(env[i].key)
    ensures Canonical(env)
  {
  }

  /** `k=v` splits back into `k` and `v` when `k` has no `=`. */
  lemma LineSplit(k: string, v: string)
    requires '=' !in k
    ensures KeyOf(k + "=" + v) == k && Join(Split(k + "=" + v, '=')[1..], "=") == v
  {
    var l := k + "=" + v;
    assert l[|k|] == '=' && l[..|k|] == k;
    var i := IndexOfChar(l, '=');
    assert i == |k|;
    assert l[i + 1..] == v;
    assert Split(l, '=') == [k] + Split(v, '=');
    JoinSplit(v, '=');
  }

  lemma StorableLine(e: Entry)
    requires StorableKey(e.key) && StorableValue(e.value)
    ensures '\n' !in Line(e) && Line(e)[|Line(e)| - 1] != '\r'
    ensures JsTrim(Line(e)) == Line(e) && IsSetting(Line(e))
    ensures KeyOf(Line(e)) == e.key && ValueOf(Line(e)) == e.value
  {
    var l := Line(e);
    assert l[0] == if e.key == [] then '=' else e.key[0];
    assert l[|l| - 1] == if e.value == [] then '=' else e.value[|e.value| - 1];
    TrimKeeps(l, IsJsSpace);
    TrimKeeps(e.value, IsJsSpace);
    LineSplit(e.key, e.value);
  }

  /** Reading the lines of distinct storable entries rebuilds the entries. */
  lemma {:induction false} FoldFresh(m: Env)
    requires Storable(m)
    ensures Fold([], Lines(m)) == m
    decreases |m|
  {
    if m != [] {
      var init, last := m[..|m| - 1], m[|m| - 1];
      StorableSnoc(m);
      FoldFresh(init);
      LinesSnoc(init, last);
      FoldSnoc([], Lines(init), Line(last));
      FreshLine(init, last);
    }
  }

  lemma StorableSnoc(m: Env)
    requires m != [] && Storable(m)
    ensures Storable(m[..|m| - 1]) && StorableEntry(m[|m| - 1])
    ensures !HasKey(m[..|m| - 1], m[|m| - 1].key)
    ensures m == m[..|m| - 1] + [m[|m| - 1]]
  {
  }

  lemma LinesSnoc(init: Env, last: Entry)
    ensures Lines(init + [last]) == Lines(init) + [Line(last)]
  {
  }

  /** A line for a new key that sorts last appends its entry. */
  lemma FreshLine(acc: Env, e: Entry)
    requires !HasKey(acc, e.key) && StorableEntry(e) && Canonical(acc + [e])
    ensures AddLine(acc, Line(e)) == acc + [e]
  {
    StorableLine(e);
    if IsIndexKey(e.key) {
      forall q | 0 <= q < |acc| ensures IsIndexKey(acc[q].key) && IndexBefore(acc[q].key, e.key) {
        assert Ordered((acc + [e])[q], (acc + [e])[|acc|]);
      }
      assert Slot(acc, e.key) == |acc|;
      assert acc[..|acc|] == acc && acc[|acc|..] == [];
    }
  }

  /** `parseDotEnv(stringifyDotEnv(env)) == env` for every storable settings object. */
  lemma RoundTrip(env: Env)
    requires Storable(env)
    ensures ParseDotEnv(StringifyDotEnv(env)) == env
  {
    var ls := Lines(env);
    forall i | 0 <= i < |ls|
      ensures '\n' !in ls[i] && (ls[i] == [] || ls[i][|ls[i]| - 1] != '\r')
      ensures JsTrim(ls[i]) == ls[i] && IsSetting(ls[i])
    {
      StorableLine(env[i]);
    }
    if env == [] {
      assert ParseDotEnv("") == [];
    } else {
      SplitLinesLf(ls);
      assert TrimAll(ls) == ls;
      KeptAll(ls);
      FoldFresh(env);
    }
  }

  /** A list of settings lines is kept whole, in order and with its repeats. */
  lemma {:induction false} KeptAll(ls: seq<string>)
    requires forall i :: 0 <= i < |ls| ==> IsSetting(ls[i])
    ensures Kept(ls) == ls
  {
    if ls != [] {
      KeptAll(ls[1..]);
    }
  }

  /** A line `parseDotEnv` reduces: one line, trimmed, kept by the filter. */
  predicate CleanLine(l: string) {
    '\n' !in l && IsSetting(l) && !IsJsSpace(l[0])
  }

  lemma CleanLineEntry(l: string)
    requires CleanLine(l)
    ensures KeyOf(l) != ProtoKey ==> StorableKey(KeyOf(l))
    ensures StorableValue(ValueOf(l))
  {
    KeyValueOf(l);
    if '=' in l {
      var i := IndexOfChar(l, '=');
      CharsOfSuffix(l, i + 1);
      assert '\n' !in l[i + 1..];
      TrimSpec(l[i + 1..], IsJsSpace);
      TrimFrom(l[i + 1..], IsJsSpace);
      assert '=' !in l[..i];
      assert '\n' !in l[..i] by {
        CharsOfPrefix(l, i);
      }
    }
  }

  lemma CharsOfSuffix(s: string, i: nat)
    requires i <= |s|
    ensures forall c :: c in s[i..] ==> c in s
  {
  }

  lemma CharsOfPrefix(s: string, i: nat)
    requires i <= |s|
    ensures forall c :: c in s[..i] ==> c in s
  {
  }

  lemma {:induction false} FoldStorable(acc: Env, lines: seq<string>)
    requires Storable(acc)
    requires forall i :: 0 <= i < |lines| ==> CleanLine(lines[i])
    ensures Storable(Fold(acc, lines))
    decreases |lines|
  {
    if lines != [] {
      AddStorable(acc, lines[0]);
      FoldStorable(AddLine(acc, lines[0]), lines[1..]);
    }
  }

  lemma AddStorable(acc: Env, l: string)
    requires Storable(acc) && CleanLine(l)
    ensures Storable(AddLine(acc, l))
  {
    CleanLineEntry(l);
    if KeyOf(l) != ProtoKey {
      PutStorable(acc, KeyOf(l), ValueOf(l));
    }
  }

  lemma PutStorable(acc: Env, k: string, v: string)
    requires Storable(acc) && StorableEntry(Entry(k, v))
    ensures Storable(Put(acc, k, v))
  {
    var r := Put(acc, k, v);
    if !HasKey(acc, k) && IsIndexKey(k) {
      var p := Slot(acc, k);
      forall i | 0 <= i < |r| ensures StorableEntry(r[i]) {
        if i < p {
          assert r[i] == acc[i];
        } else if i > p {
          assert r[i] == acc[i - 1];
        }
      }
    } else {
      forall i | 0 <= i < |r| ensures StorableEntry(r[i]) {
        if r[i] != Entry(k, v) {
          assert r[i] == acc[i];
        }
      }
    }
  }

  /** Whatever text it is given, `parseDotEnv` yields a storable settings object. */
  lemma ParsedIsStorable(contents: string)
    ensures Storable(ParseDotEnv(contents))
  {
    var lines := SplitLines(contents);
    var kept := Kept(TrimAll(lines));
    forall i | 0 <= i < |kept|
      ensures CleanLine(kept[i])
    {
      var j :| 0 <= j < |lines| && kept[i] == TrimAll(lines)[j];
      assert kept[i] == JsTrim(lines[j]);
      TrimSpec(lines[j], IsJsSpace);
      TrimFrom(lines[j], IsJsSpace);
    }
    FoldStorable([], kept);
  }

  /** Stringify after parse loses nothing that parsing kept: the pair is a normaliser. */
  lemma ParseStringifyParse(contents: string)
    ensures ParseDotEnv(StringifyDotEnv(ParseDotEnv(contents))) == ParseDotEnv(contents)
  {
    ParsedIsStorable(contents);
    RoundTrip(ParseDotEnv(contents));
  }

  /** Every value a parsed settings object holds reads back. */
  lemma ParsedValueStorable(contents: string, key: string)
    requires Get(ParseDotEnv(contents), key).Some?
    ensures StorableValue(Get(ParseDotEnv(contents), key).value)
  {
    ParsedIsStorable(contents);
  }
}
