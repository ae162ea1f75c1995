/**
 * How the Python scripts read a decoded JSON value: subscripts with a key
 * or an index, `len`, truthiness and `in`, each with the exception Python
 * raises when the value has the wrong shape.
 */
module Py {
  import opened Wrappers
  import opened Json
  import opened Text

  /** The exceptions the scripts can raise while reading a value. */
  datatype PyError =
    | KeyError
    | IndexError
    | TypeError
    | AttributeError
      /** A `requests` exception that is not caught where it happens. */
    | RequestError

  /** A Python call: it returns a value or raises. */
  datatype Py<+T> = Returned(value: T) | Raised(error: PyError)

  /** `v[key]` with a string key: only a dict has members; lists and strings want an integer. */
  function GetItem(v: Json, key: string): (r: Py<Json>)
    ensures r.Returned? <==> v.JObj? && Lookup(v.fields, key).Some?
    ensures r.Returned? ==> r.value == Lookup(v.fields, key).value
    ensures r == Raised(KeyError) <==> v.JObj? && Lookup(v.fields, key).None?
  {
    match v
    case JObj(fields) => if Lookup(fields, key).Some? then Returned(Lookup(fields, key).value) else Raised(KeyError)
    case _ => Raised(TypeError)
  }

  /**
   * `v[k]` with an integer index: an element of a list, a one-character
   * string of a string. The keys of a decoded dict are strings, so an integer
   * is never one of them.
   */
  function GetIndex(v: Json, k: nat): (r: Py<Json>)
    ensures r.Returned? <==> (v.JArr? && k < |v.items|) || (v.JStr? && k < |v.s|)
    ensures r.Returned? && v.JArr? ==> r.value == v.items[k]
    ensures r.Returned? && v.JStr? ==> r.value == JStr([v.s[k]])
    ensures r == Raised(IndexError) <==> (v.JArr? && k >= |v.items|) || (v.JStr? && k >= |v.s|)
  {
    match v
    case JArr(items) => if k < |items| then Returned(items[k]) else Raised(IndexError)
    case JStr(s) => if k < |s| then Returned(JStr([s[k]])) else Raised(IndexError)
    case JObj(_) => Raised(KeyError)
    case _ => Raised(TypeError)
  }

  /** The distinct member names of a decoded object (the keys of the dict `json.loads` builds). */
  function KeySet(fields: seq<(string, Json)>): set<string> {
    set i | 0 <= i < |fields| :: fields[i].0
  }

  /** `len(v)`. */
  function Len(v: Json): (r: Py<nat>)
    ensures r.Returned? <==> v.JArr? || v.JStr? || v.JObj?
    ensures r.Returned? && v.JArr? ==> r.value == |v.items|
    ensures r.Returned? && v.JStr? ==> r.value == |v.s|
    ensures r.Returned? && v.JObj? ==> r.value == |KeySet(v.fields)|
  {
    match v
    case JArr(items) => Returned(|items|)
    case JStr(s) => Returned(|s|)
    case JObj(fields) => Returned(|KeySet(fields)|)
    case _ => Raised(TypeError)
  }

  /** Python truthiness: `None`, `False`, zero and empty containers are false. */
  predicate PyTruthy(v: Json) {
    match v
    case JNull => false
    case JBool(b) => b
    case JNum(n) => n != 0
    case JStr(s) => s != ""
    case JArr(items) => items != []
    case JObj(fields) => fields != []
  }

  /** `s in v` for a string `s`: a key of a dict, an element of a list, a substring of a string. */
  function In(s: string, v: Json): (r: Py<bool>)
    ensures r.Returned? <==> v.JObj? || v.JArr? || v.JStr?
    ensures r.Returned? && v.JObj? ==> (r.value <==> Lookup(v.fields, s).Some?)
    ensures r.Returned? && v.JArr? ==> (r.value <==> JStr(s) in v.items)
  {
    match v
    case JObj(fields) => Returned(Lookup(fields, s).Some?)
    case JArr(items) => Returned(JStr(s) in items)
    case JStr(t) => Returned(Contains(t, s))
    case _ => Raised(TypeError)
  }

  /** An environment variable as JSON: `None` when it is not set. */
  function OptJson(v: Option<string>): (r: Json)
    ensures v.None? <==> r == JNull
    ensures v.Some? ==> r == JStr(v.value)
  {
    if v.None? then JNull else JStr(v.value)
  }

  /** A list built by applying `f` to each element in turn, or the first exception `f` raises. */
  function MapAll<A, B>(xs: seq<A>, f: A -> Py<B>): Py<seq<B>> {
    if xs == [] then Returned([])
    else
      match MapAll(xs[..|xs| - 1], f)
      case Raised(x) => Raised(x)
      case Returned(done) =>
        match f(xs[|xs| - 1])
        case Raised(x) => Raised(x)
        case Returned(d) => Returned(done + [d])
  }

  /** The list is built when `f` returns for every element, and then holds `f`'s results in order. */
  lemma {:induction false} MapAllSpec<A, B>(xs: seq<A>, f: A -> Py<B>)
    ensures MapAll(xs, f).Returned? <==> forall i :: 0 <= i < |xs| ==> f(xs[i]).Returned?
    ensures MapAll(xs, f).Returned? ==>
      |MapAll(xs, f).value| == |xs| && forall i :: 0 <= i < |xs| ==> MapAll(xs, f).value[i] == f(xs[i]).value
  {
    if xs != [] {
      var init := xs[..|xs| - 1];
      MapAllSpec(init, f);
      assert forall i :: 0 <= i < |init| ==> init[i] == xs[i];
    }
  }

  /** Once a prefix raises, the whole list raises the same exception. */
  lemma {:induction false} RaisedPrefix<A, B>(xs: seq<A>, i: nat, f: A -> Py<B>)
    requires i <= |xs| && MapAll(xs[..i], f).Raised?
    ensures MapAll(xs, f) == MapAll(xs[..i], f)
    decreases |xs|
  {
    if i < |xs| {
      var init := xs[..|xs| - 1];
      assert init[..i] == xs[..i];
      RaisedPrefix(init, i, f);
    } else {
      assert xs[..i] == xs;
    }
  }

  /** Building one more element extends the list, or raises what `f` raises on it. */
  lemma MapAllStep<A, B>(xs: seq<A>, i: nat, f: A -> Py<B>)
    requires i < |xs| && MapAll(xs[..i], f).Returned?
    ensures f(xs[i]).Returned? ==> MapAll(xs[..i + 1], f) == Returned(MapAll(xs[..i], f).value + [f(xs[i]).value])
    ensures f(xs[i]).Raised? ==> MapAll(xs[..i + 1], f) == Raised(f(xs[i]).error)
  {
    assert xs[..i + 1][..i] == xs[..i];
  }
}
