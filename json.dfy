/**
 * A decoded JSON document, as `JSON.parse`, `json.loads` and `serde_json`
 * hand it over. Decoding itself is not modelled: callers receive values of
 * this type (or a decoding failure) as inputs.
 */
module Json {
  import opened Wrappers

  /** JSON numbers are modelled by their integer values only. */
  datatype Json =
    | JNull
    | JBool(b: bool)
    | JNum(n: int)
    | JStr(s: string)
    | JArr(items: seq<Json>)
    | JObj(fields: seq<(string, Json)>)

  /**
   * `obj[key]` on a decoded object. All three decoders keep the last of
   * several members with the same name, so the last binding wins.
   */
  function Lookup(fields: seq<(string, Json)>, key: string): (r: Option<Json>)
    ensures r.Some? <==> exists i :: 0 <= i < |fields| && fields[i].0 == key
    ensures r.Some? ==> exists i :: 0 <= i < |fields| && fields[i] == (key, r.value)
  {
    if fields == [] then None
    else if fields[|fields| - 1].0 == key then Some(fields[|fields| - 1].1)
    else
      var r := Lookup(fields[..|fields| - 1], key);
      assert forall i :: 0 <= i < |fields| - 1 ==> fields[..|fields| - 1][i] == fields[i];
      r
  }

  /** A member that no later member overrides is what the lookup finds. */
  lemma {:induction false} LookupLastBinding(fields: seq<(string, Json)>, i: nat)
    requires i < |fields| && forall j :: i < j < |fields| ==> fields[j].0 != fields[i].0
    ensures Lookup(fields, fields[i].0) == Some(fields[i].1)
    decreases |fields|
  {
    if i < |fields| - 1 {
      var init := fields[..|fields| - 1];
      assert forall j :: i < j < |init| ==> init[j] == fields[j];
      LookupLastBinding(init, i);
      assert init[i] == fields[i];
    }
  }
}
