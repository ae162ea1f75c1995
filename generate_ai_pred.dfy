/**
 * The post-processing of the language model's answer: `OutputParser.parse`
 * cuts a fenced code block out of the answer and decodes it, never
 * raising, and `FormatPrediction` turns the decoded predictions into the
 * records the database stores. The model call itself is not modelled;
 * `json.loads` is an input.
 */
module GenerateAiPred {
  import opened Wrappers
  import opened Json
  import opened Text
  import opened Py

  const JsonFence := "```json"
  const Fence := "```"

  /** `str.strip()`. */
  function PyStrip(s: string): string {
    Trim(s, IsPySpace)
  }

  /** The text `parse` hands to `json.loads`: the answer stripped, and the inside of its first code block. */
  function Content(text: string): string {
    var content := PyStrip(text);
    if Contains(content, JsonFence) then PyStrip(PySplit(PySplit(content, JsonFence)[1], Fence)[0])
    else if Contains(content, Fence) then PyStrip(PySplit(PySplit(content, Fence)[1], Fence)[0])
    else content
  }

  /** `"```json"` begins with `"```"`. */
  lemma JsonFenceIsFence(s: string, i: int)
    requires OccursAt(s, JsonFence, i)
    ensures OccursAt(s, Fence, i)
  {
    assert s[i..i + 3] == s[i..i + 7][..3];
  }

  /** An answer with no fence is only stripped. */
  lemma NoFenceOnlyStripped(text: string)
    requires !Contains(text, Fence)
    ensures Content(text) == PyStrip(text)
  {
    var c := PyStrip(text);
    TrimFree(text, Fence, IsPySpace);
    if Contains(c, JsonFence) {
      JsonFenceIsFence(c, Find(c, JsonFence).value);
    }
  }

  /**
   * With a ```` ```json ```` fence, the content is what follows the first
   * ```` ```json ```` up to the next ```` ``` ````, stripped, provided no
   * backtick sits right before a second ```` ```json ```` there. (If one
   * does, the code cuts at that ```` ```json ```` and the backticks before
   * it stay in the content.)
   */
  lemma JsonFenceContent(text: string)
    requires Contains(PyStrip(text), JsonFence)
    requires var x := AfterFirst(PyStrip(text), JsonFence);
      Find(x, JsonFence).None? || Find(x, JsonFence).value == 0 || x[Find(x, JsonFence).value - 1] != '`'
    ensures Content(text) == PyStrip(BeforeFirst(AfterFirst(PyStrip(text), JsonFence), Fence))
  {
    var x := AfterFirst(PyStrip(text), JsonFence);
    assert PySplit(PySplit(PyStrip(text), JsonFence)[1], Fence)[0] == BeforeFirst(BeforeFirst(x, JsonFence), Fence);
    CutAtJsonFence(x);
  }

  /** Cutting at the first ```` ```json ```` and then at the first ```` ``` ```` is cutting at the first ```` ``` ````. */
  lemma CutAtJsonFence(x: string)
    requires Find(x, JsonFence).None? || Find(x, JsonFence).value == 0 || x[Find(x, JsonFence).value - 1] != '`'
    ensures BeforeFirst(BeforeFirst(x, JsonFence), Fence) == BeforeFirst(x, Fence)
  {
    match Find(x, JsonFence)
    case None =>
    case Some(j) =>
      var y := x[..j];
      JsonFenceIsFence(x, j);
      var k := Find(x, Fence).value;
      FenceBeforeJsonFence(x, j, k);
      if k + 3 <= j {
        assert OccursAt(y, Fence, k) by {
          assert y[k..k + 3] == x[k..k + 3];
        }
        forall m | 0 <= m < k
          ensures !OccursAt(y, Fence, m)
        {
          if OccursAt(y, Fence, m) {
            OccursInSlice(x, Fence, 0, j, m);
          }
        }
        FindIs(y, Fence, k);
        assert y[..k] == x[..k];
      } else {
        if Contains(y, Fence) {
          OccursInSlice(x, Fence, 0, j, Find(y, Fence).value);
        }
      }
  }

  /**
   * A fence that starts before a ```` ```json ```` ends before it, unless
   * backticks lead right up to the ```` ```json ````.
   */
  lemma FenceBeforeJsonFence(x: string, j: nat, k: nat)
    requires OccursAt(x, JsonFence, j) && OccursAt(x, Fence, k) && k <= j
    requires j == 0 || x[j - 1] != '`'
    ensures k + 3 <= j || k == j
  {
  }

  /** With only plain fences, the content is what lies between the first and the second, stripped. */
  lemma FenceContent(text: string)
    requires !Contains(PyStrip(text), JsonFence) && Contains(PyStrip(text), Fence)
    ensures Content(text) == PyStrip(BeforeFirst(AfterFirst(PyStrip(text), Fence), Fence))
  {
    BeforeFirstTwice(AfterFirst(PyStrip(text), Fence), Fence);
  }

  /** A fenced answer's content holds no fence. */
  lemma FencedContentIsFenceFree(text: string)
    requires Contains(PyStrip(text), Fence)
    ensures !Contains(Content(text), Fence)
  {
    var c := PyStrip(text);
    var inner := if Contains(c, JsonFence) then PySplit(PySplit(c, JsonFence)[1], Fence)[0]
                 else PySplit(PySplit(c, Fence)[1], Fence)[0];
    assert inner == BeforeFirst(if Contains(c, JsonFence) then PySplit(c, JsonFence)[1] else PySplit(c, Fence)[1], Fence);
    BeforeFirstFree(if Contains(c, JsonFence) then PySplit(c, JsonFence)[1] else PySplit(c, Fence)[1], Fence);
    TrimFree(inner, Fence, IsPySpace);
  }

  /** What `json.loads` does with the content: a value, a `JSONDecodeError`, or another exception. */
  datatype LoadError = DecodeError(message: string) | OtherError(message: string)

  /** The dict `parse` returns in place of raising. */
  function FailureDict(message: string): Json {
    JObj([("data", JArr([])), ("error", JStr(message))])
  }

  /** `OutputParser.parse`. */
  function Parse(text: string, loads: string -> Result<Json, LoadError>): Json {
    match loads(Content(text))
    case Ok(v) => v
    case Err(DecodeError(m)) => FailureDict("Failed to parse JSON: " + m)
    case Err(OtherError(m)) => FailureDict("Parser error: " + m)
  }

  /**
   * `parse` decodes the content and returns it; when decoding fails it
   * returns a dict whose `data` is empty and whose `error` says why.
   */
  lemma ParseIsTotal(text: string, loads: string -> Result<Json, LoadError>)
    ensures loads(Content(text)).Ok? ==> Parse(text, loads) == loads(Content(text)).value
    ensures loads(Content(text)).Err? ==>
      GetItem(Parse(text, loads), "data") == Returned(JArr([]))
      && In("error", Parse(text, loads)) == Returned(true)
  {
    if loads(Content(text)).Err? {
      LookupLastBinding(Parse(text, loads).fields, 0);
      LookupLastBinding(Parse(text, loads).fields, 1);
    }
  }

  /** A database record: the title, two or three options, and the duration. */
  datatype DbPrediction = DbPrediction(title: Json, optionA: Json, optionB: Json, optionC: Option<Json>, duration: int)

  /** The duration `FormatPrediction` gives every record. */
  const DefaultDuration := 90

  /** The record of one entry, with the exception the dict literal raises first. */
  function FormatEntry(e: Json): Py<DbPrediction> {
    match GetItem(e, "title")
    case Raised(x) => Raised(x)
    case Returned(title) =>
      match GetItem(e, "options")
      case Raised(x) => Raised(x)
      case Returned(options) =>
        match GetIndex(options, 0)
        case Raised(x) => Raised(x)
        case Returned(a) =>
          match GetIndex(options, 1)
          case Raised(x) => Raised(x)
          case Returned(b) =>
            match Len(options)
            case Raised(x) => Raised(x)
            case Returned(n) =>
              if n > 2 then
                match GetIndex(options, 2)
                case Raised(x) => Raised(x)
                case Returned(c) => Returned(DbPrediction(title, a, b, Some(c), DefaultDuration))
              else Returned(DbPrediction(title, a, b, None, DefaultDuration))
  }

  /**
   * An entry with a title and a list of at least two options gives the
   * record of the title, the first two options, the third when there is
   * one, and the default duration; further options are dropped.
   */
  lemma FormatWellFormedEntry(e: Json, options: seq<Json>)
    requires GetItem(e, "title").Returned? && GetItem(e, "options") == Returned(JArr(options)) && |options| >= 2
    ensures FormatEntry(e) == Returned(DbPrediction(GetItem(e, "title").value, options[0], options[1],
                                                     if |options| > 2 then Some(options[2]) else None, 90))
  {
  }

  /** The records of the entries in order, or the first exception. */
  function FormatEntries(entries: seq<Json>): Py<seq<DbPrediction>> {
    MapAll(entries, FormatEntry)
  }

  /**
   * The entries `for pred in data` visits. Iterating a non-empty dict or
   * string gives strings, and subscripting the first with `"title"`
   * raises `TypeError`; a number, a boolean or `None` is not iterable.
   */
  function Entries(data: Json): Py<seq<Json>> {
    match data
    case JArr(items) => Returned(items)
    case JObj(fields) => if fields == [] then Returned([]) else Raised(TypeError)
    case JStr(s) => if s == "" then Returned([]) else Raised(TypeError)
    case _ => Raised(TypeError)
  }

  /**
   * `FormatPrediction`: `None` when the value holds `"error"`; otherwise
   * the records of its `data` entries (none when it has no `data`).
   */
  function Formatted(pred: Json): Py<Option<seq<DbPrediction>>> {
    match In("error", pred)
    case Raised(x) => Raised(x)
    case Returned(hasError) =>
      if hasError then Returned(None)
      else if !pred.JObj? then Raised(AttributeError)
      else
        match Entries(Lookup(pred.fields, "data").GetOr(JArr([])))
        case Raised(x) => Raised(x)
        case Returned(entries) =>
          match FormatEntries(entries)
          case Raised(x) => Raised(x)
          case Returned(records) => Returned(Some(records))
  }

  /** `FormatPrediction`, with its loop over the entries. */
  method FormatPrediction(pred: Json) returns (r: Py<Option<seq<DbPrediction>>>)
    ensures r == Formatted(pred)
  {
    var hasError := In("error", pred);
    if hasError.Raised? {
      return Raised(hasError.error);
    }
    if hasError.value {
      return Returned(None);
    }
    if !pred.JObj? {
      return Raised(AttributeError);
    }
    var entries := Entries(Lookup(pred.fields, "data").GetOr(JArr([])));
    if entries.Raised? {
      return Raised(entries.error);
    }
    var es := entries.value;
    var dbPredictions: seq<DbPrediction> := [];
    var i := 0;
    while i < |es|
      invariant 0 <= i <= |es|
      invariant FormatEntries(es[..i]) == Returned(dbPredictions)
    {
      var d := FormatEntry(es[i]);
      MapAllStep(es, i, FormatEntry);
      if d.Raised? {
        RaisedPrefix(es, i + 1, FormatEntry);
        return Raised(d.error);
      }
      dbPredictions := dbPredictions + [d.value];
      i := i + 1;
    }
    assert es[..i] == es;
    return Returned(Some(dbPredictions));
  }

  /** A dict gives `None` exactly when it has the lowercase key `"error"`. */
  lemma NoneIffError(fields: seq<(string, Json)>)
    ensures Formatted(JObj(fields)) == Returned(None) <==> Lookup(fields, "error").Some?
  {
  }

  /** The `{"Error": ...}` dict of a missing game or title has no lowercase `"error"` and no `data`, so it gives no records. */
  lemma CapitalErrorGivesNoRecords(message: string)
    ensures Formatted(JObj([("Error", JStr(message))])) == Returned(Some([]))
  {
  }

  /** Whatever `parse` returned after a failed decoding, formatting it gives `None`. */
  lemma ParseFailureGivesNone(text: string, loads: string -> Result<Json, LoadError>)
    requires loads(Content(text)).Err?
    ensures Formatted(Parse(text, loads)) == Returned(None)
  {
    ParseIsTotal(text, loads);
  }

  /**
   * A dict without `"error"` whose `data` is a list of entries that all
   * format gives one record per entry, in order.
   */
  lemma FormatsEveryEntry(fields: seq<(string, Json)>, entries: seq<Json>)
    requires Lookup(fields, "error").None? && Lookup(fields, "data") == Some(JArr(entries))
    requires forall i :: 0 <= i < |entries| ==> FormatEntry(entries[i]).Returned?
    ensures var r := Formatted(JObj(fields));
      r.Returned? && r.value.Some? && |r.value.value| == |entries|
      && forall i :: 0 <= i < |entries| ==> r.value.value[i] == FormatEntry(entries[i]).value
  {
    MapAllSpec(entries, FormatEntry);
  }
}
