/**
 * The prediction form (gui/src/components/CreatePrediction.tsx): turning
 * the three text fields into a draft, with its checks in their fixed
 * order and their messages, and saving (and starting) a valid draft.
 */
module CreatePrediction {
  import opened Wrappers
  import opened Text
  import opened Js
  import opened Drafts

  datatype FormValues = FormValues(title: string, outcomes: string, predictionWindow: string)

  const EmptyForm := FormValues("", "", "")

  const TitleTooShort := "Title must be at least 3 characters long."
  const OutcomeTooLong := "Each outcome must be less than 25 characters long."
  const TooFewOutcomes := "A prediction requires at least two unique outcomes"
  const WindowOutOfRange := "Prediction window must be between 30 and 1800 seconds."
  const SavedMessage := "Prediction saved!"
  const SaveFailedMessage := "Prediction failed to save."
  const StartingMessage := "Prediction saved! Starting on Twitch..."

  const MinTitle := 3
  const MaxOutcome := 25
  const MinWindow := 30
  const MaxWindow := 1800

  predicate Distinct<T(==)>(xs: seq<T>) {
    forall i, j :: 0 <= i < j < |xs| ==> xs[i] != xs[j]
  }

  /** `Array.from(new Set(xs))`: each value once, at the place it first occurs. */
  function Dedup(xs: seq<string>): seq<string> {
    if xs == [] then []
    else
      var d := Dedup(xs[..|xs| - 1]);
      if xs[|xs| - 1] in d then d else d + [xs[|xs| - 1]]
  }

  /** Dedup keeps every value and repeats none. */
  lemma {:induction false} DedupSpec(xs: seq<string>)
    ensures forall x :: x in Dedup(xs) <==> x in xs
    ensures Distinct(Dedup(xs))
    decreases |xs|
  {
    if xs != [] {
      var init, last := xs[..|xs| - 1], xs[|xs| - 1];
      DedupSpec(init);
      assert xs == init + [last];
      assert forall x :: x in xs <==> x in init || x == last;
    }
  }

  /** The index of the first `x` in `xs`. */
  function FirstIndex(xs: seq<string>, x: string): (i: nat)
    requires x in xs
    ensures i < |xs| && xs[i] == x && x !in xs[..i]
  {
    if xs[0] == x then 0
    else
      var j := FirstIndex(xs[1..], x);
      assert xs[..j + 1] == [xs[0]] + xs[1..][..j];
      j + 1
  }

  /** Within a prefix that holds `x`, the first `x` is where it is in the whole list. */
  lemma {:induction false} FirstIndexPrefix(xs: seq<string>, n: nat, x: string)
    requires n <= |xs| && x in xs[..n]
    ensures x in xs && FirstIndex(xs, x) == FirstIndex(xs[..n], x)
  {
    assert xs[..n][0] == xs[0];
    if xs[0] != x {
      assert xs[..n][1..] == xs[1..][..n - 1];
      FirstIndexPrefix(xs[1..], n - 1, x);
    }
  }

  /** The values of `r` come from `xs`, in the order of their first occurrences there. */
  predicate InFirstOrder(r: seq<string>, xs: seq<string>) {
    forall i, j :: 0 <= i < j < |r| ==> r[i] in xs && r[j] in xs && FirstIndex(xs, r[i]) < FirstIndex(xs, r[j])
  }

  /** Dedup keeps the order of first occurrences. */
  lemma {:induction false} DedupOrder(xs: seq<string>)
    ensures InFirstOrder(Dedup(xs), xs)
    decreases |xs|
  {
    if xs != [] {
      var init := xs[..|xs| - 1];
      var last := xs[|xs| - 1];
      var d := Dedup(init);
      DedupOrder(init);
      assert InFirstOrder(d, init);
      DedupSpec(init);
      forall k | 0 <= k < |d| ensures d[k] in xs && FirstIndex(xs, d[k]) == FirstIndex(init, d[k]) < |init| {
        assert d[k] in d;
        FirstIndexPrefix(xs, |xs| - 1, d[k]);
      }
      var r := Dedup(xs);
      if last in d {
        assert r == d;
        forall i, j | 0 <= i < j < |r| ensures r[i] in xs && r[j] in xs && FirstIndex(xs, r[i]) < FirstIndex(xs, r[j]) {
          assert FirstIndex(init, d[i]) < FirstIndex(init, d[j]);
        }
      } else {
        assert r == d + [last];
        assert FirstIndex(xs, last) == |xs| - 1 by {
          FirstIndexAfter(xs, last);
        }
        forall i, j | 0 <= i < j < |r| ensures r[i] in xs && r[j] in xs && FirstIndex(xs, r[i]) < FirstIndex(xs, r[j]) {
          assert r[i] == d[i];
          if j < |d| {
            assert r[j] == d[j];
            assert FirstIndex(init, d[i]) < FirstIndex(init, d[j]);
          } else {
            assert r[j] == last;
          }
        }
      }
    }
  }

  /** A value only at the end of a list is first found there. */
  lemma FirstIndexAfter(xs: seq<string>, x: string)
    requires xs != [] && xs[|xs| - 1] == x && x !in xs[..|xs| - 1]
    ensures FirstIndex(xs, x) == |xs| - 1
  {
    var k := FirstIndex(xs, x);
    assert forall m :: 0 <= m < |xs| - 1 ==> xs[..|xs| - 1][m] == xs[m];
  }

  /** A list without repeats is left as it is. */
  lemma {:induction false} DedupDistinct(xs: seq<string>)
    requires Distinct(xs)
    ensures Dedup(xs) == xs
    decreases |xs|
  {
    if xs != [] {
      var init := xs[..|xs| - 1];
      DedupDistinct(init);
      forall k | 0 <= k < |init| ensures init[k] != xs[|xs| - 1] {
        assert init[k] == xs[k];
      }
      assert init + [xs[|xs| - 1]] == xs;
    }
  }

  /** `.filter((o) => o.length > 0)`. */
  function NonEmpty(xs: seq<string>): seq<string> {
    if xs == [] then []
    else (if xs[0] != "" then [xs[0]] else []) + NonEmpty(xs[1..])
  }

  /** The filter keeps exactly the non-empty values. */
  lemma {:induction false} NonEmptySpec(xs: seq<string>)
    ensures forall x :: x in NonEmpty(xs) <==> x in xs && x != ""
  {
    if xs != [] {
      NonEmptySpec(xs[1..]);
      assert forall x :: x in xs <==> x == xs[0] || x in xs[1..];
    }
  }

  /** The outcomes field split at commas, each part trimmed, empty parts dropped, repeats removed. */
  function Outcomes(raw: string): seq<string> {
    Dedup(NonEmpty(TrimAll(Split(raw, ','))))
  }

  /** The outcomes are distinct, and they are exactly the non-empty trimmed comma-separated parts. */
  lemma OutcomesSpec(raw: string)
    ensures Distinct(Outcomes(raw))
    ensures forall o :: o in Outcomes(raw) <==> o != "" && o in TrimAll(Split(raw, ','))
  {
    var parts := TrimAll(Split(raw, ','));
    NonEmptySpec(parts);
    DedupSpec(NonEmpty(parts));
  }

  /** The title check `!title || title.length < 3`, on the trimmed title. */
  predicate TitleTooShortAt(title: string) {
    title == "" || Utf16Length(title) < MinTitle
  }

  /** The check of the outcome loop: `outcome.trim().length > 25`. */
  predicate TooLong(outcome: string) {
    Utf16Length(JsTrim(outcome)) > MaxOutcome
  }

  predicate AnyTooLong(outcomes: seq<string>) {
    exists i :: 0 <= i < |outcomes| && TooLong(outcomes[i])
  }

  /**
   * The window check. `parseInt(...) ?? 90` never takes the default, since
   * `parseInt` gives a number, and `NaN` fails both comparisons.
   */
  predicate WindowRejected(w: JsNumber) {
    w.Int? && (w.n < MinWindow || w.n > MaxWindow)
  }

  /**
   * `buildPredictionFromForm` as a value: the first failing check's
   * message, or the draft with the trimmed title, the outcomes and the
   * parsed window. `id` is the random identifier the draft gets.
   */
  function Validate(form: FormValues, id: string): Result<Draft, string> {
    var title := JsTrim(form.title);
    var outcomes := Outcomes(form.outcomes);
    var window := ParseInt(form.predictionWindow);
    if TitleTooShortAt(title) then Err(TitleTooShort)
    else if AnyTooLong(outcomes) then Err(OutcomeTooLong)
    else if |outcomes| < 2 then Err(TooFewOutcomes)
    else if WindowRejected(window) then Err(WindowOutOfRange)
    else Ok(Draft(id, title, outcomes, window))
  }

  /** The loop `for (const outcome of outcomes)` with its early exit. */
  method HasTooLongOutcome(outcomes: seq<string>) returns (found: bool)
    ensures found <==> AnyTooLong(outcomes)
  {
    for k := 0 to |outcomes|
      invariant forall i :: 0 <= i < k ==> !TooLong(outcomes[i])
    {
      if TooLong(outcomes[k]) {
        return true;
      }
    }
    return false;
  }

  /** A draft is made exactly when every check passes, and it holds what the form says. */
  lemma ValidIff(form: FormValues, id: string)
    ensures Validate(form, id).Ok? <==>
      !TitleTooShortAt(JsTrim(form.title)) && !AnyTooLong(Outcomes(form.outcomes))
      && |Outcomes(form.outcomes)| >= 2 && !WindowRejected(ParseInt(form.predictionWindow))
    ensures Validate(form, id).Ok? ==>
      Validate(form, id).value == Draft(id, JsTrim(form.title), Outcomes(form.outcomes), ParseInt(form.predictionWindow))
  {
  }

  /** The checks run in the order title, outcome length, outcome count, window; the first failure decides. */
  lemma CheckOrder(form: FormValues, id: string)
    ensures TitleTooShortAt(JsTrim(form.title)) ==> Validate(form, id) == Err(TitleTooShort)
    ensures (!TitleTooShortAt(JsTrim(form.title)) && AnyTooLong(Outcomes(form.outcomes)))
            ==> Validate(form, id) == Err(OutcomeTooLong)
    ensures (!TitleTooShortAt(JsTrim(form.title)) && !AnyTooLong(Outcomes(form.outcomes)) && |Outcomes(form.outcomes)| < 2)
            ==> Validate(form, id) == Err(TooFewOutcomes)
    ensures (!TitleTooShortAt(JsTrim(form.title)) && !AnyTooLong(Outcomes(form.outcomes)) && |Outcomes(form.outcomes)| >= 2
             && WindowRejected(ParseInt(form.predictionWindow))) ==> Validate(form, id) == Err(WindowOutOfRange)
  {
  }

  /** Outcomes of 25 characters pass the length check; one of 26 fails it. */
  lemma OutcomeLengthLimit(o: string)
    requires JsTrim(o) == o && forall i :: 0 <= i < |o| ==> o[i] as int <= 0xFFFF
    ensures |o| == 25 ==> !TooLong(o)
    ensures |o| == 26 ==> TooLong(o)
  {
    Utf16LengthBmp(o);
  }

  /** A numeric window is accepted exactly from 30 to 1800 seconds, both ends included. */
  lemma WindowBounds(n: nat)
    ensures !WindowRejected(ParseInt(Decimal(n))) <==> MinWindow <= n <= MaxWindow
  {
    ParseIntDecimal(n);
  }

  /** An empty or blank window field yields `NaN`, which passes the window check: no default is applied. */
  lemma BlankWindowAccepted(raw: string)
    requires forall i :: 0 <= i < |raw| ==> IsJsSpace(raw[i])
    ensures ParseInt(raw) == NaN && !WindowRejected(ParseInt(raw))
  {
    ParseIntBlank(raw);
  }

  /** No longest title: any title of at least 3 characters passes its check. */
  lemma NoMaximumTitle(title: string)
    requires JsTrim(title) == title && Utf16Length(title) >= MinTitle
    ensures !TitleTooShortAt(JsTrim(title))
  {
  }

  datatype Status = Idle | SavedStatus | ErrorStatus

  datatype FieldName = TitleField | OutcomesField | WindowField

  /** The page's state: status line, message, loaded drafts, the form, and the requests it has made. */
  class CreatePredictionPage {
    var status: Status
    var message: string
    var predictions: seq<Draft>
    var form: FormValues
    /** The drafts handed to `savePrediction`, in order. */
    var saved: seq<Draft>
    /** The drafts handed to `startPrediction`, in order. */
    var started: seq<Draft>

    constructor()
      ensures status == Idle && message == "" && predictions == [] && form == EmptyForm
      ensures saved == [] && started == []
    {
      status := Idle;
      message := "";
      predictions := [];
      form := EmptyForm;
      saved := [];
      started := [];
    }

    /**
     * The load effect: the stored drafts replace the list, and a failed load
     * leaves it. `None` also stands for a load that finishes after the page
     * was unmounted, whose drafts the `isMounted` guard drops.
     */
    method Load(loaded: Option<seq<Draft>>)
      modifies this
      ensures predictions == (if loaded.Some? then loaded.value else old(predictions))
      ensures status == old(status) && message == old(message) && form == old(form)
      ensures saved == old(saved) && started == old(started)
    {
      if loaded.Some? {
        predictions := loaded.value;
      }
    }

    /** `handleInputChange`: one field takes the typed value. */
    method HandleInputChange(name: FieldName, value: string)
      modifies this
      ensures form == match name
        case TitleField => old(form).(title := value)
        case OutcomesField => old(form).(outcomes := value)
        case WindowField => old(form).(predictionWindow := value)
      ensures status == old(status) && message == old(message) && predictions == old(predictions)
      ensures saved == old(saved) && started == old(started)
    {
      match name
      case TitleField => form := form.(title := value);
      case OutcomesField => form := form.(outcomes := value);
      case WindowField => form := form.(predictionWindow := value);
    }

    /** Set the error status and its message. */
    method Fail(msg: string)
      modifies this
      ensures status == ErrorStatus && message == msg
      ensures predictions == old(predictions) && form == old(form) && saved == old(saved) && started == old(started)
    {
      status := ErrorStatus;
      message := msg;
    }

    /**
     * `buildPredictionFromForm`: the draft, or the first failing check's
     * message, which also becomes the error status.
     */
    method BuildPredictionFromForm(id: string) returns (r: Result<Draft, string>)
      modifies this
      ensures r == Validate(form, id)
      ensures r.Err? ==> status == ErrorStatus && message == r.error
      ensures r.Ok? ==> status == old(status) && message == old(message)
      ensures predictions == old(predictions) && form == old(form) && saved == old(saved) && started == old(started)
    {
      var title := JsTrim(form.title);
      if title == "" || Utf16Length(title) < MinTitle {
        Fail(TitleTooShort);
        return Err(TitleTooShort);
      }
      var outcomes := Dedup(NonEmpty(TrimAll(Split(form.outcomes, ','))));
      var tooLong := HasTooLongOutcome(outcomes);
      if tooLong {
        Fail(OutcomeTooLong);
        return Err(OutcomeTooLong);
      }
      if |outcomes| < 2 {
        Fail(TooFewOutcomes);
        return Err(TooFewOutcomes);
      }
      var window := ParseInt(form.predictionWindow);
      if window.Int? && (window.n < MinWindow || window.n > MaxWindow) {
        Fail(WindowOutOfRange);
        return Err(WindowOutOfRange);
      }
      return Ok(Draft(id, title, outcomes, window));
    }

    /** `persistPrediction`: a valid draft goes to the end of the list and is saved. */
    method PersistPrediction(id: string) returns (r: Result<Draft, string>)
      modifies this
      ensures r == Validate(old(form), id)
      ensures r.Ok? ==> predictions == old(predictions) + [r.value] && saved == old(saved) + [r.value]
      ensures r.Ok? ==> status == old(status) && message == old(message)
      ensures r.Err? ==> predictions == old(predictions) && saved == old(saved)
      ensures r.Err? ==> status == ErrorStatus && message == r.error
      ensures form == old(form) && started == old(started)
    {
      r := BuildPredictionFromForm(id);
      if r.Err? {
        return;
      }
      predictions := predictions + [r.value];
      saved := saved + [r.value];
    }

    /**
     * `handleSave`, returning what the form validated to. `saveRejects`
     * says whether `savePrediction` rejects; the draft is then already in
     * the list but the page reports the failure.
     */
    method HandleSave(id: string, saveRejects: bool) returns (r: Result<Draft, string>)
      modifies this
      ensures r == Validate(old(form), id)
      ensures r.Ok? ==> predictions == old(predictions) + [r.value] && saved == old(saved) + [r.value]
      ensures r.Err? ==> predictions == old(predictions) && saved == old(saved) && form == old(form)
      ensures r.Err? ==> status == ErrorStatus && message == r.error
      ensures r.Ok? && !saveRejects ==> status == SavedStatus && message == SavedMessage && form == EmptyForm
      ensures r.Ok? && saveRejects ==> status == ErrorStatus && message == SaveFailedMessage && form == old(form)
      ensures started == old(started)
    {
      status := Idle;
      r := PersistPrediction(id);
      if r.Err? {
        return;
      }
      if saveRejects {
        Fail(SaveFailedMessage);
        return;
      }
      status := SavedStatus;
      message := SavedMessage;
      form := EmptyForm;
    }

    /**
     * `handleSaveAndStart`, returning what the form validated to: only a
     * valid draft is saved and then started. A rejected save ends the
     * handler before anything else happens.
     */
    method HandleSaveAndStart(id: string, saveRejects: bool) returns (r: Result<Draft, string>)
      modifies this
      ensures r == Validate(old(form), id)
      ensures r.Ok? ==> predictions == old(predictions) + [r.value] && saved == old(saved) + [r.value]
      ensures r.Err? ==> predictions == old(predictions) && saved == old(saved) && started == old(started)
      ensures r.Err? ==> form == old(form)
      ensures r.Err? ==> status == ErrorStatus && message == r.error
      ensures r.Ok? && !saveRejects ==> started == old(started) + [r.value] && status == SavedStatus
                                        && message == StartingMessage && form == EmptyForm
      ensures r.Ok? && saveRejects ==> started == old(started) && status == old(status) && form == old(form)
      ensures r.Ok? && saveRejects ==> message == old(message)
    {
      r := PersistPrediction(id);
      if r.Err? || saveRejects {
        return;
      }
      form := EmptyForm;
      status := SavedStatus;
      message := StartingMessage;
      started := started + [r.value];
    }
  }
}
