/**
 * The panel that shows the newest prediction of the channel: a finished
 * one with START AGAIN and SAVE, or a running one with an End button per
 * outcome and CANCEL.
 */
module PrevPrediction {
  import opened Wrappers
  import opened Js
  import opened Helix
  import opened Drafts

  /** `parseToPrediction`: the draft a snapshot starts again or saves as. */
  function ParseToPrediction(s: Snapshot): (d: Draft)
    ensures d.id == s.id && d.title == s.title && d.predictionWindow == Int(s.predictionWindow)
    ensures |d.outcomes| == |s.outcomes|
    ensures forall i :: 0 <= i < |s.outcomes| ==> d.outcomes[i] == s.outcomes[i].title
  {
    Draft(s.id, s.title, Titles(s.outcomes), Int(s.predictionWindow))
  }

  datatype Panel = PreviousPanel | RunningPanel | NoPanel

  /** Which panel a status shows. */
  function PanelFor(status: string): Panel {
    if status == "CANCELED" || status == "RESOLVED" then PreviousPanel
    else if status == "LOCKED" || status == "ACTIVE" then RunningPanel
    else NoPanel
  }

  /**
   * The panel for the first snapshot of the list. The component reads
   * `runningOrLastPrediction[0].status`, which throws on an empty list.
   */
  function Shown(snapshots: seq<Snapshot>): (r: Result<Panel, string>)
    ensures r.Err? <==> snapshots == []
    ensures r.Ok? ==> r.value == PanelFor(snapshots[0].status)
  {
    if snapshots == [] then Err("TypeError: cannot read properties of undefined") else Ok(PanelFor(snapshots[0].status))
  }

  /** The two panels show for disjoint sets of statuses, and any other status shows neither. */
  lemma PanelPartition(status: string)
    ensures PanelFor(status) == PreviousPanel <==> status == "CANCELED" || status == "RESOLVED"
    ensures PanelFor(status) == RunningPanel <==> status == "LOCKED" || status == "ACTIVE"
    ensures PanelFor(status) == NoPanel <==>
      status != "CANCELED" && status != "RESOLVED" && status != "LOCKED" && status != "ACTIVE"
  {
  }

  /** `!predictions.find((p) => p.title === title)`: no saved draft has this title. */
  predicate OffersSave(predictions: seq<Draft>, title: string) {
    FindByTitle(predictions, title).None?
  }

  /** `predictions.find(...)`: the first draft with the title. */
  function FindByTitle(predictions: seq<Draft>, title: string): (r: Option<nat>)
    ensures r.Some? ==> r.value < |predictions| && predictions[r.value].title == title
    ensures r.Some? ==> forall j :: 0 <= j < r.value ==> predictions[j].title != title
    ensures r.None? ==> forall j :: 0 <= j < |predictions| ==> predictions[j].title != title
  {
    if predictions == [] then None
    else if predictions[0].title == title then Some(0)
    else
      var r := FindByTitle(predictions[1..], title);
      if r.None? then None else Some(r.value + 1)
  }

  /** SAVE is offered exactly when no saved draft carries the snapshot's title. */
  lemma OffersSaveIff(predictions: seq<Draft>, title: string)
    ensures OffersSave(predictions, title) <==> forall j :: 0 <= j < |predictions| ==> predictions[j].title != title
  {
  }

  datatype Button = StartAgainButton | SaveButton | EndButton(outcome: nat) | CancelButton

  /** The buttons of the panel, in the order they appear. */
  function Buttons(predictions: seq<Draft>, s: Snapshot): (r: seq<Button>)
    ensures PanelFor(s.status) == NoPanel ==> r == []
  {
    match PanelFor(s.status)
    case PreviousPanel => [StartAgainButton] + (if OffersSave(predictions, s.title) then [SaveButton] else [])
    case RunningPanel => seq(|s.outcomes|, i requires 0 <= i < |s.outcomes| => EndButton(i)) + [CancelButton]
    case NoPanel => []
  }

  /** What a button asks the Twitch handler or the draft store to do. */
  datatype Action =
    | StartAction(draft: Draft)
    | SaveAction(draft: Draft)
    | EndAction(predictionId: string, outcomeId: string)
    | CancelAction(predictionId: string)

  /** The effect of a click: the request made and the new list of drafts. */
  datatype Click = Click(action: Action, predictions: seq<Draft>)

  /** The `onClick` handlers. `EndButton(i)` belongs to the row of outcome `i`. */
  function OnClick(b: Button, predictions: seq<Draft>, s: Snapshot): Option<Click> {
    match b
    case StartAgainButton => Some(Click(StartAction(ParseToPrediction(s)), predictions))
    case SaveButton =>
      Some(Click(SaveAction(ParseToPrediction(s)), predictions + [ParseToPrediction(s)]))
    case EndButton(i) =>
      if i < |s.outcomes| then Some(Click(EndAction(s.id, s.outcomes[i].id), predictions)) else None
    case CancelButton => Some(Click(CancelAction(s.id), predictions))
  }

  /**
   * Every shown button has a handler. START AGAIN starts the snapshot's
   * draft; SAVE saves it and appends it after the unchanged list; each
   * End ends with the snapshot's id and its row's outcome id; CANCEL
   * cancels by the snapshot's id. Only SAVE changes the list.
   */
  lemma ShownButtonsAct(predictions: seq<Draft>, s: Snapshot, k: nat)
    requires k < |Buttons(predictions, s)|
    ensures var b := Buttons(predictions, s)[k];
      OnClick(b, predictions, s).Some?
      && (b.StartAgainButton? ==> OnClick(b, predictions, s).value == Click(StartAction(ParseToPrediction(s)), predictions))
      && (b.CancelButton? ==> OnClick(b, predictions, s).value == Click(CancelAction(s.id), predictions))
      && (b.EndButton? ==>
            b.outcome < |s.outcomes|
            && OnClick(b, predictions, s).value == Click(EndAction(s.id, s.outcomes[b.outcome].id), predictions))
      && (b.SaveButton? ==>
            OffersSave(predictions, s.title)
            && OnClick(b, predictions, s).value.predictions == predictions + [ParseToPrediction(s)])
  {
    var bs := Buttons(predictions, s);
    if PanelFor(s.status) == RunningPanel && k < |s.outcomes| {
      assert bs[k] == EndButton(k);
    }
  }

  /** A running prediction has one End button per outcome, in order, and CANCEL last. */
  lemma RunningButtons(predictions: seq<Draft>, s: Snapshot)
    requires PanelFor(s.status) == RunningPanel
    ensures var bs := Buttons(predictions, s);
      |bs| == |s.outcomes| + 1 && bs[|bs| - 1] == CancelButton
      && forall i :: 0 <= i < |s.outcomes| ==> bs[i] == EndButton(i)
  {
  }

  /** A finished prediction offers START AGAIN, and SAVE exactly when its title is not saved yet. */
  lemma PreviousButtons(predictions: seq<Draft>, s: Snapshot)
    requires PanelFor(s.status) == PreviousPanel
    ensures var bs := Buttons(predictions, s);
      bs[0] == StartAgainButton && (SaveButton in bs <==> OffersSave(predictions, s.title))
  {
  }

  /** Once saved, the snapshot's title is in the list, so SAVE is no longer offered. */
  lemma SaveHidesSave(predictions: seq<Draft>, s: Snapshot)
    ensures var c := OnClick(SaveButton, predictions, s).value;
      !OffersSave(c.predictions, s.title) && c.predictions[..|predictions|] == predictions
  {
    var c := OnClick(SaveButton, predictions, s).value;
    assert c.predictions[|predictions|].title == s.title;
    assert c.predictions[..|predictions|] == predictions;
  }
}
