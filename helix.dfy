/** The Twitch Helix prediction object, as the front end and the Python client see it. */
module Helix {

  datatype OutcomeInfo = OutcomeInfo(id: string, title: string, color: string)

  /** A prediction snapshot; `status` is the text Helix sends (ACTIVE, LOCKED, RESOLVED, CANCELED). */
  datatype Snapshot = Snapshot(id: string, title: string, outcomes: seq<OutcomeInfo>,
                               predictionWindow: int, status: string)

  /** The outcome titles, in order. */
  function Titles(outcomes: seq<OutcomeInfo>): (r: seq<string>)
    ensures |r| == |outcomes| && forall i :: 0 <= i < |r| ==> r[i] == outcomes[i].title
  {
    seq(|outcomes|, i requires 0 <= i < |outcomes| => outcomes[i].title)
  }
}
