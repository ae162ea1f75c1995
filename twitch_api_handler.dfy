/**
 * The Python client of the Twitch Helix predictions endpoint: it starts a
 * prediction, reads the running and the last one, ends the running one
 * with a winning outcome or cancels it, and reads the channel's game and
 * title. Every HTTP answer and every decoding of a body is an input.
 */
module TwitchApiHandler {
  import opened Wrappers
  import opened Json
  import opened Py

  const PredictionsUrl := "https://api.twitch.tv/helix/predictions"
  const ChannelsUrl := "https://api.twitch.tv/helix/channels"

  /** What an HTTP call of `requests` gives: a response, or a transport failure (also a timeout). */
  datatype HttpAnswer = Response(status: int, body: string) | TransportFailure

  /** An HTTP request: query parameters for GET and PATCH, a JSON body for POST. */
  datatype Request =
    | HttpGet(url: string, params: seq<(string, Json)>)
    | HttpPost(url: string, payload: Json)
    | HttpPatch(url: string, params: seq<(string, Json)>)

  /** The requests a call made, in order, and what it returned or raised. */
  datatype Run<+T> = Run(requests: seq<Request>, result: Py<T>)

  /** `response.raise_for_status()` raises for the 4xx and 5xx statuses. */
  predicate FailedStatus(status: int) {
    400 <= status < 600
  }

  /** The body of `CreatePrediction`'s POST. */
  function CreatePayload(broadcasterId: Option<string>, title: string, options: seq<string>, duration: int): Json {
    JObj([("broadcaster_id", OptJson(broadcasterId)),
          ("title", JStr(title)),
          ("outcomes", JArr(seq(|options|, i requires 0 <= i < |options| => JObj([("title", JStr(options[i]))])))),
          ("prediction_window", JNum(duration))])
  }

  /**
   * The payload carries the title, one `{"title": o}` per option in the
   * same order and nothing else per outcome, and the duration as
   * `prediction_window`.
   */
  lemma CreatePayloadShape(broadcasterId: Option<string>, title: string, options: seq<string>, duration: int)
    ensures var p := CreatePayload(broadcasterId, title, options, duration);
      GetItem(p, "title") == Returned(JStr(title))
      && GetItem(p, "prediction_window") == Returned(JNum(duration))
      && GetItem(p, "broadcaster_id") == Returned(OptJson(broadcasterId))
    ensures var p := CreatePayload(broadcasterId, title, options, duration);
      GetItem(p, "outcomes").Returned? && GetItem(p, "outcomes").value.JArr?
      && |GetItem(p, "outcomes").value.items| == |options|
      && forall i :: 0 <= i < |options| ==>
           GetItem(p, "outcomes").value.items[i] == JObj([("title", JStr(options[i]))])
  {
    var f := CreatePayload(broadcasterId, title, options, duration).fields;
    LookupLastBinding(f, 0);
    LookupLastBinding(f, 1);
    LookupLastBinding(f, 2);
    LookupLastBinding(f, 3);
  }

  /**
   * `CreatePrediction`. Only an HTTP error status is caught (it returns
   * `None`); a transport failure or a body that does not decode raises.
   */
  function CreatePrediction(broadcasterId: Option<string>, title: string, options: seq<string>, duration: int,
                            answer: HttpAnswer, decode: string -> Result<Json, string>): (r: Run<Option<Json>>)
    ensures r.requests == [HttpPost(PredictionsUrl, CreatePayload(broadcasterId, title, options, duration))]
    ensures r.result == Returned(None) <==> answer.Response? && FailedStatus(answer.status)
    ensures r.result.Returned? && r.result.value.Some? <==>
      answer.Response? && !FailedStatus(answer.status) && decode(answer.body).Ok?
    ensures r.result.Returned? && r.result.value.Some? ==> r.result.value.value == decode(answer.body).value
  {
    var post := [HttpPost(PredictionsUrl, CreatePayload(broadcasterId, title, options, duration))];
    match answer
    case TransportFailure => Run(post, Raised(RequestError))
    case Response(status, body) =>
      if FailedStatus(status) then Run(post, Returned(None))
      else
        match decode(body)
        case Err(_) => Run(post, Raised(RequestError))
        case Ok(v) => Run(post, Returned(Some(v)))
  }

  /** The GET that lists the channel's predictions, newest first. */
  function ListRequest(broadcasterId: Option<string>): Request {
    HttpGet(PredictionsUrl, [("broadcaster_id", OptJson(broadcasterId))])
  }

  /**
   * `response.json()["data"][0]`, the newest prediction, or `None` when the
   * answer or its decoding fails (both are `requests` exceptions and are
   * caught). A decoded body of the wrong shape raises outside the `try`'s
   * reach.
   */
  function Newest(answer: HttpAnswer, decode: string -> Result<Json, string>): Py<Option<Json>> {
    match answer
    case TransportFailure => Returned(None)
    case Response(_, body) =>
      match decode(body)
      case Err(_) => Returned(None)
      case Ok(v) =>
        match GetItem(v, "data")
        case Raised(e) => Raised(e)
        case Returned(data) =>
          match GetIndex(data, 0)
          case Raised(e) => Raised(e)
          case Returned(first) => Returned(Some(first))
  }

  /** An ACTIVE or LOCKED prediction is still open. */
  predicate Open(status: Json) {
    status == JStr("ACTIVE") || status == JStr("LOCKED")
  }

  /** `getCurrentPrediction`: the newest prediction while it is open, and `{}` otherwise. */
  function GetCurrentPrediction(broadcasterId: Option<string>, answer: HttpAnswer,
                                decode: string -> Result<Json, string>): Run<Json> {
    var get := [ListRequest(broadcasterId)];
    match Newest(answer, decode)
    case Raised(e) => Run(get, Raised(e))
    case Returned(None) => Run(get, Returned(JObj([])))
    case Returned(Some(first)) =>
      match GetItem(first, "status")
      case Raised(e) => Run(get, Raised(e))
      case Returned(status) => Run(get, Returned(if Open(status) then first else JObj([])))
  }

  /** `getLastPrediction`: the newest prediction whatever its status, and `{}` when the call fails. */
  function GetLastPrediction(broadcasterId: Option<string>, answer: HttpAnswer,
                             decode: string -> Result<Json, string>): Run<Json> {
    var get := [ListRequest(broadcasterId)];
    match Newest(answer, decode)
    case Raised(e) => Run(get, Raised(e))
    case Returned(None) => Run(get, Returned(JObj([])))
    case Returned(Some(first)) => Run(get, Returned(first))
  }

  /**
   * The current prediction is the newest one exactly when that one is
   * open; then it is also the last one. A closed newest prediction gives
   * `{}`, which is falsy.
   */
  lemma CurrentIsOpenNewest(broadcasterId: Option<string>, answer: HttpAnswer,
                            decode: string -> Result<Json, string>, first: Json)
    requires Newest(answer, decode) == Returned(Some(first)) && GetItem(first, "status").Returned?
    ensures var c := GetCurrentPrediction(broadcasterId, answer, decode).result;
      c.Returned? && (Open(GetItem(first, "status").value) ==> c.value == first)
      && (!Open(GetItem(first, "status").value) ==> c.value == JObj([]) && !PyTruthy(c.value))
    ensures GetLastPrediction(broadcasterId, answer, decode).result == Returned(first)
  {
  }

  /** A truthy current prediction is an open prediction object. */
  lemma CurrentTruthyIsOpen(broadcasterId: Option<string>, answer: HttpAnswer, decode: string -> Result<Json, string>)
    ensures var c := GetCurrentPrediction(broadcasterId, answer, decode).result;
      c.Returned? && PyTruthy(c.value) ==>
        Newest(answer, decode) == Returned(Some(c.value))
        && c.value.JObj? && GetItem(c.value, "status").Returned? && Open(GetItem(c.value, "status").value)
  {
  }

  /**
   * The status is not checked before decoding: an error answer whose body
   * has no `data` member raises `KeyError` instead of giving `{}`.
   */
  lemma ErrorBodyRaises(broadcasterId: Option<string>, status: int, body: string,
                        decode: string -> Result<Json, string>, fields: seq<(string, Json)>)
    requires decode(body) == Ok(JObj(fields)) && Lookup(fields, "data").None?
    ensures GetCurrentPrediction(broadcasterId, Response(status, body), decode).result == Raised(KeyError)
    ensures GetLastPrediction(broadcasterId, Response(status, body), decode).result == Raised(KeyError)
  {
  }

  /** The query of the PATCH that cancels a prediction. */
  function CancelParams(broadcasterId: Option<string>, id: Json): seq<(string, Json)> {
    [("broadcaster_id", OptJson(broadcasterId)), ("id", id), ("status", JStr("CANCELED"))]
  }

  /** The query of the PATCH that resolves a prediction with a winning outcome. */
  function ResolveParams(broadcasterId: Option<string>, id: Json, winner: Json): seq<(string, Json)> {
    [("broadcaster_id", OptJson(broadcasterId)), ("id", id), ("status", JStr("RESOLVED")),
     ("winning_outcome_id", winner)]
  }

  /** The PATCH itself: only its transport failure matters, since the answer is just printed. */
  function Patched(before: seq<Request>, params: seq<(string, Json)>, patch: HttpAnswer): Run<()> {
    Run(before + [HttpPatch(PredictionsUrl, params)], if patch.TransportFailure? then Raised(RequestError) else Returned(()))
  }

  /** `DeletePrediction`: cancel the current prediction, if there is one. */
  function DeletePrediction(broadcasterId: Option<string>, current: HttpAnswer, patch: HttpAnswer,
                            decode: string -> Result<Json, string>): Run<()> {
    var c := GetCurrentPrediction(broadcasterId, current, decode);
    match c.result
    case Raised(e) => Run(c.requests, Raised(e))
    case Returned(pred) =>
      if !PyTruthy(pred) then Run(c.requests, Returned(()))
      else
        match GetItem(pred, "id")
        case Raised(e) => Run(c.requests, Raised(e))
        case Returned(id) => Patched(c.requests, CancelParams(broadcasterId, id), patch)
  }

  /** `EndPrediction`: resolve the current prediction with outcome number `outcome`. */
  function EndPrediction(outcome: Option<int>, broadcasterId: Option<string>, current: HttpAnswer, patch: HttpAnswer,
                         decode: string -> Result<Json, string>): Run<()> {
    if outcome.None? || outcome.value < 0 || outcome.value > 2 then Run([], Returned(()))
    else
      var c := GetCurrentPrediction(broadcasterId, current, decode);
      match c.result
      case Raised(e) => Run(c.requests, Raised(e))
      case Returned(pred) =>
        if !PyTruthy(pred) then Run(c.requests, Returned(()))
        else Resolve(c.requests, outcome.value, broadcasterId, pred, patch)
  }

  /** `EndPrediction` once it has a current prediction `pred`: the outcome guard, the lookups and the PATCH. */
  function Resolve(before: seq<Request>, k: nat, broadcasterId: Option<string>, pred: Json, patch: HttpAnswer): Run<()> {
    match GetItem(pred, "id")
    case Raised(e) => Run(before, Raised(e))
    case Returned(id) =>
      match GetItem(pred, "outcomes")
      case Raised(e) => Run(before, Raised(e))
      case Returned(outcomes) =>
        match Len(outcomes)
        case Raised(e) => Run(before, Raised(e))
        case Returned(n) =>
          if k > n then Run(before, Returned(()))
          else
            match GetIndex(outcomes, k)
            case Raised(e) => Run(before, Raised(e))
            case Returned(o) =>
              match GetItem(o, "id")
              case Raised(e) => Run(before, Raised(e))
              case Returned(winner) => Patched(before, ResolveParams(broadcasterId, id, winner), patch)
  }

  /** Resolving adds at most one request to those before it: a PATCH of the predictions. */
  lemma ResolvePatchesOnce(before: seq<Request>, k: nat, broadcasterId: Option<string>, pred: Json, patch: HttpAnswer)
    ensures var r := Resolve(before, k, broadcasterId, pred, patch).requests;
      r == before || (|r| == |before| + 1 && r[..|before|] == before && r[|before|].HttpPatch? && r[|before|].url == PredictionsUrl)
  {
    var r := Resolve(before, k, broadcasterId, pred, patch).requests;
    if r != before {
      assert r[..|before|] == before;
    }
  }

  /** Some request of the run is a PATCH. */
  predicate Patches(requests: seq<Request>) {
    exists i :: 0 <= i < |requests| && requests[i].HttpPatch?
  }

  /** An outcome number that is missing, negative or above 2 makes no request at all. */
  lemma EndRejectsOutcome(outcome: Option<int>, broadcasterId: Option<string>, current: HttpAnswer, patch: HttpAnswer,
                          decode: string -> Result<Json, string>)
    requires outcome.None? || outcome.value < 0 || outcome.value > 2
    ensures EndPrediction(outcome, broadcasterId, current, patch, decode) == Run([], Returned(()))
  {
  }

  /**
   * Ending and cancelling without a current prediction make only the GET
   * and return `None`.
   */
  lemma NoCurrentNoPatch(outcome: int, broadcasterId: Option<string>, current: HttpAnswer, patch: HttpAnswer,
                         decode: string -> Result<Json, string>)
    requires 0 <= outcome <= 2
    requires var c := GetCurrentPrediction(broadcasterId, current, decode).result;
      c.Returned? && !PyTruthy(c.value)
    ensures EndPrediction(Some(outcome), broadcasterId, current, patch, decode) == Run([ListRequest(broadcasterId)], Returned(()))
    ensures DeletePrediction(broadcasterId, current, patch, decode) == Run([ListRequest(broadcasterId)], Returned(()))
  {
  }

  /** A request list that is the GET alone, or the GET followed by one PATCH of the predictions. */
  predicate GetThenPatch(r: seq<Request>, broadcasterId: Option<string>) {
    r == [ListRequest(broadcasterId)]
    || (|r| == 2 && r[0] == ListRequest(broadcasterId) && r[1].HttpPatch? && r[1].url == PredictionsUrl)
  }

  /** Ending makes no request, or the GET and at most one PATCH after it. */
  lemma EndPatchesAfterGet(outcome: Option<int>, broadcasterId: Option<string>, current: HttpAnswer, patch: HttpAnswer,
                           decode: string -> Result<Json, string>)
    ensures var r := EndPrediction(outcome, broadcasterId, current, patch, decode).requests;
      r == [] || GetThenPatch(r, broadcasterId)
  {
    if outcome.Some? && 0 <= outcome.value <= 2 {
      var c := GetCurrentPrediction(broadcasterId, current, decode);
      if c.result.Returned? && PyTruthy(c.result.value) {
        ResolvePatchesOnce(c.requests, outcome.value, broadcasterId, c.result.value, patch);
      }
    }
  }

  /** Cancelling makes the GET and at most one PATCH after it. */
  lemma DeletePatchesAfterGet(broadcasterId: Option<string>, current: HttpAnswer, patch: HttpAnswer,
                              decode: string -> Result<Json, string>)
    ensures GetThenPatch(DeletePrediction(broadcasterId, current, patch, decode).requests, broadcasterId)
  {
  }

  /**
   * The guard only rejects an outcome number above the number of
   * outcomes: the number equal to it passes and the index raises
   * `IndexError`, so no PATCH is sent.
   */
  lemma OutcomeAtLengthRaises(broadcasterId: Option<string>, current: HttpAnswer, patch: HttpAnswer,
                              decode: string -> Result<Json, string>, pred: Json, outcomes: seq<Json>)
    requires GetCurrentPrediction(broadcasterId, current, decode).result == Returned(pred) && PyTruthy(pred)
    requires GetItem(pred, "id").Returned? && GetItem(pred, "outcomes") == Returned(JArr(outcomes))
    requires |outcomes| <= 2
    ensures EndPrediction(Some(|outcomes|), broadcasterId, current, patch, decode).result == Raised(IndexError)
    ensures !Patches(EndPrediction(Some(|outcomes|), broadcasterId, current, patch, decode).requests)
  {
  }

  /**
   * With a current prediction, its id, and an outcome number inside its
   * list of outcomes, ending sends one PATCH that resolves the prediction
   * with that outcome's id; cancelling sends one that cancels it.
   */
  lemma EndAndDeleteParams(k: int, broadcasterId: Option<string>, current: HttpAnswer, patch: HttpAnswer,
                           decode: string -> Result<Json, string>, pred: Json, outcomes: seq<Json>)
    requires 0 <= k <= 2 && k < |outcomes|
    requires GetCurrentPrediction(broadcasterId, current, decode).result == Returned(pred) && PyTruthy(pred)
    requires GetItem(pred, "id").Returned? && GetItem(pred, "outcomes") == Returned(JArr(outcomes))
    requires GetItem(outcomes[k], "id").Returned?
    ensures var id := GetItem(pred, "id").value;
      EndPrediction(Some(k), broadcasterId, current, patch, decode).requests
        == [ListRequest(broadcasterId),
            HttpPatch(PredictionsUrl, ResolveParams(broadcasterId, id, GetItem(outcomes[k], "id").value))]
    ensures var id := GetItem(pred, "id").value;
      DeletePrediction(broadcasterId, current, patch, decode).requests
        == [ListRequest(broadcasterId), HttpPatch(PredictionsUrl, CancelParams(broadcasterId, id))]
  {
  }

  /** The channel's game and title. */
  datatype GameAndTitle = GameAndTitle(gameName: Json, title: Json)

  /** `GetCurrentGameAndTitle`: `None` on any `requests` failure, on an error status and on empty data. */
  function GetCurrentGameAndTitle(broadcasterId: Option<string>, answer: HttpAnswer,
                                  decode: string -> Result<Json, string>): Run<Option<GameAndTitle>> {
    var get := [HttpGet(ChannelsUrl, [("broadcaster_id", OptJson(broadcasterId))])];
    match answer
    case TransportFailure => Run(get, Returned(None))
    case Response(status, body) =>
      if FailedStatus(status) then Run(get, Returned(None))
      else
        match decode(body)
        case Err(_) => Run(get, Returned(None))
        case Ok(v) =>
          match GetItem(v, "data")
          case Raised(e) => Run(get, Raised(e))
          case Returned(data) =>
            if !PyTruthy(data) then Run(get, Returned(None))
            else
              match GetIndex(data, 0)
              case Raised(e) => Run(get, Raised(e))
              case Returned(channel) =>
                match GetItem(channel, "game_name")
                case Raised(e) => Run(get, Raised(e))
                case Returned(game) =>
                  match GetItem(channel, "title")
                  case Raised(e) => Run(get, Raised(e))
                  case Returned(title) => Run(get, Returned(Some(GameAndTitle(game, title))))
  }

  /**
   * An empty `data` list gives `None`; otherwise the first channel's
   * `game_name` and `title` are returned as they are.
   */
  lemma GameAndTitleOfFirst(broadcasterId: Option<string>, status: int, body: string,
                            decode: string -> Result<Json, string>, fields: seq<(string, Json)>, channels: seq<Json>)
    requires !FailedStatus(status)
    requires decode(body) == Ok(JObj(fields)) && Lookup(fields, "data") == Some(JArr(channels))
    ensures channels == [] ==> GetCurrentGameAndTitle(broadcasterId, Response(status, body), decode).result == Returned(None)
    ensures channels != [] && GetItem(channels[0], "game_name").Returned? && GetItem(channels[0], "title").Returned? ==>
      GetCurrentGameAndTitle(broadcasterId, Response(status, body), decode).result
        == Returned(Some(GameAndTitle(GetItem(channels[0], "game_name").value, GetItem(channels[0], "title").value)))
  {
  }

  /** A transport failure, an error status or a body that does not decode all give `None`. */
  lemma GameAndTitleFailures(broadcasterId: Option<string>, answer: HttpAnswer, decode: string -> Result<Json, string>)
    requires answer.TransportFailure? || FailedStatus(answer.status) || decode(answer.body).Err?
    ensures GetCurrentGameAndTitle(broadcasterId, answer, decode).result == Returned(None)
  {
  }
}
