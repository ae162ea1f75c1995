/**
 * The Twitch client of the Tauri back end (gui/src-tauri/src/twitch_api.rs):
 * the request builders, the token request, `extract_access_token`, the
 * send-once-and-retry-after-a-refresh protocol `send_with_refresh`, and the
 * two commands built on it. The shared token cell (`Arc<Mutex<String>>`) is
 * a class with one field; the network answers each request with an
 * outcome given as an input.
 */
module TwitchApi {
  import opened Wrappers
  import opened Json

  /** Rust's `u32`. */
  newtype u32 = x: int | 0 <= x < 0x1_0000_0000

  /** The body `create_twitch_prediction` posts. */
  datatype TwitchPrediction = TwitchPrediction(title: string, outcomes: seq<string>, predictionWindow: u32)

  datatype Verb = Get | Post

  datatype Payload =
    | NoPayload
    | JsonPrediction(prediction: TwitchPrediction)
    | Query(params: seq<(string, string)>)
    | Form(params: seq<(string, string)>)

  /** An HTTP request: verb, URL, `Client-ID` header (`None` when absent), bearer token (`None` when absent) and payload. */
  datatype Request = Request(verb: Verb, url: string, clientId: Option<string>, bearer: Option<string>, payload: Payload)

  /** The body of a response, or the error reading it produced. */
  datatype Body = Text(text: string) | BodyError(msg: string)

  datatype Response = Response(status: nat, body: Body)

  /** What the network makes of one sent request. */
  datatype SendOutcome = TransportError(msg: string) | Delivered(response: Response)

  const Unauthorized: nat := 401
  const PredictionsUrl := "https://api.twitch.tv/helix/predictions"
  const UsersUrl := "https://api.twitch.tv/helix/users"
  const TokenUrl := "https://id.twitch.tv/oauth2/token"
  const MissingAccessToken := "Missing access_token in Twitch response"

  /** The request a command repeats: it reads the token cell each time it is built. */
  datatype Endpoint =
    | CreatePrediction(clientId: string, prediction: TwitchPrediction)
    | UserByLogin(clientId: string, login: string)

  /** The request builder of either command, given the current content of the token cell. */
  function Build(ep: Endpoint, token: string): (r: Request)
    ensures r.bearer == Some(token) && r.clientId == Some(ep.clientId)
    ensures ep.CreatePrediction? ==> r.verb == Post && r.url == PredictionsUrl && r.payload == JsonPrediction(ep.prediction)
    ensures ep.UserByLogin? ==> r.verb == Get && r.url == UsersUrl && r.payload == Query([("login", ep.login)])
  {
    match ep
    case CreatePrediction(id, p) => Request(Post, PredictionsUrl, Some(id), Some(token), JsonPrediction(p))
    case UserByLogin(id, login) => Request(Get, UsersUrl, Some(id), Some(token), Query([("login", login)]))
  }

  /** The form `get_twitch_tokens` posts: a client-credentials grant. */
  function TokenParams(clientId: string, clientSecret: string): seq<(string, string)> {
    [("client_id", clientId), ("client_secret", clientSecret), ("grant_type", "client_credentials")]
  }

  function TokenRequest(clientId: string, clientSecret: string): (r: Request)
    ensures r.verb == Post && r.url == TokenUrl && r.clientId == None && r.bearer == None
    ensures r.payload.Form? && |r.payload.params| == 3
    ensures r.payload.params[0] == ("client_id", clientId) && r.payload.params[1] == ("client_secret", clientSecret)
    ensures r.payload.params[2] == ("grant_type", "client_credentials")
  {
    Request(Post, TokenUrl, None, None, Form(TokenParams(clientId, clientSecret)))
  }

  /** `get_twitch_tokens`: a transport error fails; otherwise the body whatever the status, `""` if it cannot be read. */
  function TokenBody(answer: SendOutcome): (r: Result<string, string>)
    ensures answer.TransportError? <==> r.Err?
    ensures answer.TransportError? ==> r.error == answer.msg
    ensures answer.Delivered? && answer.response.body.BodyError? ==> r == Ok("")
    ensures answer.Delivered? && answer.response.body.Text? ==> r == Ok(answer.response.body.text)
  {
    match answer
    case TransportError(m) => Err(m)
    case Delivered(resp) => Ok(if resp.body.Text? then resp.body.text else "")
  }

  /**
   * `extract_access_token`, given what `serde_json::from_str` made of the
   * payload: the string member `access_token` of an object.
   */
  function ExtractAccessToken(decoded: Result<Json, string>): (r: Result<string, string>)
    ensures decoded.Err? ==> r == Err(decoded.error)
    ensures decoded.Ok? && decoded.value.JObj? && Lookup(decoded.value.fields, "access_token").Some?
            && Lookup(decoded.value.fields, "access_token").value.JStr?
            ==> r == Ok(Lookup(decoded.value.fields, "access_token").value.s)
    ensures decoded.Ok? && !(decoded.value.JObj? && Lookup(decoded.value.fields, "access_token").Some?
            && Lookup(decoded.value.fields, "access_token").value.JStr?)
            ==> r == Err(MissingAccessToken)
  {
    match decoded
    case Err(e) => Err(e)
    case Ok(v) =>
      if v.JObj? then
        match Lookup(v.fields, "access_token")
        case Some(JStr(s)) => Ok(s)
        case _ => Err(MissingAccessToken)
      else Err(MissingAccessToken)
  }

  /** The last `access_token` member of an object is the one extracted, whatever precedes it. */
  lemma ExtractLastToken(fields: seq<(string, Json)>, t: string)
    ensures ExtractAccessToken(Ok(JObj(fields + [("access_token", JStr(t))]))) == Ok(t)
  {
  }

  /** An `access_token` member that is not a string is as good as none. */
  lemma ExtractNeedsString(fields: seq<(string, Json)>, v: Json)
    requires !v.JStr?
    ensures ExtractAccessToken(Ok(JObj(fields + [("access_token", v)]))) == Err(MissingAccessToken)
  {
  }

  /** A payload that is not an object yields no token. */
  lemma ExtractNeedsObject(v: Json)
    requires !v.JObj?
    ensures ExtractAccessToken(Ok(v)) == Err(MissingAccessToken)
  {
  }

  /** What the refresh closure ends with: the new access token, or the error it stopped at. */
  function NewToken(answer: SendOutcome, decode: string -> Result<Json, string>): Result<string, string> {
    match TokenBody(answer)
    case Err(e) => Err(e)
    case Ok(text) => ExtractAccessToken(decode(text))
  }

  function SendResult(o: SendOutcome): (r: Result<Response, string>)
    ensures o.TransportError? ==> r == Err(o.msg)
    ensures o.Delivered? ==> r == Ok(o.response)
  {
    match o
    case TransportError(m) => Err(m)
    case Delivered(resp) => Ok(resp)
  }

  /** One request on the wire: to the API, or to the token endpoint by the refresh. */
  datatype Event = ApiSend(request: Request) | TokenSend(request: Request)

  /** The outcome of one `send_with_refresh`: the requests sent, the final token cell and the result. */
  datatype Exchange = Exchange(events: seq<Event>, token: string, result: Result<Response, string>)

  /**
   * `send_with_refresh` with the refresh closure of the two commands: send
   * once; return a transport error or any status but 401 as it is;
   * on 401 refresh the token cell, stop if that fails, and otherwise build
   * and send once more and return whatever that gives.
   */
  function Protocol(ep: Endpoint, clientSecret: string, token: string, first: SendOutcome,
                    refreshed: Result<string, string>, second: SendOutcome): Exchange
  {
    var send1 := ApiSend(Build(ep, token));
    if first.TransportError? || first.response.status != Unauthorized then
      Exchange([send1], token, SendResult(first))
    else
      var refresh := TokenSend(TokenRequest(ep.clientId, clientSecret));
      match refreshed
      case Err(e) => Exchange([send1, refresh], token, Err(e))
      case Ok(t) => Exchange([send1, refresh, ApiSend(Build(ep, t))], t, SendResult(second))
  }

  function ApiSends(events: seq<Event>): nat {
    if events == [] then 0
    else ApiSends(events[..|events| - 1]) + (if events[|events| - 1].ApiSend? then 1 else 0)
  }

  function TokenSends(events: seq<Event>): nat {
    if events == [] then 0
    else TokenSends(events[..|events| - 1]) + (if events[|events| - 1].TokenSend? then 1 else 0)
  }

  /** A transport error on the first send is returned at once; nothing is refreshed or resent. */
  lemma TransportErrorReturned(ep: Endpoint, secret: string, token: string, msg: string,
                               refreshed: Result<string, string>, second: SendOutcome)
    ensures Protocol(ep, secret, token, TransportError(msg), refreshed, second)
            == Exchange([ApiSend(Build(ep, token))], token, Err(msg))
  {
  }

  /** A first response other than 401, an error status included, is returned unchanged with no refresh. */
  lemma OtherStatusReturned(ep: Endpoint, secret: string, token: string, resp: Response,
                            refreshed: Result<string, string>, second: SendOutcome)
    requires resp.status != Unauthorized
    ensures Protocol(ep, secret, token, Delivered(resp), refreshed, second)
            == Exchange([ApiSend(Build(ep, token))], token, Ok(resp))
  {
  }

  /** On 401 the token endpoint is asked exactly once; if that fails its error is returned and nothing is resent. */
  lemma FailedRefreshNotResent(ep: Endpoint, secret: string, token: string, body: Body,
                               e: string, second: SendOutcome)
    ensures Protocol(ep, secret, token, Delivered(Response(Unauthorized, body)), Err(e), second)
            == Exchange([ApiSend(Build(ep, token)), TokenSend(TokenRequest(ep.clientId, secret))], token, Err(e))
  {
  }

  /**
   * After a successful refresh the request is rebuilt from the token cell,
   * so the retry carries the new bearer token, is sent exactly once, and its
   * outcome, a second 401 included, is the result.
   */
  lemma RetryCarriesNewToken(ep: Endpoint, secret: string, token: string, body: Body,
                             t: string, second: SendOutcome)
    ensures var x := Protocol(ep, secret, token, Delivered(Response(Unauthorized, body)), Ok(t), second);
      |x.events| == 3 && x.events[2] == ApiSend(Build(ep, t)) && x.events[2].request.bearer == Some(t)
      && x.token == t && x.result == SendResult(second)
  {
  }

  /** Whatever the network answers: at most two sends, at most one refresh, and a refresh only after a 401. */
  lemma {:induction false} SendBounds(ep: Endpoint, secret: string, token: string, first: SendOutcome,
                                      refreshed: Result<string, string>, second: SendOutcome)
    ensures var x := Protocol(ep, secret, token, first, refreshed, second);
      ApiSends(x.events) <= 2 && TokenSends(x.events) <= 1
      && (TokenSends(x.events) == 1 <==> first.Delivered? && first.response.status == Unauthorized)
      && x.events[0] == ApiSend(Build(ep, token))
  {
    var x := Protocol(ep, secret, token, first, refreshed, second);
    var e := x.events;
    assert e[..1] == [e[0]];
    assert ApiSends([e[0]]) == 1 && TokenSends([e[0]]) == 0 by {
      assert [e[0]][..0] == [];
    }
    if |e| >= 2 {
      assert e[..2][..1] == e[..1];
      assert ApiSends(e[..2]) == 1 && TokenSends(e[..2]) == 1;
    }
    if |e| == 3 {
      assert e[..3][..2] == e[..2];
      assert e[..3] == e;
    }
    if |e| == 2 {
      assert e[..2] == e;
    }
    if |e| == 1 {
      assert e[..1] == e;
    }
  }

  /** The shared token cell of one command (`Arc<Mutex<String>>`), with the requests sent on its behalf. */
  class TokenStore {
    var token: string
    var events: seq<Event>

    constructor(token: string)
      ensures this.token == token && events == []
    {
      this.token := token;
      events := [];
    }

    /** The refresh closure: fetch tokens, extract the access token and overwrite the cell with it. */
    method Refresh(clientId: string, clientSecret: string, answer: SendOutcome, decode: string -> Result<Json, string>)
      returns (r: Result<(), string>)
      modifies this
      ensures events == old(events) + [TokenSend(TokenRequest(clientId, clientSecret))]
      ensures r.Err? <==> NewToken(answer, decode).Err?
      ensures r.Err? ==> r.error == NewToken(answer, decode).error && token == old(token)
      ensures r.Ok? ==> token == NewToken(answer, decode).value
    {
      events := events + [TokenSend(TokenRequest(clientId, clientSecret))];
      var refreshed := TokenBody(answer);
      if refreshed.Err? {
        return Err(refreshed.error);
      }
      var newToken := ExtractAccessToken(decode(refreshed.value));
      if newToken.Err? {
        return Err(newToken.error);
      }
      token := newToken.value;
      r := Ok(());
    }

    /** `send_with_refresh`, the network answering the two possible sends with `first` and `second`. */
    method SendWithRefresh(ep: Endpoint, clientSecret: string, first: SendOutcome, answer: SendOutcome,
                           decode: string -> Result<Json, string>, second: SendOutcome)
      returns (r: Result<Response, string>)
      modifies this
      ensures var x := Protocol(ep, clientSecret, old(token), first, NewToken(answer, decode), second);
        events == old(events) + x.events && token == x.token && r == x.result
    {
      events := events + [ApiSend(Build(ep, token))];
      if first.TransportError? {
        return Err(first.msg);
      }
      if first.response.status != Unauthorized {
        return Ok(first.response);
      }
      var refreshed := Refresh(ep.clientId, clientSecret, answer, decode);
      if refreshed.Err? {
        return Err(refreshed.error);
      }
      events := events + [ApiSend(Build(ep, token))];
      r := SendResult(second);
    }
  }

  /** What a command returns: the response body (its read error if it cannot be read), or the error the protocol stopped at. */
  function BodyResult(sent: Result<Response, string>): (r: Result<string, string>)
    ensures sent.Err? ==> r == Err(sent.error)
    ensures sent.Ok? && sent.value.body.Text? ==> r == Ok(sent.value.body.text)
    ensures sent.Ok? && sent.value.body.BodyError? ==> r == Err(sent.value.body.msg)
  {
    match sent
    case Err(e) => Err(e)
    case Ok(resp) => if resp.body.Text? then Ok(resp.body.text) else Err(resp.body.msg)
  }

  /** `create_twitch_prediction`: post the prediction with the given token, refreshing once on 401. */
  method CreateTwitchPrediction(clientId: string, clientSecret: string, accessToken: string, prediction: TwitchPrediction,
                                first: SendOutcome, answer: SendOutcome, decode: string -> Result<Json, string>,
                                second: SendOutcome)
    returns (r: Result<string, string>, events: seq<Event>)
    ensures var x := Protocol(CreatePrediction(clientId, prediction), clientSecret, accessToken, first,
                              NewToken(answer, decode), second);
      events == x.events && r == BodyResult(x.result)
  {
    var store := new TokenStore(accessToken);
    var sent := store.SendWithRefresh(CreatePrediction(clientId, prediction), clientSecret, first, answer, decode, second);
    r := BodyResult(sent);
    events := store.events;
  }

  /** `get_user_id`: look the login up with the given token, refreshing once on 401. */
  method GetUserId(clientId: string, clientSecret: string, accessToken: string, username: string,
                   first: SendOutcome, answer: SendOutcome, decode: string -> Result<Json, string>, second: SendOutcome)
    returns (r: Result<string, string>, events: seq<Event>)
    ensures var x := Protocol(UserByLogin(clientId, username), clientSecret, accessToken, first,
                              NewToken(answer, decode), second);
      events == x.events && r == BodyResult(x.result)
  {
    var store := new TokenStore(accessToken);
    var sent := store.SendWithRefresh(UserByLogin(clientId, username), clientSecret, first, answer, decode, second);
    r := BodyResult(sent);
    events := store.events;
  }
}
