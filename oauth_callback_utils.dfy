/**
 * The OAuth helpers: `verifyState`, the check of the `state` parameter
 * Twitch sends back against the one stored in `.oauth_state`, and
 * `exchangeCodeForTokens`, which trades the authorization code for an
 * access and a refresh token and stores both in `.env`.
 */
module OAuthUtils {
  import opened Wrappers
  import opened Json
  import opened Js
  import opened JsJson
  import opened DotEnv
  import opened Tauri
  import opened TwitchHandler

  /** The redirect URI `exchangeCodeForTokens` sends, whatever the settings say. */
  const FixedRedirectUri := "http://localhost:3000/callback"

  /** `diskState.trim() || null`: the stored state, `None` when only whitespace was stored. */
  function StoredState(contents: string): (r: Option<string>)
    ensures r.Some? ==> r.value != "" && r.value == JsTrim(contents)
    ensures r.None? <==> JsTrim(contents) == ""
  {
    var t := JsTrim(contents);
    if t == "" then None else Some(t)
  }

  /**
   * `verifyState`. `read` answers the read of `.oauth_state` and `cleared`
   * says whether the write that empties it resolves.
   */
  method VerifyState(returnedState: string, read: ReadResult, cleared: bool) returns (ok: bool, calls: seq<Call>)
    ensures ok <==> read.Read? && JsTrim(read.contents) != "" && JsTrim(read.contents) == returnedState && cleared
    ensures calls == [ReadFile(StatePath)]
      + (if read.Read? && StoredState(read.contents) == Some(returnedState) then [WriteFile(StatePath, "")] else [])
  {
    calls := [ReadFile(StatePath)];
    if read.ReadFailed? {
      return false, calls;
    }
    var storedState := StoredState(read.contents);
    if storedState.None? || storedState.value != returnedState {
      return false, calls;
    }
    calls := calls + [WriteFile(StatePath, "")];
    if !cleared {
      return false, calls;
    }
    return true, calls;
  }

  /** What the token payload tells the caller. */
  datatype TokenAnswer =
      /** The text is not JSON, or it is `null`, so reading a member throws. */
    | Thrown
      /** A truthy `error` member, with the text of `error_description ?? error`. */
    | Refused(detail: string)
      /** An access or a refresh token is missing or falsy. */
    | Incomplete
      /** Both tokens, as the text `.env` receives. */
    | Granted(access: string, refresh: string)

  /** The checks both callback handlers make on the answer of `exchange_code_for_tokens_cmd`. */
  function ReadTokenAnswer(text: string, decode: string -> Result<Json, string>): TokenAnswer
  {
    match decode(text)
    case Err(_) => Thrown
    case Ok(payload) =>
      match Property(payload, "error")
      case Err(_) => Thrown
      case Ok(error) =>
        if JsonTruthy(error) then
          Refused(OptText(Nullish(Property(payload, "error_description").value, error)))
        else
          var accessToken := Property(payload, "access_token").value;
          var refreshToken := Property(payload, "refresh_token").value;
          if !JsonTruthy(accessToken) || !JsonTruthy(refreshToken) then Incomplete
          else Granted(OptText(accessToken), OptText(refreshToken))
  }

  /**
   * The answer throws when the text does not decode or decodes to `null`,
   * is refused when an object carries a truthy `error`, and grants exactly
   * when an object without one carries both tokens.
   */
  lemma ReadTokenAnswerSpec(text: string, decode: string -> Result<Json, string>)
    ensures ReadTokenAnswer(text, decode).Thrown? <==> decode(text).Err? || decode(text).value.JNull?
    ensures ReadTokenAnswer(text, decode).Refused? <==>
      decode(text).Ok? && decode(text).value.JObj?
      && JsonTruthy(Lookup(decode(text).value.fields, "error"))
    ensures ReadTokenAnswer(text, decode).Granted? <==>
      decode(text).Ok? && decode(text).value.JObj?
      && !JsonTruthy(Lookup(decode(text).value.fields, "error"))
      && JsonTruthy(Lookup(decode(text).value.fields, "access_token"))
      && JsonTruthy(Lookup(decode(text).value.fields, "refresh_token"))
    ensures ReadTokenAnswer(text, decode).Granted? ==>
      ReadTokenAnswer(text, decode).access == OptText(Lookup(decode(text).value.fields, "access_token"))
      && ReadTokenAnswer(text, decode).refresh == OptText(Lookup(decode(text).value.fields, "refresh_token"))
  {
  }

  /** The settings after a successful exchange: both new tokens, and an empty broadcaster id. */
  function WithNewTokens(env: Env, access: string, refresh: string): Env {
    Put(Put(Put(env, AccessTokenKey, access), RefreshTokenKey, refresh), BroadcasterIdKey, "")
  }

  /**
   * The new settings hold both tokens and the empty broadcaster id, and
   * every other key reads as before.
   */
  lemma NewTokensStored(env: Env, access: string, refresh: string, other: string)
    requires other != AccessTokenKey && other != RefreshTokenKey && other != BroadcasterIdKey
    ensures Get(WithNewTokens(env, access, refresh), AccessTokenKey) == Some(access)
    ensures Get(WithNewTokens(env, access, refresh), RefreshTokenKey) == Some(refresh)
    ensures Get(WithNewTokens(env, access, refresh), BroadcasterIdKey) == Some("")
    ensures Get(WithNewTokens(env, access, refresh), other) == Get(env, other)
  {
    var e1 := Put(env, AccessTokenKey, access);
    var e2 := Put(e1, RefreshTokenKey, refresh);
    PutSame(env, AccessTokenKey, access);
    PutOther(e1, RefreshTokenKey, refresh, AccessTokenKey);
    PutOther(e2, BroadcasterIdKey, "", AccessTokenKey);
    PutSame(e1, RefreshTokenKey, refresh);
    PutOther(e2, BroadcasterIdKey, "", RefreshTokenKey);
    PutSame(e2, BroadcasterIdKey, "");
    PutOther(env, AccessTokenKey, access, other);
    PutOther(e1, RefreshTokenKey, refresh, other);
    PutOther(e2, BroadcasterIdKey, "", other);
  }

  /** The keys already present keep their places, and a settings object with distinct keys keeps them distinct. */
  lemma NewTokensKeepOrder(env: Env, access: string, refresh: string)
    ensures var r := WithNewTokens(env, access, refresh);
      |env| <= |r| <= |env| + 3 && forall i :: 0 <= i < |env| ==> r[i].key == env[i].key
    ensures DistinctKeys(env) ==> DistinctKeys(WithNewTokens(env, access, refresh))
  {
  }

  /**
   * `exchangeCodeForTokens`. `reply` answers the exchange command,
   * `decode` stands for `JSON.parse` and `envRead` answers the read of
   * `.env`. A rejection anywhere ends in the `catch`, which only logs.
   */
  method ExchangeCodeForTokens(code: string, clientId: string, clientSecret: string, reply: Reply,
                               decode: string -> Result<Json, string>, envRead: ReadResult)
    returns (calls: seq<Call>)
    ensures |calls| >= 1 && calls[0] == ExchangeCode(code, clientId, clientSecret, FixedRedirectUri)
    ensures reply.Rejected? || !ReadTokenAnswer(reply.text, decode).Granted? ==> |calls| == 1
    ensures reply.Resolved? && ReadTokenAnswer(reply.text, decode).Granted? && envRead.ReadFailed? ==>
      calls == [ExchangeCode(code, clientId, clientSecret, FixedRedirectUri), ReadFile(EnvPath)]
    ensures reply.Resolved? && ReadTokenAnswer(reply.text, decode).Granted? && envRead.Read? ==>
      var t := ReadTokenAnswer(reply.text, decode);
      calls == [ExchangeCode(code, clientId, clientSecret, FixedRedirectUri), ReadFile(EnvPath),
                WriteDotEnv(EnvPath, WithNewTokens(ParseDotEnv(envRead.contents), t.access, t.refresh))]
  {
    var exchange := ExchangeCode(code, clientId, clientSecret, FixedRedirectUri);
    calls := [exchange];
    if reply.Rejected? {
      return;
    }
    var answer := ReadTokenAnswer(reply.text, decode);
    if !answer.Granted? {
      return;
    }
    calls := [exchange, ReadFile(EnvPath)];
    if envRead.ReadFailed? {
      return;
    }
    var envData := WithNewTokens(ParseDotEnv(envRead.contents), answer.access, answer.refresh);
    calls := [exchange, ReadFile(EnvPath), WriteDotEnv(EnvPath, envData)];
  }

  /** An error payload ends the exchange before `.env` is read or written. */
  lemma ErrorPayloadLeavesEnv(text: string, decode: string -> Result<Json, string>, fields: seq<(string, Json)>)
    requires decode(text) == Ok(JObj(fields)) && JsonTruthy(Lookup(fields, "error"))
    ensures ReadTokenAnswer(text, decode).Refused?
    ensures ReadTokenAnswer(text, decode).detail
      == OptText(Nullish(Lookup(fields, "error_description"), Lookup(fields, "error")))
  {
  }

  /** A payload without both tokens ends the exchange before `.env` is read or written. */
  lemma MissingTokenLeavesEnv(text: string, decode: string -> Result<Json, string>, fields: seq<(string, Json)>)
    requires decode(text) == Ok(JObj(fields)) && !JsonTruthy(Lookup(fields, "error"))
    requires !JsonTruthy(Lookup(fields, "access_token")) || !JsonTruthy(Lookup(fields, "refresh_token"))
    ensures ReadTokenAnswer(text, decode) == Incomplete
  {
  }
}
