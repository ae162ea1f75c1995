/**
 * The page Twitch redirects to after the user authorizes the app. Once
 * per mount it reads the callback parameters, checks the returned
 * `state` against `.oauth_state`, exchanges the code for tokens and
 * stores them in `.env`, and shows the outcome.
 */
module OAuthPage {
  import opened Wrappers
  import opened Json
  import opened Js
  import opened DotEnv
  import opened Tauri
  import opened TwitchHandler
  import opened OAuthUtils

  datatype Status = Processing | Success | Failure

  const ProcessingMessage := "Processing Twitch authorization\U{2026}"
  const NoDataMessage := "No Twitch authorization data found in callback."
  const AuthFailedPrefix := "Twitch authorization failed: "
  const StateMismatchMessage := "Authorization state mismatch. Please retry the login."
  const MissingSettingsMessage := "Missing Twitch credentials or redirect URI in settings."
  const ExchangeFailedPrefix := "Twitch token exchange failed: "
  const NoTokensMessage := "Twitch token response did not include expected credentials."
  const ConnectedMessage := "Twitch account connected! Redirecting\U{2026}"
  const WentWrongMessage := "Something went wrong while completing Twitch authorization."

  /** The query parameters `error`, `code` and `state`; `None` is a missing parameter. */
  datatype Params = Params(error: Option<string>, code: Option<string>, state: Option<string>)

  /**
   * What the commands answer, and whether the page was unmounted before
   * the handler finished (the `cancelled` flag of the effect's cleanup).
   */
  datatype Answers = Answers(stateRead: ReadResult, envRead: ReadResult, exchange: Reply,
                             envWritten: bool, cancelled: bool)

  /** A status and a message the handler sets. */
  datatype Shown = Shown(status: Status, message: string)

  /** The commands the handler invokes, what it shows (if anything), and whether it schedules the redirect home. */
  datatype Outcome = Outcome(calls: seq<Call>, shown: Option<Shown>, redirect: bool)

  /** A parameter that is present and not empty, so truthy. */
  predicate Given(p: Option<string>) {
    p.Some? && p.value != ""
  }

  /** `envData.KEY?.trim()`. */
  function TrimmedSetting(env: Env, key: string): Option<string> {
    match Get(env, key)
    case None => None
    case Some(v) => Some(JsTrim(v))
  }

  /** The stored state as the handler sees it: a failed read counts as none. */
  function StoredStateOf(read: ReadResult): Option<string> {
    if read.Read? then StoredState(read.contents) else None
  }

  /** The `catch` branch: an error message, unless the page is gone. */
  function Crashed(calls: seq<Call>, cancelled: bool): Outcome {
    Outcome(calls, if cancelled then None else Some(Shown(Failure, WentWrongMessage)), false)
  }

  /**
   * `handleOAuthCallback`. The check `!code` after the `error` check is
   * left out: the first check has already returned when both are falsy.
   */
  function Callback(p: Params, a: Answers, decode: string -> Result<Json, string>): Outcome {
    if !Given(p.error) && !Given(p.code) then Outcome([], Some(Shown(Failure, NoDataMessage)), false)
    else if Given(p.error) then
      Outcome([ReadFile(StatePath)], Some(Shown(Failure, AuthFailedPrefix + p.error.value)), false)
    else if StoredStateOf(a.stateRead).None? || !Given(p.state) || StoredStateOf(a.stateRead) != p.state then
      Outcome([ReadFile(StatePath)], Some(Shown(Failure, StateMismatchMessage)), false)
    else
      var cleared := [ReadFile(StatePath), WriteFile(StatePath, ""), ReadFile(EnvPath)];
      if a.envRead.ReadFailed? then Crashed(cleared, a.cancelled)
      else
        var envData := ParseDotEnv(a.envRead.contents);
        var clientId := TrimmedSetting(envData, ClientIdKey);
        var clientSecret := TrimmedSetting(envData, ClientSecretKey);
        var redirectUri := TrimmedSetting(envData, RedirectUriKey);
        if !Given(clientId) || !Given(clientSecret) || !Given(redirectUri) then
          Outcome(cleared, Some(Shown(Failure, MissingSettingsMessage)), false)
        else Exchange(cleared, p.code.value, clientId.value, clientSecret.value, redirectUri.value, envData, a, decode)
  }

  /** The handler from the exchange on, after the commands `before`. */
  function Exchange(before: seq<Call>, code: string, clientId: string, clientSecret: string, redirectUri: string,
                    envData: Env, a: Answers, decode: string -> Result<Json, string>): Outcome {
    var exchanged := before + [ExchangeCode(code, clientId, clientSecret, redirectUri)];
    if a.exchange.Rejected? then Crashed(exchanged, a.cancelled)
    else
      match ReadTokenAnswer(a.exchange.text, decode)
      case Thrown => Crashed(exchanged, a.cancelled)
      case Refused(detail) => Outcome(exchanged, Some(Shown(Failure, ExchangeFailedPrefix + detail)), false)
      case Incomplete => Outcome(exchanged, Some(Shown(Failure, NoTokensMessage)), false)
      case Granted(access, refresh) =>
        var written := exchanged + [WriteDotEnv(EnvPath, WithNewTokens(envData, access, refresh))];
        if !a.envWritten then Crashed(written, a.cancelled)
        else if a.cancelled then Outcome(written, None, false)
        else Outcome(written, Some(Shown(Success, ConnectedMessage)), true)
  }

  /** Some command in `calls` is the code exchange. */
  predicate Exchanges(calls: seq<Call>) {
    exists i :: 0 <= i < |calls| && calls[i].ExchangeCode?
  }

  /** The callback carries a code and no error, and its `state` is the non-empty stored one. */
  predicate StateAccepted(p: Params, a: Answers) {
    !Given(p.error) && Given(p.code) && StoredStateOf(a.stateRead).Some? && p.state == StoredStateOf(a.stateRead)
  }

  /** The settings read from `.env` hold the client id, the secret and the redirect URI. */
  predicate SettingsPresent(a: Answers) {
    a.envRead.Read?
    && Given(TrimmedSetting(ParseDotEnv(a.envRead.contents), ClientIdKey))
    && Given(TrimmedSetting(ParseDotEnv(a.envRead.contents), ClientSecretKey))
    && Given(TrimmedSetting(ParseDotEnv(a.envRead.contents), RedirectUriKey))
  }

  /** An `error` parameter wins over a code: the handler only reads the stored state and reports it. */
  lemma ErrorParamWins(p: Params, a: Answers, decode: string -> Result<Json, string>)
    requires Given(p.error)
    ensures Callback(p, a, decode) == Outcome([ReadFile(StatePath)], Some(Shown(Failure, AuthFailedPrefix + p.error.value)), false)
    ensures !Exchanges(Callback(p, a, decode).calls)
  {
  }

  /**
   * Without an accepted state nothing is written and nothing exchanged;
   * with one, the stored state is cleared right after it is read, before
   * any exchange.
   */
  lemma StateGuardsExchange(p: Params, a: Answers, decode: string -> Result<Json, string>)
    ensures var o := Callback(p, a, decode);
      !StateAccepted(p, a) ==> !Exchanges(o.calls) && Writes(o.calls, StatePath) == 0 && Writes(o.calls, EnvPath) == 0
    ensures var o := Callback(p, a, decode);
      StateAccepted(p, a) ==> |o.calls| >= 3 && o.calls[..3] == [ReadFile(StatePath), WriteFile(StatePath, ""), ReadFile(EnvPath)]
    ensures Exchanges(Callback(p, a, decode).calls) ==> StateAccepted(p, a) && SettingsPresent(a)
  {
    var o := Callback(p, a, decode);
    if !StateAccepted(p, a) {
      assert o.calls == [] || o.calls == [ReadFile(StatePath)];
    } else {
      var cleared := [ReadFile(StatePath), WriteFile(StatePath, ""), ReadFile(EnvPath)];
      assert o.calls[..3] == cleared by {
        if SettingsPresent(a) {
          var envData := ParseDotEnv(a.envRead.contents);
          ExchangeExtends(cleared, p.code.value, TrimmedSetting(envData, ClientIdKey).value,
            TrimmedSetting(envData, ClientSecretKey).value, TrimmedSetting(envData, RedirectUriKey).value,
            envData, a, decode);
        }
      }
      if !SettingsPresent(a) {
        assert o.calls == cleared;
        assert !o.calls[0].ExchangeCode? && !o.calls[1].ExchangeCode? && !o.calls[2].ExchangeCode?;
      }
    }
  }

  /** The token answer allows the write: the exchange resolved with both tokens. */
  predicate TokensGranted(a: Answers, decode: string -> Result<Json, string>) {
    a.exchange.Resolved? && ReadTokenAnswer(a.exchange.text, decode).Granted?
  }

  /** The write of `.env` an exchange granted both tokens makes. */
  function TokenWrite(envData: Env, a: Answers, decode: string -> Result<Json, string>): Call
    requires TokensGranted(a, decode)
  {
    var t := ReadTokenAnswer(a.exchange.text, decode);
    WriteDotEnv(EnvPath, WithNewTokens(envData, t.access, t.refresh))
  }

  /** The exchange part appends the exchange, and the write of `.env` when both tokens are granted. */
  lemma ExchangeCalls(before: seq<Call>, code: string, clientId: string, clientSecret: string, redirectUri: string,
                      envData: Env, a: Answers, decode: string -> Result<Json, string>)
    ensures var o := Exchange(before, code, clientId, clientSecret, redirectUri, envData, a, decode);
      o.calls == before + [ExchangeCode(code, clientId, clientSecret, redirectUri)]
        + (if TokensGranted(a, decode) then [TokenWrite(envData, a, decode)] else [])
  {
  }

  /** The exchange part only appends to the commands before it, the exchange first. */
  lemma ExchangeExtends(before: seq<Call>, code: string, clientId: string, clientSecret: string, redirectUri: string,
                        envData: Env, a: Answers, decode: string -> Result<Json, string>)
    ensures var o := Exchange(before, code, clientId, clientSecret, redirectUri, envData, a, decode);
      |o.calls| > |before| && o.calls[..|before|] == before
      && o.calls[|before|] == ExchangeCode(code, clientId, clientSecret, redirectUri)
  {
    ExchangeCalls(before, code, clientId, clientSecret, redirectUri, envData, a, decode);
    var o := Exchange(before, code, clientId, clientSecret, redirectUri, envData, a, decode);
    assert o.calls[..|before|] == before;
  }

  /** The exchange part writes `.env` once when it is granted both tokens, and otherwise not at all. */
  lemma ExchangeWrites(before: seq<Call>, code: string, clientId: string, clientSecret: string, redirectUri: string,
                       envData: Env, a: Answers, decode: string -> Result<Json, string>)
    ensures var o := Exchange(before, code, clientId, clientSecret, redirectUri, envData, a, decode);
      Writes(o.calls, EnvPath) == Writes(before, EnvPath) + (if TokensGranted(a, decode) then 1 else 0)
    ensures var o := Exchange(before, code, clientId, clientSecret, redirectUri, envData, a, decode);
      TokensGranted(a, decode) ==> o.calls[|o.calls| - 1] == TokenWrite(envData, a, decode)
  {
    ExchangeCalls(before, code, clientId, clientSecret, redirectUri, envData, a, decode);
    var exchange := ExchangeCode(code, clientId, clientSecret, redirectUri);
    var tail := if TokensGranted(a, decode) then [TokenWrite(envData, a, decode)] else [];
    WritesAppend(before, [exchange], EnvPath);
    WritesAppend(before + [exchange], tail, EnvPath);
    assert Writes([exchange], EnvPath) == 0 by {
      assert [exchange][..0] == [];
    }
    assert Writes(tail, EnvPath) == (if TokensGranted(a, decode) then 1 else 0) by {
      if tail != [] {
        assert tail[..0] == [];
      }
    }
  }

  /**
   * `.env` is written at most once, exactly when the state was accepted,
   * the settings were present and the exchange granted both tokens; the
   * write is then the last command and stores those tokens.
   */
  lemma EnvWrittenOnce(p: Params, a: Answers, decode: string -> Result<Json, string>)
    ensures Writes(Callback(p, a, decode).calls, EnvPath) <= 1
    ensures Writes(Callback(p, a, decode).calls, EnvPath) == 1
      <==> StateAccepted(p, a) && SettingsPresent(a) && TokensGranted(a, decode)
    ensures var o := Callback(p, a, decode);
      StateAccepted(p, a) && SettingsPresent(a) && TokensGranted(a, decode) ==>
        o.calls[|o.calls| - 1] == TokenWrite(ParseDotEnv(a.envRead.contents), a, decode)
  {
    var o := Callback(p, a, decode);
    var cleared := [ReadFile(StatePath), WriteFile(StatePath, ""), ReadFile(EnvPath)];
    assert Writes(cleared, EnvPath) == 0 by {
      WritesNone(cleared, EnvPath);
    }
    assert Writes([ReadFile(StatePath)], EnvPath) == 0 by {
      WritesNone([ReadFile(StatePath)], EnvPath);
    }
    if StateAccepted(p, a) && SettingsPresent(a) {
      var envData := ParseDotEnv(a.envRead.contents);
      ExchangeWrites(cleared, p.code.value, TrimmedSetting(envData, ClientIdKey).value,
        TrimmedSetting(envData, ClientSecretKey).value, TrimmedSetting(envData, RedirectUriKey).value,
        envData, a, decode);
    }
  }

  /**
   * The page reports success, and schedules the way home, exactly when
   * every step succeeded and the page is still mounted.
   */
  lemma SuccessIff(p: Params, a: Answers, decode: string -> Result<Json, string>)
    ensures var o := Callback(p, a, decode);
      o.redirect <==> StateAccepted(p, a) && SettingsPresent(a) && TokensGranted(a, decode) && a.envWritten && !a.cancelled
    ensures var o := Callback(p, a, decode);
      (o.shown.Some? && o.shown.value.status == Success) <==> o.redirect
    ensures var o := Callback(p, a, decode);
      o.redirect ==> o.shown == Some(Shown(Success, ConnectedMessage))
  {
    if StateAccepted(p, a) && SettingsPresent(a) {
      var envData := ParseDotEnv(a.envRead.contents);
      ExchangeSuccess([ReadFile(StatePath), WriteFile(StatePath, ""), ReadFile(EnvPath)], p.code.value,
        TrimmedSetting(envData, ClientIdKey).value, TrimmedSetting(envData, ClientSecretKey).value,
        TrimmedSetting(envData, RedirectUriKey).value, envData, a, decode);
    }
  }

  lemma ExchangeSuccess(before: seq<Call>, code: string, clientId: string, clientSecret: string, redirectUri: string,
                        envData: Env, a: Answers, decode: string -> Result<Json, string>)
    ensures var o := Exchange(before, code, clientId, clientSecret, redirectUri, envData, a, decode);
      (o.redirect <==> TokensGranted(a, decode) && a.envWritten && !a.cancelled)
      && ((o.shown.Some? && o.shown.value.status == Success) <==> o.redirect)
      && (o.redirect ==> o.shown == Some(Shown(Success, ConnectedMessage)))
  {
  }

  class OAuthCallbackPage {
    var status: Status
    var message: string
    /** `processedRef.current`. */
    var processed: bool
    /** The commands invoked since mounting, in order. */
    var calls: seq<Call>
    /** Whether the navigation home after 1.5 seconds has been scheduled. */
    var redirectScheduled: bool

    constructor()
      ensures status == Processing && message == ProcessingMessage
      ensures !processed && calls == [] && !redirectScheduled
    {
      status := Processing;
      message := ProcessingMessage;
      processed := false;
      calls := [];
      redirectScheduled := false;
    }

    /** Set the status and the message. */
    method Show(s: Status, m: string)
      modifies this
      ensures status == s && message == m
      ensures processed == old(processed) && calls == old(calls) && redirectScheduled == old(redirectScheduled)
    {
      status := s;
      message := m;
    }

    /** The `catch` branch of the handler. */
    method Crash(cancelled: bool)
      modifies this
      ensures !cancelled ==> status == Failure && message == WentWrongMessage
      ensures cancelled ==> status == old(status) && message == old(message)
      ensures processed == old(processed) && calls == old(calls) && redirectScheduled == old(redirectScheduled)
    {
      if !cancelled {
        Show(Failure, WentWrongMessage);
      }
    }

    /** The effect: the handler runs on the first call only. */
    method Effect(p: Params, a: Answers, decode: string -> Result<Json, string>)
      modifies this
      ensures old(processed) ==> status == old(status) && message == old(message) && processed
                                 && calls == old(calls) && redirectScheduled == old(redirectScheduled)
      ensures !old(processed) ==>
        var o := Callback(p, a, decode);
        processed && calls == old(calls) + o.calls
        && (o.shown.Some? ==> status == o.shown.value.status && message == o.shown.value.message)
        && (o.shown.None? ==> status == old(status) && message == old(message))
        && redirectScheduled == (old(redirectScheduled) || o.redirect)
    {
      if processed {
        return;
      }
      processed := true;
      var invoked := HandleOAuthCallback(p, a, decode);
      calls := calls + invoked;
    }

    /** `handleOAuthCallback`, returning the commands it invoked. */
    method HandleOAuthCallback(p: Params, a: Answers, decode: string -> Result<Json, string>)
      returns (invoked: seq<Call>)
      modifies this
      ensures var o := Callback(p, a, decode);
        invoked == o.calls
        && (o.shown.Some? ==> status == o.shown.value.status && message == o.shown.value.message)
        && (o.shown.None? ==> status == old(status) && message == old(message))
        && redirectScheduled == (old(redirectScheduled) || o.redirect)
      ensures processed == old(processed) && calls == old(calls)
    {
      if !Given(p.error) && !Given(p.code) {
        Show(Failure, NoDataMessage);
        return [];
      }
      invoked := [ReadFile(StatePath)];
      var storedState := StoredStateOf(a.stateRead);
      if Given(p.error) {
        Show(Failure, AuthFailedPrefix + p.error.value);
        return;
      }
      if storedState.None? || !Given(p.state) || storedState != p.state {
        Show(Failure, StateMismatchMessage);
        return;
      }
      invoked := [ReadFile(StatePath), WriteFile(StatePath, ""), ReadFile(EnvPath)];
      if a.envRead.ReadFailed? {
        Crash(a.cancelled);
        return;
      }
      var envData := ParseDotEnv(a.envRead.contents);
      var clientId := TrimmedSetting(envData, ClientIdKey);
      var clientSecret := TrimmedSetting(envData, ClientSecretKey);
      var redirectUri := TrimmedSetting(envData, RedirectUriKey);
      if !Given(clientId) || !Given(clientSecret) || !Given(redirectUri) {
        Show(Failure, MissingSettingsMessage);
        return;
      }
      invoked := ExchangeTokens(invoked, p.code.value, clientId.value, clientSecret.value, redirectUri.value,
                                envData, a, decode);
    }

    /** The handler from the exchange on, returning `before` followed by the commands it invokes. */
    method ExchangeTokens(before: seq<Call>, code: string, clientId: string, clientSecret: string,
                          redirectUri: string, envData: Env, a: Answers, decode: string -> Result<Json, string>)
      returns (invoked: seq<Call>)
      modifies this
      ensures var o := Exchange(before, code, clientId, clientSecret, redirectUri, envData, a, decode);
        invoked == o.calls
        && (o.shown.Some? ==> status == o.shown.value.status && message == o.shown.value.message)
        && (o.shown.None? ==> status == old(status) && message == old(message))
        && redirectScheduled == (old(redirectScheduled) || o.redirect)
      ensures processed == old(processed) && calls == old(calls)
    {
      invoked := before + [ExchangeCode(code, clientId, clientSecret, redirectUri)];
      if a.exchange.Rejected? {
        Crash(a.cancelled);
        return;
      }
      var answer := ReadTokenAnswer(a.exchange.text, decode);
      match answer
      case Thrown =>
        Crash(a.cancelled);
      case Refused(detail) =>
        Show(Failure, ExchangeFailedPrefix + detail);
      case Incomplete =>
        Show(Failure, NoTokensMessage);
      case Granted(access, refresh) =>
        invoked := invoked + [WriteDotEnv(EnvPath, WithNewTokens(envData, access, refresh))];
        if !a.envWritten {
          Crash(a.cancelled);
        } else if !a.cancelled {
          Show(Success, ConnectedMessage);
          redirectScheduled := true;
        }
    }
  }
}
