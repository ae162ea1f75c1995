/**
 * The settings hook of the front end (gui/src/utils/TwitchHandler.tsx): the
 * settings record, the readiness test, the start-up sequence that loads
 * `.env`, fetches what is missing and writes the result back, and the
 * request that starts a prediction.
 */
module TwitchHandler {
  import opened Wrappers
  import opened Text
  import opened Js
  import opened DotEnv
  import opened Tauri

  const ClientIdKey := "TWITCH_CLIENT_ID"
  const ClientSecretKey := "TWITCH_CLIENT_SECRET"
  const ChannelNameKey := "TWITCH_CHANNEL_NAME"
  const OpenAiKey := "OPENAI_API_KEY"
  const RedirectUriKey := "OAUTH_REDIRECT_URI"
  const AccessTokenKey := "TWITCH_ACCESS_TOKEN"
  const RefreshTokenKey := "TWITCH_REFRESH_TOKEN"
  const BroadcasterIdKey := "TWITCH_BROADCASTER_ID"

  /**
   * The settings state. The first five fields always hold text; the tokens
   * and the broadcaster id can end up `undefined` when a lookup answers
   * without them.
   */
  datatype Settings = Settings(
    clientId: string, clientSecret: string, channelName: string,
    openAiApiKey: string, redirectUri: string,
    accessToken: JsString, refreshToken: JsString, broadcasterId: JsString)

  /** The state before anything is loaded: every key `""`. */
  const Initial := Settings("", "", "", "", "", Str(""), Str(""), Str(""))

  /** `isReady`. */
  predicate IsReady(s: Settings) {
    s.clientId != "" && s.clientSecret != "" && s.channelName != ""
    && Truthy(s.accessToken) && Truthy(s.broadcasterId)
  }

  /** Nothing is ready before the settings are loaded. */
  lemma InitialNotReady()
    ensures !IsReady(Initial)
  {
  }

  /** Emptying any one of the five consulted fields makes the settings not ready. */
  lemma ReadyNeedsEach(s: Settings)
    ensures !IsReady(s.(clientId := ""))
    ensures !IsReady(s.(clientSecret := ""))
    ensures !IsReady(s.(channelName := ""))
    ensures !IsReady(s.(accessToken := Str(""))) && !IsReady(s.(accessToken := Undefined))
    ensures !IsReady(s.(broadcasterId := Str(""))) && !IsReady(s.(broadcasterId := Undefined))
  {
  }

  /** The refresh token, the redirect URI and the OpenAI key play no part in readiness. */
  lemma ReadyIgnores(s: Settings, refresh: JsString, redirect: string, openAi: string)
    ensures IsReady(s.(refreshToken := refresh, redirectUri := redirect, openAiApiKey := openAi)) == IsReady(s)
  {
  }

  /** The settings object `nextSettings`, keys in the order the literal lists them. */
  function SettingsEnv(s: Settings): (env: Env)
    ensures |env| == 8 && DistinctKeys(env)
  {
    [Entry(ClientIdKey, s.clientId), Entry(ClientSecretKey, s.clientSecret),
     Entry(ChannelNameKey, s.channelName), Entry(OpenAiKey, s.openAiApiKey),
     Entry(RedirectUriKey, s.redirectUri), Entry(AccessTokenKey, Render(s.accessToken)),
     Entry(RefreshTokenKey, Render(s.refreshToken)), Entry(BroadcasterIdKey, Render(s.broadcasterId))]
  }

  /** What `get_twitch_tokens_cmd` and `JSON.parse` of its answer give `getTwitchAccessTokens`. */
  datatype TokenFetch =
    | TokensRejected
    | TokensUnparsable
    | TokensParsed(access: JsString, refresh: JsString)

  /** What `get_user_id_cmd` and `JSON.parse` give `getBroadcasterData`: `data.data[0]`, or a failure. */
  datatype UserLookup = UserLookupFailed | UserFound(id: JsString)

  /** The array `getTwitchAccessTokens` resolves to. */
  function FetchedTokens(f: TokenFetch): (r: seq<JsString>)
    ensures |r| == 0 || |r| == 2
    ensures |r| == 2 <==> f.TokensParsed?
    ensures f.TokensParsed? ==> r[0] == f.access && r[1] == f.refresh
  {
    if f.TokensParsed? then [f.access, f.refresh] else []
  }

  /** `broadcasterData.id`: the string `"error"` a failed lookup yields has no `id`. */
  function LookedUpId(u: UserLookup): (r: JsString)
    ensures u.UserLookupFailed? ==> r == Undefined
    ensures u.UserFound? ==> r == u.id
  {
    if u.UserFound? then u.id else Undefined
  }

  /** `!value` for a value of the parsed settings, where a missing key is `undefined`. */
  predicate Present(v: Option<string>) {
    v.Some? && v.value != ""
  }

  /** `data.KEY?.trim() ?? ""`. */
  function TrimmedOr(v: Option<string>): string {
    if v.Some? then JsTrim(v.value) else ""
  }

  /**
   * What `loadEnv` reads out of the parsed settings: five values as they
   * are (`undefined` being `None`), and the two tokens and the
   * broadcaster id trimmed, `""` when missing.
   */
  datatype Stored = Stored(
    clientId: Option<string>, clientSecret: Option<string>, channelName: Option<string>,
    openAiApiKey: Option<string>, redirectUri: Option<string>,
    accessToken: string, refreshToken: string, broadcasterId: string)

  function StoredOf(data: Env): Stored {
    Stored(Get(data, ClientIdKey), Get(data, ClientSecretKey), Get(data, ChannelNameKey),
           Get(data, OpenAiKey), Get(data, RedirectUriKey),
           TrimmedOr(Get(data, AccessTokenKey)), TrimmedOr(Get(data, RefreshTokenKey)),
           TrimmedOr(Get(data, BroadcasterIdKey)))
  }

  /** The four values the start-up cannot do without. */
  predicate HasCredentials(st: Stored) {
    Present(st.clientId) && Present(st.clientSecret) && Present(st.channelName) && Present(st.redirectUri)
  }

  /** Both stored tokens are non-empty. */
  predicate StoredTokens(st: Stored) {
    st.accessToken != "" && st.refreshToken != ""
  }

  /** The outcome of (part of) one start-up: the commands it invoked and the settings it set, if it got that far. */
  datatype Boot = Boot(calls: seq<Call>, next: Option<Settings>)

  /**
   * `loadEnv`, given the answers of the commands it invokes: read `.env`,
   * then carry on from what its parsed contents hold, as `Start` does.
   */
  function Bootstrap(file: ReadResult, fetch: TokenFetch, lookup: UserLookup): (b: Boot)
    ensures |b.calls| > 0 && b.calls[0] == ReadFile(EnvPath)
  {
    if file.ReadFailed? then Boot([ReadFile(EnvPath)], None)
    else
      var rest := Start(StoredOf(ParseDotEnv(file.contents)), fetch, lookup);
      Boot([ReadFile(EnvPath)] + rest.calls, rest.next)
  }

  /**
   * `loadEnv` after the read: stop unless client id, secret, channel and
   * redirect URI are there; fetch tokens if either stored token is empty
   * and stop if that fails; then `Finish`.
   */
  function Start(st: Stored, fetch: TokenFetch, lookup: UserLookup): Boot {
    if !HasCredentials(st) then Boot([], None)
    else if StoredTokens(st) then Finish(st, Str(st.accessToken), Str(st.refreshToken), lookup)
    else
      var fetchCall := GetTwitchTokens(st.clientId.value, st.clientSecret.value);
      var tokens := FetchedTokens(fetch);
      if |tokens| < 2 then Boot([fetchCall], None)
      else
        var rest := Finish(st, tokens[0], tokens[1], lookup);
        Boot([fetchCall] + rest.calls, rest.next)
  }

  /** The settings `loadEnv` sets, once the tokens and the broadcaster id are known. */
  function NextSettings(st: Stored, access: JsString, refresh: JsString, broadcasterId: JsString): Settings
    requires HasCredentials(st)
  {
    Settings(st.clientId.value, st.clientSecret.value, st.channelName.value, st.openAiApiKey.GetOr(""),
             st.redirectUri.value, access, refresh, broadcasterId)
  }

  /** Whether `loadEnv` looks the broadcaster up. */
  predicate LooksUp(st: Stored, access: JsString) {
    st.broadcasterId == "" && Truthy(access)
  }

  /** The broadcaster id `loadEnv` ends with. */
  function FinalId(st: Stored, access: JsString, lookup: UserLookup): JsString {
    if LooksUp(st, access) then LookedUpId(lookup) else Str(st.broadcasterId)
  }

  /**
   * The end of `loadEnv`, once the tokens are known: look the broadcaster
   * up if its stored id is empty and the access token is truthy, then set
   * the settings and write them to `.env`.
   */
  function Finish(st: Stored, access: JsString, refresh: JsString, lookup: UserLookup): (b: Boot)
    requires HasCredentials(st)
    ensures b.next == Some(NextSettings(st, access, refresh, FinalId(st, access, lookup)))
    ensures |b.calls| > 0 && b.calls[|b.calls| - 1] == WriteDotEnv(EnvPath, SettingsEnv(b.next.value))
  {
    var next := NextSettings(st, access, refresh, FinalId(st, access, lookup));
    var write := WriteDotEnv(EnvPath, SettingsEnv(next));
    if LooksUp(st, access) then
      Boot([GetUserId(st.clientId.value, st.clientSecret.value, access.s, st.channelName.value), write], Some(next))
    else Boot([write], Some(next))
  }

  predicate IssuesTokenFetch(calls: seq<Call>) {
    exists i :: 0 <= i < |calls| && calls[i].GetTwitchTokens?
  }

  predicate IssuesUserLookup(calls: seq<Call>) {
    exists i :: 0 <= i < |calls| && calls[i].GetUserId?
  }

  /** An unreadable `.env` ends the start-up after the read. */
  lemma UnreadableNoWrite(fetch: TokenFetch, lookup: UserLookup)
    ensures Bootstrap(ReadFailed, fetch, lookup) == Boot([ReadFile(EnvPath)], None)
    ensures Writes(Bootstrap(ReadFailed, fetch, lookup).calls, EnvPath) == 0
  {
    WritesNone([ReadFile(EnvPath)], EnvPath);
  }

  /** Settings without the credentials end the start-up at once, with no command and no write. */
  lemma NoCredentialsNoWrite(st: Stored, fetch: TokenFetch, lookup: UserLookup)
    requires !HasCredentials(st)
    ensures Start(st, fetch, lookup) == Boot([], None)
  {
  }

  /** With the credentials there, tokens are fetched exactly when a stored token is empty. */
  lemma FetchIffTokenMissing(st: Stored, fetch: TokenFetch, lookup: UserLookup)
    requires HasCredentials(st)
    ensures IssuesTokenFetch(Start(st, fetch, lookup).calls) <==> !StoredTokens(st)
  {
    var b := Start(st, fetch, lookup);
    if !StoredTokens(st) {
      assert b.calls[0].GetTwitchTokens?;
    }
  }

  /** A token fetch that fails ends the start-up with no lookup and no write. */
  lemma FailedFetchAborts(st: Stored, fetch: TokenFetch, lookup: UserLookup)
    requires HasCredentials(st) && !StoredTokens(st) && !fetch.TokensParsed?
    ensures Start(st, fetch, lookup) == Boot([GetTwitchTokens(st.clientId.value, st.clientSecret.value)], None)
    ensures Writes(Start(st, fetch, lookup).calls, EnvPath) == 0
  {
    WritesNone(Start(st, fetch, lookup).calls, EnvPath);
  }

  /** The broadcaster is looked up exactly when the stored id is empty and the access token is truthy. */
  lemma LookupIff(st: Stored, access: JsString, refresh: JsString, lookup: UserLookup)
    requires HasCredentials(st)
    ensures IssuesUserLookup(Finish(st, access, refresh, lookup).calls) <==> st.broadcasterId == "" && Truthy(access)
  {
    var b := Finish(st, access, refresh, lookup);
    if st.broadcasterId == "" && Truthy(access) {
      assert b.calls[0].GetUserId?;
    }
  }

  /** A stored broadcaster id is kept; otherwise the id is the looked-up one, or stays `""` without an access token. */
  lemma BroadcasterIdChoice(st: Stored, access: JsString, refresh: JsString, lookup: UserLookup)
    requires HasCredentials(st)
    ensures var id := Finish(st, access, refresh, lookup).next.value.broadcasterId;
      (st.broadcasterId != "" ==> id == Str(st.broadcasterId))
      && (st.broadcasterId == "" && Truthy(access) ==> id == LookedUpId(lookup))
      && (st.broadcasterId == "" && !Truthy(access) ==> id == Str(""))
  {
  }

  /** The settings the start-up sets hold the loaded credentials, the OpenAI key or `""`, and the final tokens. */
  lemma SetsLoadedValues(st: Stored, access: JsString, refresh: JsString, lookup: UserLookup)
    requires HasCredentials(st)
    ensures var s := Finish(st, access, refresh, lookup).next.value;
      Some(s.clientId) == st.clientId && Some(s.clientSecret) == st.clientSecret
      && Some(s.channelName) == st.channelName && Some(s.redirectUri) == st.redirectUri
      && s.openAiApiKey == st.openAiApiKey.GetOr("")
      && s.accessToken == access && s.refreshToken == refresh
  {
  }

  /** Tokens kept from `.env` when both are there, and the fetched pair otherwise. */
  lemma TokensChoice(st: Stored, fetch: TokenFetch, lookup: UserLookup)
    requires Start(st, fetch, lookup).next.Some?
    ensures HasCredentials(st)
    ensures StoredTokens(st) ==> Start(st, fetch, lookup) == Finish(st, Str(st.accessToken), Str(st.refreshToken), lookup)
    ensures !StoredTokens(st) ==> fetch.TokensParsed? && Start(st, fetch, lookup).next == Finish(st, fetch.access, fetch.refresh, lookup).next
  {
  }

  /**
   * A start-up that sets the settings writes `.env` exactly once, as its
   * last command, with the settings it set; one that does not set them
   * writes nothing.
   */
  lemma WritesOnce(file: ReadResult, fetch: TokenFetch, lookup: UserLookup)
    ensures var b := Bootstrap(file, fetch, lookup);
      Writes(b.calls, EnvPath) == (if b.next.Some? then 1 else 0)
      && (b.next.Some? ==> b.calls[|b.calls| - 1] == WriteDotEnv(EnvPath, SettingsEnv(b.next.value)))
  {
    var b := Bootstrap(file, fetch, lookup);
    if file.Read? {
      ReadThenStartWrites(StoredOf(ParseDotEnv(file.contents)), fetch, lookup);
    } else {
      WritesNone(b.calls, EnvPath);
    }
  }

  /** The read of `.env` writes nothing, so a start-up writes what its `Start` writes. */
  lemma ReadThenStartWrites(st: Stored, fetch: TokenFetch, lookup: UserLookup)
    ensures var rest := Start(st, fetch, lookup);
      var calls := [ReadFile(EnvPath)] + rest.calls;
      Writes(calls, EnvPath) == (if rest.next.Some? then 1 else 0)
      && (rest.next.Some? ==> calls[|calls| - 1] == WriteDotEnv(EnvPath, SettingsEnv(rest.next.value)))
  {
    var rest := Start(st, fetch, lookup);
    StartWrites(st, fetch, lookup);
    WritesAppend([ReadFile(EnvPath)], rest.calls, EnvPath);
    WritesNone([ReadFile(EnvPath)], EnvPath);
  }

  lemma StartWrites(st: Stored, fetch: TokenFetch, lookup: UserLookup)
    ensures var b := Start(st, fetch, lookup);
      Writes(b.calls, EnvPath) == (if b.next.Some? then 1 else 0)
      && (b.next.Some? ==> b.calls[|b.calls| - 1] == WriteDotEnv(EnvPath, SettingsEnv(b.next.value)))
  {
    if !HasCredentials(st) {
      assert Start(st, fetch, lookup).calls == [];
    } else if StoredTokens(st) {
      FinishWrites(st, Str(st.accessToken), Str(st.refreshToken), lookup);
    } else if fetch.TokensParsed? {
      var f := Finish(st, fetch.access, fetch.refresh, lookup);
      var c := GetTwitchTokens(st.clientId.value, st.clientSecret.value);
      FinishWrites(st, fetch.access, fetch.refresh, lookup);
      WritesAppend([c], f.calls, EnvPath);
      WritesNone([c], EnvPath);
    } else {
      FailedFetchAborts(st, fetch, lookup);
    }
  }

  lemma FinishWrites(st: Stored, access: JsString, refresh: JsString, lookup: UserLookup)
    requires HasCredentials(st)
    ensures Writes(Finish(st, access, refresh, lookup).calls, EnvPath) == 1
  {
    var b := Finish(st, access, refresh, lookup);
    var init := b.calls[..|b.calls| - 1];
    assert b.calls == init + [b.calls[|b.calls| - 1]];
    WritesNone(init, EnvPath);
    assert [b.calls[|b.calls| - 1]][..0] == [];
    WritesAppend(init, [b.calls[|b.calls| - 1]], EnvPath);
  }

  // ---------------------------------------------------------------------
  // Reading back what was written

  /** A value whose `${value}` text reads back unchanged; `undefined` is written as the text `undefined`. */
  predicate StorableJs(v: JsString) {
    StorableValue(Render(v))
  }

  /** Every field of `s` reads back from `.env`. */
  predicate StorableSettings(s: Settings) {
    StorableValue(s.clientId) && StorableValue(s.clientSecret) && StorableValue(s.channelName)
    && StorableValue(s.openAiApiKey) && StorableValue(s.redirectUri)
    && StorableJs(s.accessToken) && StorableJs(s.refreshToken) && StorableJs(s.broadcasterId)
  }

  /** The text written for storable settings parses back to the same eight entries. */
  lemma SettingsReadBack(s: Settings)
    requires StorableSettings(s)
    ensures ParseDotEnv(StringifyDotEnv(SettingsEnv(s))) == SettingsEnv(s)
  {
    var env := SettingsEnv(s);
    KeysStorable();
    SettingsOrder(s);
    assert forall i | 0 <= i < |env| :: StorableEntry(env[i]);
    RoundTrip(env);
  }

  /** The eight keys are distinct and, none being an array index, already in `Object.entries` order. */
  lemma SettingsOrder(s: Settings)
    ensures DistinctKeys(SettingsEnv(s)) && Canonical(SettingsEnv(s))
  {
    var env := SettingsEnv(s);
    KeysStorable();
    assert forall i | 0 <= i < |env| :: !IsIndexKey(env[i].key);
    NoIndexCanonical(env);
  }

  /** The eight keys read back, and none is an array index, so the settings keep their order. */
  lemma KeysStorable()
    ensures StorableKey(ClientIdKey) && StorableKey(ClientSecretKey) && StorableKey(ChannelNameKey)
    ensures StorableKey(OpenAiKey) && StorableKey(RedirectUriKey) && StorableKey(AccessTokenKey)
    ensures StorableKey(RefreshTokenKey) && StorableKey(BroadcasterIdKey)
    ensures !IsIndexKey(ClientIdKey) && !IsIndexKey(ClientSecretKey) && !IsIndexKey(ChannelNameKey)
    ensures !IsIndexKey(OpenAiKey) && !IsIndexKey(RedirectUriKey) && !IsIndexKey(AccessTokenKey)
    ensures !IsIndexKey(RefreshTokenKey) && !IsIndexKey(BroadcasterIdKey)
  {
    ClientKeysStorable();
    ChannelKeysStorable();
    RedirectKeysStorable();
    TokenKeysStorable();
  }

  lemma ClientKeysStorable()
    ensures StorableKey(ClientIdKey) && !IsIndexKey(ClientIdKey)
    ensures StorableKey(ClientSecretKey) && !IsIndexKey(ClientSecretKey)
  {
    NameKey(ClientIdKey);
    NameKey(ClientSecretKey);
  }

  lemma ChannelKeysStorable()
    ensures StorableKey(ChannelNameKey) && !IsIndexKey(ChannelNameKey)
    ensures StorableKey(OpenAiKey) && !IsIndexKey(OpenAiKey)
  {
    NameKey(ChannelNameKey);
    NameKey(OpenAiKey);
  }

  lemma RedirectKeysStorable()
    ensures StorableKey(RedirectUriKey) && !IsIndexKey(RedirectUriKey)
    ensures StorableKey(AccessTokenKey) && !IsIndexKey(AccessTokenKey)
  {
    NameKey(RedirectUriKey);
    NameKey(AccessTokenKey);
  }

  lemma TokenKeysStorable()
    ensures StorableKey(RefreshTokenKey) && !IsIndexKey(RefreshTokenKey)
    ensures StorableKey(BroadcasterIdKey) && !IsIndexKey(BroadcasterIdKey)
  {
    NameKey(RefreshTokenKey);
    NameKey(BroadcasterIdKey);
  }

  /** A key made of capital letters and `_` reads back and is no array index. */
  lemma NameKey(k: string)
    requires forall i :: 0 <= i < |k| ==> 'A' <= k[i] <= 'Z' || k[i] == '_'
    ensures StorableKey(k) && !IsIndexKey(k)
  {
    assert |k| != |ProtoKey| || k[2] != ProtoKey[2];
  }

  /** In settings with distinct keys, each key reads its own entry. */
  lemma GetDistinct(env: Env, i: nat)
    requires DistinctKeys(env) && i < |env|
    ensures Get(env, env[i].key) == Some(env[i].value)
  {
  }

  lemma GetSettingsEnv(s: Settings)
    ensures var env := SettingsEnv(s);
      Get(env, ClientIdKey) == Some(s.clientId) && Get(env, ClientSecretKey) == Some(s.clientSecret)
      && Get(env, ChannelNameKey) == Some(s.channelName) && Get(env, OpenAiKey) == Some(s.openAiApiKey)
      && Get(env, RedirectUriKey) == Some(s.redirectUri) && Get(env, AccessTokenKey) == Some(Render(s.accessToken))
      && Get(env, RefreshTokenKey) == Some(Render(s.refreshToken)) && Get(env, BroadcasterIdKey) == Some(Render(s.broadcasterId))
  {
    var env := SettingsEnv(s);
    GetDistinct(env, 0);
    GetDistinct(env, 1);
    GetDistinct(env, 2);
    GetDistinct(env, 3);
    GetDistinct(env, 4);
    GetDistinct(env, 5);
    GetDistinct(env, 6);
    GetDistinct(env, 7);
  }

  /** Every field filled in, the tokens and the broadcaster id text included. */
  predicate Complete(s: Settings) {
    s.clientId != "" && s.clientSecret != "" && s.channelName != "" && s.redirectUri != ""
    && s.accessToken.Str? && s.accessToken.s != "" && s.refreshToken.Str? && s.refreshToken.s != ""
    && s.broadcasterId.Str? && s.broadcasterId.s != ""
  }

  /** What `loadEnv` reads out of complete settings: every value present, nothing to trim. */
  function CompleteStored(s: Settings): Stored
    requires Complete(s)
  {
    Stored(Some(s.clientId), Some(s.clientSecret), Some(s.channelName), Some(s.openAiApiKey),
           Some(s.redirectUri), s.accessToken.s, s.refreshToken.s, s.broadcasterId.s)
  }

  /** Reading the settings `loadEnv` wrote, when they are complete and storable, gives back their values. */
  lemma StoredOfSettings(s: Settings)
    requires StorableSettings(s) && Complete(s)
    ensures StoredOf(SettingsEnv(s)) == CompleteStored(s)
  {
    GetSettingsEnv(s);
    StoredOfGets(SettingsEnv(s), s);
  }

  lemma StoredOfGets(data: Env, s: Settings)
    requires StorableSettings(s) && Complete(s)
    requires Get(data, ClientIdKey) == Some(s.clientId) && Get(data, ClientSecretKey) == Some(s.clientSecret)
    requires Get(data, ChannelNameKey) == Some(s.channelName) && Get(data, OpenAiKey) == Some(s.openAiApiKey)
    requires Get(data, RedirectUriKey) == Some(s.redirectUri) && Get(data, AccessTokenKey) == Some(Render(s.accessToken))
    requires Get(data, RefreshTokenKey) == Some(Render(s.refreshToken)) && Get(data, BroadcasterIdKey) == Some(Render(s.broadcasterId))
    ensures StoredOf(data) == CompleteStored(s)
  {
    StorableTrimmed(s.accessToken.s);
    StorableTrimmed(s.refreshToken.s);
    StorableTrimmed(s.broadcasterId.s);
  }

  /**
   * Settings with every field filled in, tokens and broadcaster id
   * included, need nothing more: starting up again on the text they were
   * written as fetches nothing, looks nothing up, sets them unchanged and
   * writes them again.
   */
  lemma RestartIsStable(s: Settings, fetch: TokenFetch, lookup: UserLookup)
    requires StorableSettings(s) && Complete(s)
    ensures Bootstrap(Read(StringifyDotEnv(SettingsEnv(s))), fetch, lookup)
            == Boot([ReadFile(EnvPath), WriteDotEnv(EnvPath, SettingsEnv(s))], Some(s))
  {
    SettingsReadBack(s);
    StoredOfSettings(s);
    RestartOn(StringifyDotEnv(SettingsEnv(s)), s, fetch, lookup);
  }

  lemma RestartOn(text: string, s: Settings, fetch: TokenFetch, lookup: UserLookup)
    requires Complete(s) && StoredOf(ParseDotEnv(text)) == CompleteStored(s)
    ensures Bootstrap(Read(text), fetch, lookup) == Boot([ReadFile(EnvPath), WriteDotEnv(EnvPath, SettingsEnv(s))], Some(s))
  {
    StartOnComplete(s, fetch, lookup);
    BootstrapRead(Read(text), CompleteStored(s), fetch, lookup);
  }

  lemma StartOnComplete(s: Settings, fetch: TokenFetch, lookup: UserLookup)
    requires Complete(s)
    ensures Start(CompleteStored(s), fetch, lookup) == Boot([WriteDotEnv(EnvPath, SettingsEnv(s))], Some(s))
  {
  }

  lemma BootstrapRead(file: ReadResult, st: Stored, fetch: TokenFetch, lookup: UserLookup)
    requires file.Read? && st == StoredOf(ParseDotEnv(file.contents))
    ensures Bootstrap(file, fetch, lookup) == Boot([ReadFile(EnvPath)] + Start(st, fetch, lookup).calls, Start(st, fetch, lookup).next)
  {
  }

  lemma AppendAssoc<T>(a: seq<T>, b: seq<T>, c: seq<T>)
    ensures (a + b) + c == a + (b + c)
  {
  }

  // ---------------------------------------------------------------------
  // The hook's state

  /** A prediction as `startPrediction` receives it; `None` is an absent (or `null`) duration. */
  class PredictionObject {
    var title: string
    var options: Option<seq<string>>
    var duration: Option<JsNumber>

    constructor(title: string, options: Option<seq<string>>, duration: Option<JsNumber>)
      ensures this.title == title && this.options == options && this.duration == duration
    {
      this.title := title;
      this.options := options;
      this.duration := duration;
    }
  }

  /** `!!prediction.duration`. */
  predicate DurationTruthy(d: Option<JsNumber>) {
    d.Some? && NumberTruthy(d.value)
  }

  /** The window `startPrediction` sends: the given duration when truthy, else 90 seconds. */
  function WithDefaultDuration(d: Option<JsNumber>): (r: JsNumber)
    ensures NumberTruthy(r)
    ensures DurationTruthy(d) ==> d == Some(r)
    ensures !DurationTruthy(d) ==> r == Int(90)
  {
    if DurationTruthy(d) then d.value else Int(90)
  }

  /** Defaulting twice is defaulting once. */
  lemma DefaultDurationIdempotent(d: Option<JsNumber>)
    ensures WithDefaultDuration(Some(WithDefaultDuration(d))) == WithDefaultDuration(d)
  {
  }

  /** The hook: its `settings` state and the Tauri commands it has invoked. */
  class TwitchSession {
    var settings: Settings
    var calls: seq<Call>

    constructor()
      ensures settings == Initial && calls == []
    {
      settings := Initial;
      calls := [];
    }

    /** `loadEnv`, with the answers of the commands it invokes as inputs. */
    method LoadEnv(file: ReadResult, fetch: TokenFetch, lookup: UserLookup)
      modifies this
      ensures calls == old(calls) + Bootstrap(file, fetch, lookup).calls
      ensures settings == Bootstrap(file, fetch, lookup).next.GetOr(old(settings))
    {
      calls := calls + [ReadFile(EnvPath)];
      if file.ReadFailed? {
        return;
      }
      var st := StoredOf(ParseDotEnv(file.contents));
      LoadSettings(st, fetch, lookup);
      BootstrapRead(file, st, fetch, lookup);
      AppendAssoc(old(calls), [ReadFile(EnvPath)], Start(st, fetch, lookup).calls);
    }

    /** The part of `loadEnv` after the read: the credential check and the token fetch. */
    method LoadSettings(st: Stored, fetch: TokenFetch, lookup: UserLookup)
      modifies this
      ensures calls == old(calls) + Start(st, fetch, lookup).calls
      ensures settings == Start(st, fetch, lookup).next.GetOr(old(settings))
    {
      if !Present(st.clientId) || !Present(st.clientSecret) || !Present(st.channelName) || !Present(st.redirectUri) {
        return;
      }
      var accessToken := Str(st.accessToken);
      var refreshToken := Str(st.refreshToken);
      if !Truthy(accessToken) || !Truthy(refreshToken) {
        calls := calls + [GetTwitchTokens(st.clientId.value, st.clientSecret.value)];
        var fetched := FetchedTokens(fetch);
        if |fetched| < 2 {
          return;
        }
        accessToken := fetched[0];
        refreshToken := fetched[1];
      }
      StoreSettings(st, accessToken, refreshToken, lookup);
    }

    /** The end of `loadEnv`: the broadcaster lookup, `setSettings` and the write. */
    method StoreSettings(st: Stored, accessToken: JsString, refreshToken: JsString, lookup: UserLookup)
      requires HasCredentials(st)
      modifies this
      ensures calls == old(calls) + Finish(st, accessToken, refreshToken, lookup).calls
      ensures settings == Finish(st, accessToken, refreshToken, lookup).next.value
    {
      var broadcasterId := Str(st.broadcasterId);
      if !Truthy(broadcasterId) && Truthy(accessToken) {
        calls := calls + [GetUserId(st.clientId.value, st.clientSecret.value, accessToken.s, st.channelName.value)];
        broadcasterId := LookedUpId(lookup);
      }
      var next := Settings(st.clientId.value, st.clientSecret.value, st.channelName.value, st.openAiApiKey.GetOr(""),
                           st.redirectUri.value, accessToken, refreshToken, broadcasterId);
      settings := next;
      calls := calls + [WriteDotEnv(EnvPath, SettingsEnv(next))];
    }

    /**
     * `startPrediction`: give the prediction its default window if its
     * duration is falsy, then invoke `create_twitch_prediction_cmd` with the
     * current credentials and token.
     */
    method StartPrediction(p: PredictionObject)
      modifies this, p
      ensures p.duration == Some(WithDefaultDuration(old(p.duration)))
      ensures p.title == old(p.title) && p.options == old(p.options) && settings == old(settings)
      ensures calls == old(calls) + [CreateTwitchPrediction(settings.clientId, settings.clientSecret,
                                       settings.accessToken, p.title, p.options, WithDefaultDuration(old(p.duration)))]
    {
      if !DurationTruthy(p.duration) {
        p.duration := Some(Int(90));
      }
      calls := calls + [CreateTwitchPrediction(settings.clientId, settings.clientSecret,
                          settings.accessToken, p.title, p.options, p.duration.value)];
    }
  }
}
