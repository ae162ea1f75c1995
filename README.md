# Twitch prediction creator: a verified model of its decision logic

The application lets a streamer create Twitch channel predictions. A
Tauri desktop GUI (React in front, Rust behind) keeps the credentials in
a `.env` file, connects the account through Twitch's OAuth flow, and
validates and saves prediction drafts. It also shows the channel's
newest prediction with buttons to start it again, save it, end it or
cancel it. Two Python scripts talk to the Helix API directly and turn
answers from a language model into database records.

This project models the deterministic part of that code in Dafny and
proves what the code promises about it:

- `DotEnv` (`dotenv.dfy`): the `.env` line codec of `TwitchHandler.tsx`.
  The settings object is the list of its own entries in the order
  `Object.entries` gives them: array-index keys first in ascending
  numeric order, then the other keys in the order they were first
  assigned. An assignment to `__proto__` creates no entry. With that
  order the round trip `parse(stringify(env)) == env` can be stated
  exactly.
- `TwitchHandler` (`twitch_handler.dfy`): the start-up sequence
  `loadEnv`, the readiness test and `startPrediction`.
  - The start-up is a function from the answers of the Tauri commands
    to the log of commands issued and the settings set.
  - A `TwitchSession` class holds the settings and the command log.
    Its methods are proved against those functions.
- `TwitchApi` (`twitch_api.dfy`): the Rust client.
  - The request builders, the token request and `extract_access_token`.
  - The send-once-and-retry-after-401 protocol `send_with_refresh`.
  - The shared token cell (`Arc<Mutex<String>>`) is the class
    `TokenStore`; its refresh overwrites the cell.
- `CreatePrediction` (`create_prediction.dfy`): the draft validation of
  the creation form, and the page as a class whose save handlers append
  to the list of drafts.
- `OAuthUtils` and `OAuthPage` (`oauth_callback_utils.dfy`,
  `oauth_callback_page.dfy`): the two OAuth callback handlers.
  - Their chains of rejections, as a command log.
  - The token update of the `.env` map.
- `PrevPrediction` and `AccountCard`: the panel of the newest
  prediction and the card of the connected account.
- `TwitchApiHandler` and `GenerateAiPred`: the Python scripts, on a
  model of Python's subscript, `len`, `in` and truthiness rules with
  the exceptions they raise (`py.dfy`).

Support modules:

- `Wrappers`: `Option` and `Result`.
- `Text`: trimming, splitting, searching.
- `Js`: JavaScript strings, `undefined`, `NaN`, `parseInt`, UTF-16
  length.
- `Json`: a decoded JSON value whose lookups take the last duplicate key.
- `JsJson`: JavaScript property reads and template text of decoded JSON.
- `Py`: Python's reading rules, described above.
- `Tauri`: the command log.
- `Helix`: a Twitch prediction snapshot.
- `Drafts`: the saved draft object.

Everything the programs get from outside is a parameter of the model:

- files read and written through Tauri commands;
- HTTP answers;
- what `JSON.parse`, `serde_json` or `json.loads` make of a text.

## Model

| member | source | states |
|---|---|---|
| DotEnv.Get | gui/src/utils/TwitchHandler.tsx:10-14 | a key read from the parsed map is present exactly when some entry has it, and the value returned is that entry's |
| DotEnv.Put | gui/src/utils/TwitchHandler.tsx:12 | `acc[key] = value` leaves the object unchanged for `__proto__`, keeps an existing key in its place and replaces only its value, puts a new array index just after the indices below it and appends any other new key; distinct keys stay distinct and the `Object.entries` order is kept |
| DotEnv.IndexOrderNumeric | gui/src/utils/TwitchHandler.tsx:17 | the order `Put` keeps array-index keys in is ascending numeric order of the numbers they denote |
| DotEnv.PutSame | gui/src/utils/TwitchHandler.tsx:12 | after the assignment the key reads back the assigned value, except `__proto__`, which reads as before |
| DotEnv.PutOther | gui/src/utils/TwitchHandler.tsx:12 | the assignment leaves every other key as it was |
| DotEnv.SplitLines | gui/src/utils/TwitchHandler.tsx:7 | splitting at `\r?\n` gives at least one line and no line holds a line feed |
| DotEnv.Kept | gui/src/utils/TwitchHandler.tsx:9 | a line is kept exactly when it is an input line that is non-empty and does not start with `#`; the result is no longer than the input |
| DotEnv.KeptAppend | gui/src/utils/TwitchHandler.tsx:9 | the filter works line by line: filtering a concatenation concatenates the filtered parts, so order is kept |
| DotEnv.KeptAll | gui/src/utils/TwitchHandler.tsx:9 | a list made only of setting lines is kept whole, in order and with its repeats |
| DotEnv.KeyValueOf | gui/src/utils/TwitchHandler.tsx:11-12 | a line splits at its first `=`: the key is the text before it, the value the trimmed rest with later `=` kept; a line without `=` is all key with value `""` |
| DotEnv.ParseAcceptsLf | gui/src/utils/TwitchHandler.tsx:7-9 | lines joined by `\n` parse as those lines |
| DotEnv.ParseAcceptsCrLf | gui/src/utils/TwitchHandler.tsx:7-9 | lines joined by `\r\n` parse the same as when joined by `\n` |
| DotEnv.IgnoredLine | gui/src/utils/TwitchHandler.tsx:8-9 | a blank or `#` comment line anywhere in the file changes nothing |
| DotEnv.ParsedValue | gui/src/utils/TwitchHandler.tsx:5-15 | the value a key gets is the value of the last kept line carrying that key: later keys win; `__proto__` never becomes an own key |
| DotEnv.Lines | gui/src/utils/TwitchHandler.tsx:17-18 | stringifying gives one `key=value` line per entry, in entry order |
| DotEnv.RoundTrip | gui/src/utils/TwitchHandler.tsx:5-20 | `parseDotEnv(stringifyDotEnv(env)) == env` for objects in `Object.entries` order with distinct keys that are not `__proto__` and have no `=`, line break or leading `#`/blank, and values with no line break and no surrounding blanks |
| DotEnv.ParsedIsStorable | gui/src/utils/TwitchHandler.tsx:5-15 | every parsed map meets the round-trip conditions, its key order included |
| DotEnv.ParseStringifyParse | gui/src/utils/TwitchHandler.tsx:5-20 | writing a parsed file back and parsing it again gives the same map |
| TwitchHandler.InitialNotReady | gui/src/utils/TwitchHandler.tsx:107-112 | the initial all-empty settings (lines 23-32) are not ready |
| TwitchHandler.ReadyNeedsEach | gui/src/utils/TwitchHandler.tsx:107-112 | readiness fails when any one of client id, secret, channel, access token or broadcaster id is empty or undefined |
| TwitchHandler.ReadyIgnores | gui/src/utils/TwitchHandler.tsx:107-112 | the refresh token, redirect URI and OpenAI key do not affect readiness |
| TwitchHandler.SettingsEnv | gui/src/utils/TwitchHandler.tsx:78-93 | the written settings are the 8 known keys, all distinct |
| TwitchHandler.FetchedTokens | gui/src/utils/TwitchHandler.tsx:137-154 | `getTwitchAccessTokens` gives the two tokens, or the empty list when the command or the decoding fails |
| TwitchHandler.LookedUpId | gui/src/utils/TwitchHandler.tsx:116-135 | the broadcaster id is the looked-up user's id, or `undefined` when the lookup fails |
| TwitchHandler.Bootstrap | gui/src/utils/TwitchHandler.tsx:37-39 | the start-up always begins by reading `.env` |
| TwitchHandler.Finish | gui/src/utils/TwitchHandler.tsx:66-93 | a start-up that gets this far sets the next settings and ends with their write |
| TwitchHandler.UnreadableNoWrite | gui/src/utils/TwitchHandler.tsx:37-97 | an unreadable `.env` ends the start-up after the read, with no write and no settings |
| TwitchHandler.NoCredentialsNoWrite | gui/src/utils/TwitchHandler.tsx:42-45 | a missing or empty client id, secret, channel or redirect URI stops the start-up with no command and no settings |
| TwitchHandler.FetchIffTokenMissing | gui/src/utils/TwitchHandler.tsx:47-52 | tokens are fetched exactly when the stored access or refresh token is empty |
| TwitchHandler.FailedFetchAborts | gui/src/utils/TwitchHandler.tsx:57-60 | a fetch that yields fewer than two values aborts with no write |
| TwitchHandler.TokensChoice | gui/src/utils/TwitchHandler.tsx:47-64 | a completed start-up keeps both stored tokens, or uses the fetched pair |
| TwitchHandler.LookupIff | gui/src/utils/TwitchHandler.tsx:66-76 | the broadcaster is looked up exactly when the stored id is empty and the access token is truthy |
| TwitchHandler.BroadcasterIdChoice | gui/src/utils/TwitchHandler.tsx:66-76 | a stored id is kept; otherwise the looked-up id is used, or `""` without an access token |
| TwitchHandler.SetsLoadedValues | gui/src/utils/TwitchHandler.tsx:78-87 | the settings hold the loaded credentials, the OpenAI key or `""`, and the final tokens |
| TwitchHandler.WritesOnce | gui/src/utils/TwitchHandler.tsx:78-93 | a start-up that sets settings writes `.env` exactly once, last, with those settings; otherwise it writes nothing |
| TwitchHandler.SettingsReadBack | gui/src/utils/TwitchHandler.tsx:5-20 | written settings whose values are storable read back as the same map |
| TwitchHandler.RestartIsStable | gui/src/utils/TwitchHandler.tsx:37-93 | restarting on a file the start-up wrote, with every field filled, sets the same settings and writes the same file without fetching or looking up |
| TwitchHandler.WithDefaultDuration | gui/src/utils/TwitchHandler.tsx:157-159 | a falsy duration (missing, 0 or NaN) becomes 90 and a truthy one is kept |
| TwitchHandler.DefaultDurationIdempotent | gui/src/utils/TwitchHandler.tsx:157-159 | applying the default twice is applying it once |
| TwitchHandler.TwitchSession.LoadEnv | gui/src/utils/TwitchHandler.tsx:37-98 | the session logs the start-up's commands and takes its settings, keeping the old ones when it sets none |
| TwitchHandler.TwitchSession.LoadSettings | gui/src/utils/TwitchHandler.tsx:41-93 | the step after the read: the token fetch, the lookup and the write |
| TwitchHandler.TwitchSession.StoreSettings | gui/src/utils/TwitchHandler.tsx:66-93 | the lookup and the single write of the settings |
| TwitchHandler.TwitchSession.StartPrediction | gui/src/utils/TwitchHandler.tsx:156-168 | the prediction's duration is defaulted in place, and the create command carries the session's credentials and the prediction's fields |
| TwitchApi.Build | gui/src-tauri/src/twitch_api.rs:52-61 | each request builder (and the one at lines 130-139) carries the client id and the current bearer token: a POST of the prediction, or a GET of the users with the login |
| TwitchApi.TokenRequest | gui/src-tauri/src/twitch_api.rs:97-106 | the token request posts `client_id`, `client_secret` and `grant_type=client_credentials` to the token endpoint |
| TwitchApi.TokenBody | gui/src-tauri/src/twitch_api.rs:103-109 | a transport error fails; otherwise the body whatever the status, and `""` when the body cannot be read |
| TwitchApi.ExtractAccessToken | gui/src-tauri/src/twitch_api.rs:170-177 | the string member `access_token` is returned; a parse error, a non-object, or a missing or non-string member is an error |
| TwitchApi.ExtractLastToken | gui/src-tauri/src/twitch_api.rs:170-177 | with duplicate members the last `access_token` is the one extracted |
| TwitchApi.ExtractNeedsString | gui/src-tauri/src/twitch_api.rs:173-176 | an `access_token` that is not a string gives the missing-token error |
| TwitchApi.ExtractNeedsObject | gui/src-tauri/src/twitch_api.rs:173-176 | a payload that is not an object gives the missing-token error |
| TwitchApi.TransportErrorReturned | gui/src-tauri/src/twitch_api.rs:22 | a transport error on the first send is returned at once; nothing is refreshed or resent |
| TwitchApi.OtherStatusReturned | gui/src-tauri/src/twitch_api.rs:23-25 | a first status other than 401, error statuses included, is returned unchanged with no refresh |
| TwitchApi.FailedRefreshNotResent | gui/src-tauri/src/twitch_api.rs:27 | on 401 the token endpoint is asked once; a failed refresh returns its error and nothing is resent |
| TwitchApi.RetryCarriesNewToken | gui/src-tauri/src/twitch_api.rs:28-31 | after a refresh the rebuilt request carries the new token, because the builder (lines 53-59) reads the cell the refresh wrote (lines 74-77), and is sent once; its outcome, a second 401 included, is the result |
| TwitchApi.SendBounds | gui/src-tauri/src/twitch_api.rs:13-32 | whatever the network answers: at most two sends, at most one refresh, and a refresh exactly when the first answer is 401 |
| TwitchApi.BodyResult | gui/src-tauri/src/twitch_api.rs:87-91 | each command (also lines 163-167) returns the response text, the error reading it, or the error the protocol stopped at |
| TwitchApi.TokenStore.Refresh | gui/src-tauri/src/twitch_api.rs:65-82 | the refresh closure (also lines 141-158) logs the token request and overwrites the cell with the extracted token; on failure the cell is unchanged |
| TwitchApi.TokenStore.SendWithRefresh | gui/src-tauri/src/twitch_api.rs:13-32 | the method's sends, final cell and result are exactly those of the protocol |
| TwitchApi.CreateTwitchPrediction | gui/src-tauri/src/twitch_api.rs:35-92 | `create_twitch_prediction` runs the protocol on a fresh cell holding the given token |
| TwitchApi.GetUserId | gui/src-tauri/src/twitch_api.rs:112-168 | `get_user_id` runs the protocol on a fresh cell holding the given token |
| CreatePrediction.DedupSpec | gui/src/components/CreatePrediction.tsx:64 | removing duplicates keeps exactly the same values, each once |
| CreatePrediction.DedupOrder | gui/src/components/CreatePrediction.tsx:64 | the deduplicated list keeps values in the order of their first occurrence |
| CreatePrediction.DedupDistinct | gui/src/components/CreatePrediction.tsx:64 | a list without duplicates is left as it is |
| CreatePrediction.NonEmptySpec | gui/src/components/CreatePrediction.tsx:63 | the filter keeps exactly the non-empty parts |
| CreatePrediction.OutcomesSpec | gui/src/components/CreatePrediction.tsx:60-64 | the outcomes are distinct and are exactly the non-empty trimmed comma-separated parts |
| CreatePrediction.HasTooLongOutcome | gui/src/components/CreatePrediction.tsx:66-72 | the loop finds a too-long outcome exactly when some outcome's trimmed UTF-16 length exceeds 25 |
| CreatePrediction.ValidIff | gui/src/components/CreatePrediction.tsx:52-91 | a draft is built exactly when all four checks pass; it holds the trimmed title, the normalised outcomes and the parsed window |
| CreatePrediction.CheckOrder | gui/src/components/CreatePrediction.tsx:53-84 | the checks run in the order title, outcome length, outcome count, window, and the first failure gives its message |
| CreatePrediction.OutcomeLengthLimit | gui/src/components/CreatePrediction.tsx:66-72 | for an outcome that is already trimmed and lies in the Basic Multilingual Plane, 25 characters pass and 26 fail; astral characters count two UTF-16 units each |
| CreatePrediction.WindowBounds | gui/src/components/CreatePrediction.tsx:79-84 | a numeric window passes exactly from 30 to 1800, both ends included |
| CreatePrediction.BlankWindowAccepted | gui/src/components/CreatePrediction.tsx:79-84 | an empty or blank window gives `NaN`, which `?? 90` does not replace and which fails neither comparison |
| CreatePrediction.NoMaximumTitle | gui/src/components/CreatePrediction.tsx:53-58 | no title of 3 or more characters is rejected: there is no maximum length |
| CreatePrediction.CreatePredictionPage.BuildPredictionFromForm | gui/src/components/CreatePrediction.tsx:52-92 | the method returns the validation's result and on failure sets the error status and its message |
| CreatePrediction.CreatePredictionPage.PersistPrediction | gui/src/components/CreatePrediction.tsx:94-104 | only a valid draft is appended at the end of the list and saved |
| CreatePrediction.CreatePredictionPage.HandleSave | gui/src/components/CreatePrediction.tsx:106-122 | a saved draft shows the saved message and resets the form; a rejected save shows the failure message |
| CreatePrediction.CreatePredictionPage.HandleSaveAndStart | gui/src/components/CreatePrediction.tsx:124-133 | a prediction is started only with a valid draft that was saved |
| CreatePrediction.CreatePredictionPage.Load | gui/src/components/CreatePrediction.tsx:135-152 | the loaded drafts replace the list; a failed load, or one finishing after unmount (the `isMounted` guard), leaves it |
| CreatePrediction.CreatePredictionPage.HandleInputChange | gui/src/components/CreatePrediction.tsx:47-50 | an input change updates only its own field of the form |
| OAuthUtils.StoredState | gui/src/utils/OAuthCallback.tsx:11 | the stored state is the trimmed file text, or none when that is empty |
| OAuthUtils.VerifyState | gui/src/utils/OAuthCallback.tsx:4-31 | true exactly when the file was read, its trimmed text is non-empty and equals the returned state, and the clearing write succeeded |
| OAuthUtils.ReadTokenAnswerSpec | gui/src/utils/OAuthCallback.tsx:49-65 | the answer throws when it does not decode (or decodes to `null`), is refused with a truthy `error`, and grants exactly when both tokens are truthy |
| OAuthUtils.NewTokensStored | gui/src/utils/OAuthCallback.tsx:71-73 | both tokens are replaced, the broadcaster id becomes `""`, and every other key is unchanged |
| OAuthUtils.NewTokensKeepOrder | gui/src/utils/OAuthCallback.tsx:71-73 | the update keeps existing keys in their places and keeps keys distinct |
| OAuthUtils.ExchangeCodeForTokens | gui/src/utils/OAuthCallback.tsx:33-84 | the exchange always sends the fixed redirect URI; `.env` is read and then written once only after both tokens are granted |
| OAuthUtils.ErrorPayloadLeavesEnv | gui/src/utils/OAuthCallback.tsx:51-57 | an error payload is refused before `.env` is read or written |
| OAuthUtils.MissingTokenLeavesEnv | gui/src/utils/OAuthCallback.tsx:59-65 | a payload missing either token ends before `.env` is read or written |
| OAuthPage.ErrorParamWins | gui/src/components/OAuthCallback.tsx:36-51 | an `error` parameter wins over a code: only the stored state is read, and the failure is shown with no exchange |
| OAuthPage.StateGuardsExchange | gui/src/components/OAuthCallback.tsx:31-92 | without a matching stored state nothing is exchanged or written; with one, the state is cleared before `.env` is read; an exchange needs the state and the three settings |
| OAuthPage.EnvWrittenOnce | gui/src/components/OAuthCallback.tsx:96-118 | `.env` is written at most once, exactly when the state matched, the settings were present and both tokens were granted; the write is last and stores those tokens |
| OAuthPage.SuccessIff | gui/src/components/OAuthCallback.tsx:115-135 | success is shown and the redirect scheduled exactly when every step succeeded and the page is still mounted |
| OAuthPage.ExchangeWrites | gui/src/components/OAuthCallback.tsx:87-118 | the exchange part writes `.env` once when granted both tokens and otherwise not at all |
| OAuthPage.OAuthCallbackPage.Effect | gui/src/components/OAuthCallback.tsx:14-19 | the callback is handled at most once per mount |
| OAuthPage.OAuthCallbackPage.HandleOAuthCallback | gui/src/components/OAuthCallback.tsx:24-136 | the page's status and message are those of the decision chain |
| PrevPrediction.ParseToPrediction | gui/src/components/ui/prevPredictionDisplay.tsx:16-24 | the draft keeps the id, title and window, and lists the outcome titles in order |
| PrevPrediction.Shown | gui/src/components/ui/prevPredictionDisplay.tsx:28-29 | the panel is chosen by the first snapshot's status; an empty list throws |
| PrevPrediction.PanelPartition | gui/src/components/ui/prevPredictionDisplay.tsx:28-119 | the finished panel shows exactly for CANCELED or RESOLVED, the running one exactly for LOCKED or ACTIVE, and any other status shows neither |
| PrevPrediction.FindByTitle | gui/src/components/ui/prevPredictionDisplay.tsx:97-99 | `find` gives the first draft with the title, or none when no draft has it |
| PrevPrediction.OffersSaveIff | gui/src/components/ui/prevPredictionDisplay.tsx:97-99 | SAVE is offered exactly when no saved draft has the snapshot's title |
| PrevPrediction.PreviousButtons | gui/src/components/ui/prevPredictionDisplay.tsx:87-113 | a finished prediction offers START AGAIN, and SAVE exactly when its title is not saved |
| PrevPrediction.RunningButtons | gui/src/components/ui/prevPredictionDisplay.tsx:135-198 | a running prediction has one End button per outcome, in order, and CANCEL last |
| PrevPrediction.ShownButtonsAct | gui/src/components/ui/prevPredictionDisplay.tsx:90-194 | START AGAIN starts the parsed draft; SAVE appends it after the unchanged list; End sends the snapshot id and its row's outcome id; CANCEL sends the snapshot id |
| PrevPrediction.SaveHidesSave | gui/src/components/ui/prevPredictionDisplay.tsx:97-107 | after SAVE the earlier drafts are unchanged and SAVE is no longer offered |
| AccountCard.PartnerBadgeIff | gui/src/components/ui/accountCard.tsx:20-22 | the badge shows exactly when the broadcaster type is `"partner"`; `"affiliate"`, `""` and a missing type show none |
| AccountCard.Disconnect | gui/src/components/ui/accountCard.tsx:28-32 | both tokens become `""` and every other setting is unchanged |
| AccountCard.DisconnectIdempotent | gui/src/components/ui/accountCard.tsx:26-32 | disconnecting twice is disconnecting once, and afterwards the session is not ready |
| TwitchApiHandler.CreatePayloadShape | TwitchApiHandler.py:23-28 | the payload carries the broadcaster id, the title, one `{"title": o}` per option in order, and `prediction_window = duration` |
| TwitchApiHandler.CreatePrediction | TwitchApiHandler.py:20-40 | one POST of the payload; an error status returns `None`; a success returns the decoded body; a transport or decoding failure escapes uncaught |
| TwitchApiHandler.CurrentIsOpenNewest | TwitchApiHandler.py:42-50 | the current prediction is the newest one when its status is ACTIVE or LOCKED |
| TwitchApiHandler.CurrentTruthyIsOpen | TwitchApiHandler.py:46-50 | a non-empty current prediction is the newest one and is open |
| TwitchApiHandler.ErrorBodyRaises | TwitchApiHandler.py:45-61 | an error body without `data` raises `KeyError` in both getters, since neither checks the status |
| TwitchApiHandler.GameAndTitleOfFirst | TwitchApiHandler.py:119-127 | empty data gives `None`; otherwise the first channel's `game_name` and `title` |
| TwitchApiHandler.GameAndTitleFailures | TwitchApiHandler.py:116-131 | a transport failure, an error status or an undecodable body gives `None` |
| TwitchApiHandler.EndRejectsOutcome | TwitchApiHandler.py:85-88 | an outcome that is `None`, negative or above 2 makes no request |
| TwitchApiHandler.NoCurrentNoPatch | TwitchApiHandler.py:69-93 | with no current prediction, ending and cancelling make only the GET |
| TwitchApiHandler.ResolvePatchesOnce | TwitchApiHandler.py:95-110 | resolving adds at most one request: a PATCH of the predictions |
| TwitchApiHandler.EndPatchesAfterGet | TwitchApiHandler.py:85-110 | ending makes no request, or the GET and at most one PATCH after it |
| TwitchApiHandler.DeletePatchesAfterGet | TwitchApiHandler.py:69-83 | cancelling makes the GET and at most one PATCH after it |
| TwitchApiHandler.OutcomeAtLengthRaises | TwitchApiHandler.py:97-101 | the guard rejects only `outcome > len`: `outcome == len` passes, the index raises `IndexError`, and no PATCH is sent |
| TwitchApiHandler.EndAndDeleteParams | TwitchApiHandler.py:77-109 | End's PATCH carries `status=RESOLVED`, the current id and the chosen outcome's id; Delete's carries `status=CANCELED` and the current id |
| GenerateAiPred.NoFenceOnlyStripped | GenerateAiPred.py:16-23 | text without fences is only stripped |
| GenerateAiPred.JsonFenceContent | GenerateAiPred.py:18-19 | with ```` ```json ```` the content is what lies between the first ```` ```json ```` and the next ```` ``` ````, stripped, under the condition named under Left out |
| GenerateAiPred.CutAtJsonFence | GenerateAiPred.py:19 | cutting at the first ```` ```json ```` and then at ```` ``` ```` is cutting at the first ```` ``` ```` |
| GenerateAiPred.FenceContent | GenerateAiPred.py:20-21 | with only plain fences the content is what lies between the first and the second, stripped |
| GenerateAiPred.FencedContentIsFenceFree | GenerateAiPred.py:18-21 | the content of a fenced answer holds no fence |
| GenerateAiPred.ParseIsTotal | GenerateAiPred.py:14-33 | `parse` never raises: a decoded value, or a dict with `"data": []` and an `"error"` message |
| GenerateAiPred.FormatWellFormedEntry | GenerateAiPred.py:136-142 | a record copies the title, takes the first two options, the third or `None`, sets duration 90 and drops later options |
| GenerateAiPred.FormatPrediction | GenerateAiPred.py:130-145 | the loop returns the records of all entries in order, or the first exception |
| GenerateAiPred.NoneIffError | GenerateAiPred.py:131-132 | a dict gives `None` exactly when it has the lowercase key `"error"` |
| GenerateAiPred.CapitalErrorGivesNoRecords | GenerateAiPred.py:131-135 | the `{"Error": ...}` dict gives an empty list of records |
| GenerateAiPred.ParseFailureGivesNone | GenerateAiPred.py:26-33 | whatever `parse` returns after a failed decoding formats to `None` (lines 131-132) |
| GenerateAiPred.FormatsEveryEntry | GenerateAiPred.py:134-145 | with well-formed entries there is one record per entry, in order |

## Left out

- File reads and writes (Tauri `read_file`/`write_file`), HTTP (reqwest, `requests`) and JSON decoding are answers given to the model as parameters. `serde_json`, `JSON.parse` and `json.loads` are not reimplemented.
- React state scheduling, timers (the 2-second saved message, the 1.5-second redirect), `history.replaceState`, `console` output, `print` and tkinter message boxes are left out. The OAuth redirect is a flag.
- `async` interleaving is left out. The `cancelled` flag of the OAuth page is an input. The `cancelled` flag of `loadEnv` is taken as false.
- The Python modules read their environment variables at import time. The model takes the broadcaster id as a parameter. The headers, client id and access token are not modelled.
- The LLM calls of `GenerateAiPred.py` are out of scope: the chat model, the prompts, `GetGameContext` and `GeneratePredictions`. The answer text is a parameter of `parse`.
- The generic `except Exception` of `parse` only covers exceptions the stripping and splitting cannot raise. It is modelled by the `OtherError` answer of `loads`.
- The components that call these functions are not part of this model: `endPrediction`, `deletePrediction` and `getCurrentPredictions` in `TwitchHandler.tsx` are empty.
- `JsonHandler.tsx` is not part of this model. `CreatePrediction.tsx` imports `savePrediction` from it. Whether that save rejects is the `saveRejects` input.
- `lib.rs`, `init.py`, `PredCreator.py`, `dbServer.py`, `FileHandler.py` and the UI shells are not part of this model.
- In these places the model follows the code:
  - the 401 refresh asks for a new client-credentials token, not a refresh-token grant;
  - the new token lives only in the token cell and is never written to `.env`;
  - `loadEnv` fetches tokens when either is missing;
  - `loadEnv` writes back only the 8 known keys;
  - a fetched token that is `undefined` is written as the text `undefined`.
- In `components/OAuthCallback.tsx`, the `!code` check (lines 53-57) cannot fail after the checks before it. It is not modelled.
- TwitchApiHandler.CreatePrediction: takes a body that does not decode as a `requests` exception. Since `requests` 2.27, a JSON decoding error is one. Only `HTTPError` is caught, so such a body escapes.
- TwitchApiHandler.GetCurrentPrediction: the same reading gives `{}` for a body that does not decode. The `except RequestException` catches the decoding error.
- GenerateAiPred.JsonFenceContent: proved only when the answer has no backtick right before the first ```` ```json ```` after the opening one. Otherwise the first ```` ``` ```` of the rest can start inside that backtick and cut earlier. For that case `Content` still models the code exactly.
- GenerateAiPred.Entries: iterating a non-empty dict or string `data` raises `TypeError`, because its elements are not dicts. The order of a dict's keys is not modelled.
- DotEnv.Put: the keys come from `.env` lines, so only string keys are modelled. `__proto__` is the one key of a plain object that names an accessor. Every other key of `Object.prototype` is a writable data property, and assigning to it creates an own key.
- DotEnv.RoundTrip: stated for objects in `Object.entries` order and without a `__proto__` key. Every object built by assignments is in that order, because `Put` keeps it. A settings object is represented by that order, not by the order of its assignments.
- DotEnv.ParsedValue: `Get` reads own keys only. In JavaScript `env.__proto__` reads `Object.prototype`, not `undefined`. The model reports it as `None`, the absence of an own key.
- TwitchHandler.FetchedTokens: each token is a string or `undefined`. A JSON answer whose `access_token` or `refresh_token` is a number, boolean, object or `null` would be stored as its template text (`42`, `true`, `[object Object]`, `null`). The model does not produce those texts.
- TwitchHandler.LookedUpId: the id is a string or `undefined`. A `data.data[0]` whose `id` is some other JSON value is not modelled. A missing `data.data`, or an empty one, is the failed lookup, as the `catch` and `?? "error"` make it.
- Json: a JSON number is an integer. Fractions, exponents and JavaScript's number formatting are not modelled. These include the exponent form from 1e21 up and the precision loss above 2^53.
- Py.Len: the length of a decoded dict counts its distinct keys.
- Js.Utf16Length: the contract gives only the bounds `|s| <= n <= 2 * |s|`. The body counts a character above U+FFFF as two code units, as JavaScript's `length` does. Text inside the Basic Multilingual Plane is handled by `Js.Utf16LengthBmp`.
