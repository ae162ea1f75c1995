/**
 * The Tauri commands the TypeScript front end invokes, recorded as a log
 * of calls. What a command answers is an input of the operation that
 * issues it.
 */
module Tauri {
  import opened Wrappers
  import opened Js
  import opened DotEnv

  const EnvPath := ".env"
  const StatePath := ".oauth_state"

  /** The answer to `invoke("read_file", ...)`: the file's text, or a rejection. */
  datatype ReadResult = Read(contents: string) | ReadFailed

  /** The answer to an `invoke<string>(...)` of another command: its text, or a rejection. */
  datatype Reply = Resolved(text: string) | Rejected

  datatype Call =
    | ReadFile(path: string)
    | WriteFile(path: string, contents: string)
      /** `invoke("write_file", {path, contents: stringifyDotEnv(values)})`. */
    | WriteDotEnv(path: string, values: Env)
    | GetTwitchTokens(clientId: string, clientSecret: string)
    | GetUserId(clientId: string, clientSecret: string, accessToken: string, username: string)
    | ExchangeCode(code: string, clientId: string, clientSecret: string, redirectUri: string)
    | CreateTwitchPrediction(clientId: string, clientSecret: string, bearer: JsString,
                             title: string, outcomes: Option<seq<string>>, predictionWindow: JsNumber)

  predicate IsWrite(c: Call, path: string) {
    (c.WriteFile? || c.WriteDotEnv?) && c.path == path
  }

  /** The text a `write_file` call writes. */
  function WrittenText(c: Call): string
    requires c.WriteFile? || c.WriteDotEnv?
  {
    if c.WriteFile? then c.contents else StringifyDotEnv(c.values)
  }

  /** The number of `write_file` calls on `path` in `calls`. */
  function Writes(calls: seq<Call>, path: string): nat {
    if calls == [] then 0
    else Writes(calls[..|calls| - 1], path) + (if IsWrite(calls[|calls| - 1], path) then 1 else 0)
  }

  lemma {:induction false} WritesAppend(a: seq<Call>, b: seq<Call>, path: string)
    ensures Writes(a + b, path) == Writes(a, path) + Writes(b, path)
    decreases |b|
  {
    if b == [] {
      assert a + b == a;
    } else {
      assert (a + b)[..|a + b| - 1] == a + b[..|b| - 1];
      WritesAppend(a, b[..|b| - 1], path);
    }
  }

  /** A log without a write on `path` counts none. */
  lemma {:induction false} WritesNone(calls: seq<Call>, path: string)
    requires forall i :: 0 <= i < |calls| ==> !IsWrite(calls[i], path)
    ensures Writes(calls, path) == 0
  {
    if calls != [] {
      WritesNone(calls[..|calls| - 1], path);
    }
  }
}
