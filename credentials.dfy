/** The credential check (weather.py, `check_tokens`). The process
    environment is a map from variable names to values; a variable that is
    unset is a name outside the map. */
module Credentials {

  type Env = map<string, string>

  /** TOKEN_NAMES: the weather API key, the bot token and the chat id. */
  const TokenNames: seq<string> := ["APIKEY", "TELEGRAM_TOKEN", "TELEGRAM_CHAT_ID"]

  /** A credential passes when it is set and not empty (Python truthiness of
      the looked-up value: both None and "" fail). */
  predicate Present(env: Env, name: string) {
    name in env && env[name] != ""
  }

  predicate AllPresent(env: Env) {
    forall i :: 0 <= i < |TokenNames| ==> Present(env, TokenNames[i])
  }

  /** The names among `names` that fail the check, in their order in `names`. */
  function Missing(env: Env, names: seq<string>): (missing: seq<string>)
    ensures |missing| <= |names|
    ensures forall x :: x in missing ==> x in names && !Present(env, x)
    ensures forall x :: x in names && !Present(env, x) ==> x in missing
    decreases |names|
  {
    if names == [] then []
    else
      var last := names[|names| - 1];
      Missing(env, names[..|names| - 1]) + (if Present(env, last) then [] else [last])
  }

  /** Walks the three names without stopping at the first failure; `ok` is
      cleared by every missing credential, and `logged` records, one entry per
      critical log line, the name of each missing credential in order. */
  method CheckTokens(env: Env) returns (ok: bool, ghost logged: seq<string>)
    ensures ok <==> AllPresent(env)
    ensures logged == Missing(env, TokenNames)
  {
    ok := true;
    logged := [];
    for i := 0 to |TokenNames|
      invariant ok <==> forall k :: 0 <= k < i ==> Present(env, TokenNames[k])
      invariant logged == Missing(env, TokenNames[..i])
    {
      var token := TokenNames[i];
      assert TokenNames[..i + 1][..i] == TokenNames[..i];
      assert Missing(env, TokenNames[..i + 1]) ==
        Missing(env, TokenNames[..i]) + (if Present(env, token) then [] else [token]);
      if !Present(env, token) {
        ok := false;
        logged := logged + [token];
      }
    }
    assert TokenNames[..|TokenNames|] == TokenNames;
  }

  /** The check passes exactly when nothing is logged. */
  lemma NothingLoggedIffAllPresent(env: Env)
    ensures Missing(env, TokenNames) == [] <==> AllPresent(env)
  {
  }

  /** The log written for each combination of missing credentials: one line
      per missing name, none for present ones, in TOKEN_NAMES order. */
  lemma LoggedInOrder(env: Env)
    ensures Missing(env, TokenNames) ==
      (if Present(env, "APIKEY") then [] else ["APIKEY"]) +
      (if Present(env, "TELEGRAM_TOKEN") then [] else ["TELEGRAM_TOKEN"]) +
      (if Present(env, "TELEGRAM_CHAT_ID") then [] else ["TELEGRAM_CHAT_ID"])
  {
  }

  /** With an empty environment every credential is reported. */
  lemma EmptyEnvLogsAll()
    ensures Missing(map[], TokenNames) == TokenNames
  {
  }
}
