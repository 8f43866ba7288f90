/** The Poe API key the server expects (`find_auth_key`) and the bearer check
    every POST goes through (`auth_user`). */
module Auth {
  import opened Wrappers

  /** A Poe API key is exactly this many characters long. */
  const ApiKeyLength: nat := 32

  /** `find_auth_key` returns a key, returns `None`, or ends the process with
      `sys.exit(1)`. */
  datatype KeyLookup = KeyFound(key: string) | NoKey | Exit(status: int)

  /** The key `find_auth_key` goes on to check: the argument if it is
      non-empty, else a non-empty `POE_API_KEY` from the environment. */
  function SuppliedKey(apiKey: string, env: Option<string>): Option<string> {
    if apiKey != "" then Some(apiKey)
    else if env.Some? && env.value != "" then Some(env.value)
    else None
  }

  /** `find_auth_key(api_key, allow_without_key=...)` with `env` the value of
      the `POE_API_KEY` environment variable, if set. */
  function FindAuthKey(apiKey: string, env: Option<string>, allowWithoutKey: bool := false): (r: KeyLookup)
    ensures r.KeyFound? <==> SuppliedKey(apiKey, env).Some? && |SuppliedKey(apiKey, env).value| == ApiKeyLength
    ensures r.KeyFound? ==> r.key == SuppliedKey(apiKey, env).value
    ensures r.NoKey? <==> SuppliedKey(apiKey, env).None? && allowWithoutKey
    ensures r.Exit? ==> r.status == 1
  {
    if apiKey == "" && !(env.Some? && env.value != "") then
      if allowWithoutKey then NoKey else Exit(1)
    else
      var key := if apiKey != "" then apiKey else env.value;
      if |key| != ApiKeyLength then Exit(1) else KeyFound(key)
  }

  /** The module-level `auth_key = find_auth_key("", allow_without_key=False)`:
      the server either holds a 32-character key from the environment or
      does not start, so `auth_user` never sees `None`. */
  lemma StartupKeyIsNeverMissing(env: Option<string>)
    ensures FindAuthKey("", env).KeyFound? <==> env.Some? && |env.value| == ApiKeyLength
    ensures !FindAuthKey("", env).NoKey?
  {
  }

  /** `auth_user` either lets the request through or raises HTTP 401. */
  datatype AuthResult = Authorized | Unauthorized(status: int, detail: string, challenge: string)

  /** `auth_user` for the request's `Authorization` scheme and credentials,
      given the server's key (`None` disables the check). */
  function AuthUser(authKey: Option<string>, scheme: string, credentials: string): (r: AuthResult)
    ensures r.Authorized? <==> authKey.None? || (scheme == "Bearer" && credentials == authKey.value)
    ensures r.Unauthorized? ==> r == Unauthorized(401, "Invalid API key", "Bearer")
  {
    if authKey.None? then Authorized
    else if scheme != "Bearer" || credentials != authKey.value then
      Unauthorized(401, "Invalid API key", "Bearer")
    else Authorized
  }

  /** With the key found at start-up, a request is let through exactly when it
      presents that key, as a bearer token, character for character. */
  lemma StartedServerChecksBearerKey(env: Option<string>, scheme: string, credentials: string)
    requires FindAuthKey("", env).KeyFound?
    ensures var key := FindAuthKey("", env).key;
      AuthUser(Some(key), scheme, credentials).Authorized? <==>
        scheme == "Bearer" && env.Some? && credentials == env.value && |credentials| == ApiKeyLength
  {
  }
}
