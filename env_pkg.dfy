/** Environment lookup with trimming and a fallback (pkg/env/env.go). The process
    environment is a map from names to values. */
module EnvPkg {
  import opened Wrappers
  import opened Strings
  import opened Errors

  /** The value of `key` after trimming, when it is set and not blank. */
  function Present(env: map<string, string>, key: string): Option<string> {
    if key in env && TrimSpace(env[key]) != "" then Some(TrimSpace(env[key])) else None
  }

  /** `ErrMissingEnv{key}.Error()` */
  function MissingEnvText(key: string): string {
    "env variable `" + key + "` is missing"
  }

  /** `ErrMissingEnv{key}` as an error value. */
  function ErrMissingEnv(key: string): (e: Error)
    ensures Formattable(e) && Text(e) == MissingEnvText(key)
  {
    Opaque("env.ErrMissingEnv", MissingEnvText(key))
  }

  /** `Lookup`: the trimmed value, or the fallback as given when the variable is unset or
      blank. */
  function Lookup(env: map<string, string>, key: string, fallback: string): (r: string)
    ensures key in env && TrimSpace(env[key]) != "" ==> r == TrimSpace(env[key])
    ensures !(key in env) || TrimSpace(env[key]) == "" ==> r == fallback
  {
    var value := if key in env then TrimSpace(env[key]) else "";
    if !(key in env) || value == "" then fallback else value
  }

  /** `MustLookup`: the trimmed value, or a panic with `ErrMissingEnv{key}`. */
  function MustLookup(env: map<string, string>, key: string): (r: Result<string, Error>)
    ensures r.Err? <==> !(key in env) || TrimSpace(env[key]) == ""
    ensures r.Err? ==> r.error == ErrMissingEnv(key)
    ensures r.Ok? ==> r.value == TrimSpace(env[key])
  {
    var value := if key in env then TrimSpace(env[key]) else "";
    if !(key in env) || value == "" then Err(ErrMissingEnv(key)) else Ok(value)
  }

  /** Both lookups agree with `Present`: `MustLookup` succeeds exactly when `Lookup` ignores
      its fallback, with the same value, and that value has nothing left to trim. */
  lemma LookupsAgree(env: map<string, string>, key: string, fallback: string)
    ensures Present(env, key).Some? ==>
      Lookup(env, key, fallback) == Present(env, key).value &&
      MustLookup(env, key) == Ok(Present(env, key).value) &&
      TrimSpace(Lookup(env, key, fallback)) == Lookup(env, key, fallback)
    ensures Present(env, key).None? ==>
      Lookup(env, key, fallback) == fallback && MustLookup(env, key).Err?
  {
    if key in env {
      TrimSpaceIdempotent(env[key]);
    }
  }

  /** `LoadDotEnv`: a missing `.env` file is not an error; any other load error is wrapped. */
  function LoadDotEnv(loadErr: Option<Error>): (r: Option<Error>)
    ensures r.None? <==> loadErr.None? || Is(loadErr.value, ErrNotExist)
    ensures r.Some? ==> r.value == Wrapped("failed to load .env file: ", loadErr.value)
  {
    if loadErr.Some? && !Is(loadErr.value, ErrNotExist) then
      Some(Wrapped("failed to load .env file: ", loadErr.value))
    else None
  }
}
