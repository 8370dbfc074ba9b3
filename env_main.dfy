/** The main package's own environment helpers (env.go): the same trimming and fallback,
    but a missing required variable ends the process through `log.Fatalf`. */
module EnvMain {
  import opened Wrappers
  import opened Strings
  import EnvPkg

  /** `LookupEnv`: the trimmed value, or the fallback as given. */
  function LookupEnv(env: map<string, string>, key: string, fallback: string): (r: string)
    ensures key in env && TrimSpace(env[key]) != "" ==> r == TrimSpace(env[key])
    ensures !(key in env) || TrimSpace(env[key]) == "" ==> r == fallback
  {
    var value := if key in env then TrimSpace(env[key]) else "";
    if !(key in env) || value == "" then fallback else value
  }

  /** The log line `log.Fatalf` prints before exiting. */
  function FatalMessage(key: string): string {
    "Env variable '" + key + "' is required"
  }

  /** `MustLookupEnv`: the trimmed value, or the process exits with the fatal message. */
  function MustLookupEnv(env: map<string, string>, key: string): (r: Result<string, string>)
    ensures r.Err? <==> !(key in env) || TrimSpace(env[key]) == ""
    ensures r.Err? ==> r.error == FatalMessage(key)
    ensures r.Ok? ==> r.value == TrimSpace(env[key])
  {
    var value := if key in env then TrimSpace(env[key]) else "";
    if !(key in env) || value == "" then Err(FatalMessage(key)) else Ok(value)
  }

  /** The two packages look variables up alike; they differ only in how a missing required
      variable ends: a panic value there, a fatal exit here. */
  lemma SameAsEnvPackage(env: map<string, string>, key: string, fallback: string)
    ensures LookupEnv(env, key, fallback) == EnvPkg.Lookup(env, key, fallback)
    ensures MustLookupEnv(env, key).Ok? <==> EnvPkg.MustLookup(env, key).Ok?
    ensures MustLookupEnv(env, key).Ok? ==> MustLookupEnv(env, key).value == EnvPkg.MustLookup(env, key).value
  {
  }
}
