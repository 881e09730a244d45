/** The process environment (`os.environ`) as a map from variable names to values. */
module Environ {
  import opened Optional

  type Environment = map<string, string>

  /** `os.getenv(key)`. */
  function GetEnv(env: Environment, key: string): (r: Option<string>)
    ensures r.Some? <==> key in env
    ensures r.Some? ==> r.value == env[key]
  {
    if key in env then Some(env[key]) else None
  }

  /** `os.getenv(key, default)`. */
  function GetEnvOr(env: Environment, key: string, default: string): (r: string)
    ensures key in env ==> r == env[key]
    ensures key !in env ==> r == default
  {
    if key in env then env[key] else default
  }
}
