/**
 * `getenv(k, def)`: an environment variable with a default. The process
 * environment is a parameter, a map from names to values.
 */
module Env {

  type Environ = map<string, string>

  /** `os.Getenv`: the value of `k`, or the empty string when `k` is unset. */
  function OsGetenv(env: Environ, k: string): (v: string)
    ensures k in env ==> v == env[k]
    ensures k !in env ==> v == ""
  {
    if k in env then env[k] else ""
  }

  /**
   * The variable's value when it is set to something non-empty, otherwise the
   * default: an unset variable and one set to "" are treated alike.
   */
  function Getenv(env: Environ, k: string, def: string): (v: string)
    ensures k in env && env[k] != "" ==> v == env[k]
    ensures k !in env ==> v == def
    ensures k in env && env[k] == "" ==> v == def
    ensures v == "" ==> def == ""
  {
    var v := OsGetenv(env, k);
    if v != "" then v else def
  }
}
