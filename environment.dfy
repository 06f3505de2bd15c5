/** The process environment (`os.environ`) as both source files read it. */
module Environment {
  import opened Wrappers

  type Env = map<string, string>

  /** The `KeyError` that `os.environ[key]` raises for an unset variable. */
  datatype KeyError = KeyError(key: string) {
    /** `str()` of the exception, which Python renders as the repr of the key:
        the key between single quotes (every key used here is plain text
        without quotes or backslashes, for which that repr is exact). */
    function Text(): (t: string)
      ensures |t| == |key| + 2
      ensures t[0] == '\'' && t[|t| - 1] == '\''
      ensures t[1..|t| - 1] == key
    {
      "'" + key + "'"
    }
  }

  /** `os.environ[key]`: the value, or the `KeyError` naming the key. */
  function Require(env: Env, key: string): (r: Result<string, KeyError>)
    ensures r.Success? <==> key in env
    ensures r.Success? ==> r.value == env[key]
    ensures r.Failure? ==> r.error == KeyError(key)
  {
    if key in env then Success(env[key]) else Failure(KeyError(key))
  }

  /** `os.getenv(key, default)`: the default only when the variable is unset
      (a variable set to the empty string yields the empty string). */
  function GetOr(env: Env, key: string, default: string): (r: string)
    ensures key in env ==> r == env[key]
    ensures key !in env ==> r == default
  {
    if key in env then env[key] else default
  }
}
