/** Values shared by the router and the key-check script: optional values,
    results with an error side, and the process environment as a map. */
module Config {

  datatype Option<+T> = None | Some(value: T)

  datatype Result<+T, +E> = Success(value: T) | Failure(error: E)

  /** The process environment after the dotenv file is loaded: a variable
      that is unset has no entry. */
  type Env = map<string, string>

  /** `os.getenv(name)`: the value, or None when the variable is unset. */
  function Getenv(env: Env, name: string): (v: Option<string>)
    ensures v.Some? <==> name in env
    ensures v.Some? ==> v.value == env[name]
  {
    if name in env then Some(env[name]) else None
  }

  /** Python truthiness of an optional string: set and non-empty. */
  predicate Truthy(v: Option<string>)
  {
    v.Some? && v.value != ""
  }
}
