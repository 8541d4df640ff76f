/** The process environment, as the hook sees it: a finite map from variable
    names to values. Reading it is the only way configuration enters the hook. */
module Environment {

  type Env = map<string, string>

  /** `getEnv` in main.go: the stored value when the variable is set (even to
      the empty string), the caller's default only when it is not set at all. */
  function GetEnv(env: Env, key: string, default: string): (v: string)
    ensures key in env ==> v == env[key]
    ensures key !in env ==> v == default
  {
    if key in env then env[key] else default
  }

  /** Setting a variable, even to "", is always observed: the default is never
      consulted for a variable that is present. */
  lemma GetEnvSeesUpdate(env: Env, key: string, value: string, default: string)
    ensures GetEnv(env[key := value], key, default) == value
    ensures forall k :: k != key ==> GetEnv(env[key := value], k, default) == GetEnv(env, k, default)
  {
  }
}
