/** The process environment, read as a map from variable names to values. */
module Environment {
  type Env = map<string, string>

  /** `os.getenv(key, default)`: a variable that is set wins even when its value is empty. */
  function GetEnv(env: Env, key: string, default: string): string
  {
    if key in env then env[key] else default
  }
}
