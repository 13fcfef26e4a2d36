/** `TestEnv` of the `totonoeru` test utilities: a map-backed environment provider, the
    deterministic provider the layers' `from_env` is exercised against. */
module TestEnvProvider {
  import opened Wrappers

  /** `TestEnv`: variable name to value. */
  datatype TestEnv = TestEnv(vars: map<string, string>)

  /** The map lookup behind `fetch`. */
  function Get(env: TestEnv, key: string): Option<string>
  {
    if key in env.vars then Some(env.vars[key]) else None
  }

  /** `TestEnv::new`: every variable is absent. */
  function New(): (r: TestEnv)
    ensures forall key :: Get(r, key) == None
  {
    TestEnv(map[])
  }

  /** `TestEnv::add`: `key` now reads as `value`, replacing any earlier value, and every
      other key reads as before. */
  function Add(env: TestEnv, key: string, value: string): (r: TestEnv)
    ensures Get(r, key) == Some(value)
    ensures forall other :: other != key ==> Get(r, other) == Get(env, other)
  {
    TestEnv(env.vars[key := value])
  }

  /** `EnvProvider::fetch` for `TestEnv`: never an error; present exactly when the key was
      added, with the latest value added for it. */
  function Fetch<R>(env: TestEnv, key: string): (r: Result<Option<string>, R>)
    ensures r.Ok?
    ensures r.value.Some? <==> key in env.vars
    ensures r.value.Some? ==> r.value.value == env.vars[key]
  {
    Ok(Get(env, key))
  }

  /** The provider view of a `TestEnv`, ready to hand to `from_env`. */
  function Provider<R>(env: TestEnv): string -> Result<Option<string>, R>
  {
    key => Fetch(env, key)
  }

  /** A later `add` of the same key overwrites the earlier one entirely. */
  lemma LaterAddOverwrites(env: TestEnv, key: string, v1: string, v2: string)
    ensures Add(Add(env, key, v1), key, v2) == Add(env, key, v2)
  {
  }

  /** Read-over-write through the provider interface: fetching after an `add` sees the
      added value for that key and the old answer for every other key. */
  lemma FetchAfterAdd<R>(env: TestEnv, key: string, value: string, probe: string)
    ensures Fetch<R>(Add(env, key, value), probe) == (if probe == key then Ok(Some(value)) else Fetch<R>(env, probe))
  {
  }
}
