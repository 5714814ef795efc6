/**
 * The environment-variable helpers the Lambda handlers call at start-up.
 * The process environment is the map `env` from variable name to value; a
 * name absent from it is an unset variable, and an empty string is a value.
 */
module EnvUtils {
  import opened Wrappers
  import Text

  type Env = map<string, string>

  function NotSetMessage(name: string): string {
    "Required environment variable '" + name + "' is not set. Please check Lambda configuration."
  }

  /** `require_env`: the value, or an EnvironmentConfigError when the variable is unset. */
  function RequireEnv(env: Env, name: string): (r: Result<string, string>)
    ensures r.Ok? <==> name in env
    ensures r.Ok? ==> r.value == env[name]
    ensures r.Err? ==> r.error == NotSetMessage(name)
  {
    if name in env then Ok(env[name]) else Err(NotSetMessage(name))
  }

  /** `get_env`: the value, or `default` when the variable is unset. */
  function GetEnv(env: Env, name: string, default: string): (r: string)
    ensures name in env ==> r == env[name]
    ensures name !in env ==> r == default
  {
    if name in env then env[name] else default
  }

  /** An empty value is still a value: `require_env` returns it rather than raising. */
  lemma EmptyValueIsSet(env: Env, name: string)
    requires name in env && env[name] == ""
    ensures RequireEnv(env, name) == Ok("")
  {
  }

  /** The required names that are unset, in the order they are listed (repeats kept). */
  function Missing(env: Env, names: seq<string>): seq<string> {
    if names == [] then []
    else Missing(env, names[..|names| - 1]) + (if names[|names| - 1] in env then [] else [names[|names| - 1]])
  }

  /** The values of the required names that are set. */
  function Present(env: Env, names: seq<string>): map<string, string> {
    if names == [] then map[]
    else
      var last := names[|names| - 1];
      var init := Present(env, names[..|names| - 1]);
      if last in env then init[last := env[last]] else init
  }

  function MissingMessage(missing: seq<string>): string {
    "Missing required environment variables: " + Text.Join(missing, ", ") + ". Please check Lambda configuration in CDK stack."
  }

  /** The error lists every unset required name and no name that is set. */
  lemma {:induction false} MissingExactly(env: Env, names: seq<string>)
    ensures forall n :: n in Missing(env, names) <==> n in names && n !in env
  {
    if names != [] {
      var init := names[..|names| - 1];
      MissingExactly(env, init);
      assert names == init + [names[|names| - 1]];
    }
  }

  /** The map holds exactly the set names among the required ones, each with its value. */
  lemma {:induction false} PresentExactly(env: Env, names: seq<string>)
    ensures forall n :: n in Present(env, names) <==> n in names && n in env
    ensures forall n :: n in Present(env, names) ==> Present(env, names)[n] == env[n]
  {
    if names != [] {
      var init := names[..|names| - 1];
      PresentExactly(env, init);
      assert names == init + [names[|names| - 1]];
    }
  }

  /**
   * `validate_lambda_env`: look every name up, collecting the unset ones and
   * the values of the others; raise when any is unset.
   */
  method ValidateLambdaEnv(env: Env, required: seq<string>) returns (r: Result<map<string, string>, string>)
    ensures Missing(env, required) == [] ==> r == Ok(Present(env, required))
    ensures Missing(env, required) != [] ==> r == Err(MissingMessage(Missing(env, required)))
  {
    var missing: seq<string> := [];
    var values: map<string, string> := map[];
    var i := 0;
    while i < |required|
      invariant 0 <= i <= |required|
      invariant missing == Missing(env, required[..i])
      invariant values == Present(env, required[..i])
    {
      var name := required[i];
      assert required[..i + 1][..i] == required[..i];
      if name !in env {
        missing := missing + [name];
      } else {
        values := values[name := env[name]];
      }
      i := i + 1;
    }
    assert required[..i] == required;
    if missing != [] {
      return Err(MissingMessage(missing));
    }
    return Ok(values);
  }

  /** Validation succeeds exactly when every required name is set; the map it then returns is keyed by exactly those names. */
  lemma ValidateSucceedsIff(env: Env, required: seq<string>)
    ensures Missing(env, required) == [] <==> forall n :: n in required ==> n in env
  {
    MissingExactly(env, required);
    if Missing(env, required) != [] {
      var n := Missing(env, required)[0];
      assert n in Missing(env, required);
    }
  }

  lemma ValidateResult(env: Env, required: seq<string>)
    requires Missing(env, required) == []
    ensures Present(env, required).Keys == set n | n in required
    ensures forall n :: n in required ==> n in env && n in Present(env, required) && Present(env, required)[n] == env[n]
  {
    ValidateSucceedsIff(env, required);
    PresentExactly(env, required);
  }

  /** An empty list validates to an empty map. */
  lemma ValidateNothing(env: Env)
    ensures Missing(env, []) == [] && Present(env, []) == map[]
  {
  }
}
