/**
 * Run-mode inference of typescript-estree: decide whether the current execution is a
 * one-off "single run" (a CLI or CI invocation), for which no watch programs are
 * needed, or possibly a long-running session such as an editor integration.
 *
 * The ambient process state the source reads (`process.env`, `process.argv[1]` and the
 * host platform that `path.normalize` depends on) is passed in explicitly.
 */
module SingleRun {

  import opened Wrappers
  import opened Paths

  /** `process.env`: variable names to their string values; an absent key is `undefined`. */
  type Environment = map<string, string>

  /** The explicit override variable. */
  const SINGLE_RUN_VARIABLE: string := "TSESTREE_SINGLE_RUN"

  /** The variable most CI providers set to `true`. */
  const CI_VARIABLE: string := "CI"

  /** `process.env[name]`, with names compared exactly. */
  function Lookup(env: Environment, name: string): (r: Option<string>)
    ensures r == None <==> name !in env
    ensures r.Some? ==> env[name] == r.value
  {
    if name in env then Some(env[name]) else None
  }

  /** The one field of the parser options that the decision reads. */
  datatype TSESTreeOptions = TSESTreeOptions(allowAutomaticSingleRunInference: Option<bool>)

  /**
   * `options?.allowAutomaticSingleRunInference` taken as a condition: missing options,
   * a missing field and `false` all leave automatic inference switched off.
   */
  function AutomaticInferenceAllowed(options: Option<TSESTreeOptions>): (r: bool)
    ensures r <==> options == Some(TSESTreeOptions(Some(true)))
  {
    match options
    case None => false
    case Some(o) =>
      match o.allowAutomaticSingleRunInference
      case None => false
      case Some(allow) => allow
  }

  /** `argv[1]` is the locally installed ESLint binary (`npx eslint`, `./node_modules/.bin/eslint`). */
  predicate InvokedThroughLocalEslint(argv1: string, platform: Platform): (r: bool)
    ensures platform == Posix ==> (r <==> EndsWith(argv1, ESLINT_BIN_PATH))
    ensures platform == Win32 ==> (r <==> EndsWith(argv1, ESLINT_BIN_PATH_WIN32))
  {
    EndsWith(argv1, NormalizedEslintBin(platform))
  }

  /** The decision, with the source's early returns in the source's order. */
  function InferSingleRun(options: Option<TSESTreeOptions>, env: Environment, argv1: string, platform: Platform): (r: bool)
    ensures r == FirstMatch(Checks(options, env, argv1, platform), false)
  {
    FirstMatchOfFour(Checks(options, env, argv1, platform), false);
    if Lookup(env, SINGLE_RUN_VARIABLE) == Some("false") then
      false
    else if Lookup(env, SINGLE_RUN_VARIABLE) == Some("true") then
      true
    else if AutomaticInferenceAllowed(options) &&
            (Lookup(env, CI_VARIABLE) == Some("true") || InvokedThroughLocalEslint(argv1, platform)) then
      true
    else
      // By default the run may be part of a long-running session.
      false
  }

  // ---------------------------------------------------------------------------
  // Reference semantics: an ordered list of checks, the first that applies decides.
  // ---------------------------------------------------------------------------

  /** One rule of a priority-ordered decision: if `applies`, the answer is `verdict`. */
  datatype Check = Check(applies: bool, verdict: bool)

  /**
   * The first applicable check decides; if none applies the answer is `default`.
   * Either way the answer is the default or the verdict of a check that applies.
   */
  function FirstMatch(checks: seq<Check>, default: bool): (r: bool)
    ensures r == default || exists k :: 0 <= k < |checks| && checks[k].applies && checks[k].verdict == r
  {
    if checks == [] then default
    else if checks[0].applies then checks[0].verdict
    else FirstMatch(checks[1..], default)
  }

  /** The rules of the run-mode decision, highest priority first. */
  function Checks(options: Option<TSESTreeOptions>, env: Environment, argv1: string, platform: Platform): (r: seq<Check>)
    ensures |r| == 4
    // the override checks come first: `false` wins over `true` and never both apply
    ensures !r[0].verdict && r[1].verdict && !(r[0].applies && r[1].applies)
    // the automatic checks can only say "single run", and only under the opt-in flag
    ensures r[2].verdict && r[3].verdict
    ensures (r[2].applies || r[3].applies) ==> options == Some(TSESTreeOptions(Some(true)))
  {
    var allowed := AutomaticInferenceAllowed(options);
    [ Check(Lookup(env, SINGLE_RUN_VARIABLE) == Some("false"), false),
      Check(Lookup(env, SINGLE_RUN_VARIABLE) == Some("true"), true),
      Check(allowed && Lookup(env, CI_VARIABLE) == Some("true"), true),
      Check(allowed && InvokedThroughLocalEslint(argv1, platform), true) ]
  }

  /** If check `k` applies and no earlier one does, check `k` decides. */
  lemma {:induction false} FirstMatchAt(checks: seq<Check>, default: bool, k: nat)
    requires k < |checks| && checks[k].applies
    requires forall j :: 0 <= j < k ==> !checks[j].applies
    ensures FirstMatch(checks, default) == checks[k].verdict
  {
    if k > 0 {
      assert !checks[0].applies;
      FirstMatchAt(checks[1..], default, k - 1);
    }
  }

  /** If no check applies, the default decides (immediate from `FirstMatch`'s contract). */
  lemma FirstMatchNone(checks: seq<Check>, default: bool)
    requires forall j :: 0 <= j < |checks| ==> !checks[j].applies
    ensures FirstMatch(checks, default) == default
  {
  }

  /** FirstMatch over four checks, unfolded. */
  lemma FirstMatchOfFour(checks: seq<Check>, default: bool)
    requires |checks| == 4
    ensures FirstMatch(checks, default) ==
      if checks[0].applies then checks[0].verdict
      else if checks[1].applies then checks[1].verdict
      else if checks[2].applies then checks[2].verdict
      else if checks[3].applies then checks[3].verdict
      else default
  {
    if !checks[0].applies && !checks[1].applies && !checks[2].applies && !checks[3].applies {
      FirstMatchNone(checks, default);
    } else if !checks[0].applies {
      var k := if checks[1].applies then 1 else if checks[2].applies then 2 else 3;
      FirstMatchAt(checks, default, k);
    }
  }

  // ---------------------------------------------------------------------------
  // Properties of the decision
  // ---------------------------------------------------------------------------

  /** `TSESTREE_SINGLE_RUN=false` forces a long-running session, whatever else holds. */
  lemma OverrideFalseWins(options: Option<TSESTreeOptions>, env: Environment, argv1: string, platform: Platform)
    requires Lookup(env, SINGLE_RUN_VARIABLE) == Some("false")
    ensures !InferSingleRun(options, env, argv1, platform)
  {
  }

  /** `TSESTREE_SINGLE_RUN=true` forces a single run, even without the opt-in flag. */
  lemma OverrideTrueWins(options: Option<TSESTreeOptions>, env: Environment, argv1: string, platform: Platform)
    requires Lookup(env, SINGLE_RUN_VARIABLE) == Some("true")
    ensures InferSingleRun(options, env, argv1, platform)
  {
  }

  /** The override is given a value other than `true`/`false`, or not given at all. */
  predicate NoOverride(env: Environment): (r: bool)
    ensures r <==> SINGLE_RUN_VARIABLE !in env || env[SINGLE_RUN_VARIABLE] !in {"true", "false"}
  {
    Lookup(env, SINGLE_RUN_VARIABLE) != Some("false") && Lookup(env, SINGLE_RUN_VARIABLE) != Some("true")
  }

  /** Automatic inference is opt-in: without the flag, no `CI` value or binary path makes it a single run. */
  lemma AutomaticInferenceIsOptIn(options: Option<TSESTreeOptions>, env: Environment, argv1: string, platform: Platform)
    requires NoOverride(env)
    requires !AutomaticInferenceAllowed(options)
    ensures !InferSingleRun(options, env, argv1, platform)
  {
  }

  /** With the flag and no override, `CI=true` makes it a single run. */
  lemma CiImpliesSingleRun(options: Option<TSESTreeOptions>, env: Environment, argv1: string, platform: Platform)
    requires NoOverride(env) && AutomaticInferenceAllowed(options)
    requires Lookup(env, CI_VARIABLE) == Some("true")
    ensures InferSingleRun(options, env, argv1, platform)
  {
  }

  /** With the flag and no override, running the local ESLint binary makes it a single run. */
  lemma LocalEslintImpliesSingleRun(options: Option<TSESTreeOptions>, env: Environment, argv1: string, platform: Platform)
    requires NoOverride(env) && AutomaticInferenceAllowed(options)
    requires InvokedThroughLocalEslint(argv1, platform)
    ensures InferSingleRun(options, env, argv1, platform)
  {
  }

  /** In particular, any path that is some prefix followed by the normalised binary path qualifies. */
  lemma AnyPrefixedLocalEslintIsSingleRun(options: Option<TSESTreeOptions>, env: Environment, prefix: string, platform: Platform)
    requires NoOverride(env) && AutomaticInferenceAllowed(options)
    ensures InferSingleRun(options, env, prefix + NormalizedEslintBin(platform), platform)
  {
  }

  /** With the flag and no override, neither `CI=true` nor the local binary means a long-running session. */
  lemma NoSignalFallsThrough(options: Option<TSESTreeOptions>, env: Environment, argv1: string, platform: Platform)
    requires NoOverride(env) && AutomaticInferenceAllowed(options)
    requires Lookup(env, CI_VARIABLE) != Some("true")
    requires !InvokedThroughLocalEslint(argv1, platform)
    ensures !InferSingleRun(options, env, argv1, platform)
  {
  }

  /** The whole decision as one formula. */
  lemma Characterisation(options: Option<TSESTreeOptions>, env: Environment, argv1: string, platform: Platform)
    ensures InferSingleRun(options, env, argv1, platform) <==>
      Lookup(env, SINGLE_RUN_VARIABLE) == Some("true") ||
      (Lookup(env, SINGLE_RUN_VARIABLE) != Some("false") &&
       options == Some(TSESTreeOptions(Some(true))) &&
       (Lookup(env, CI_VARIABLE) == Some("true") || EndsWith(argv1, NormalizedEslintBin(platform))))
  {
  }

  /** The decision reads no environment variable other than the override and `CI`. */
  lemma ReadsOnlyTwoVariables(options: Option<TSESTreeOptions>, env1: Environment, env2: Environment, argv1: string, platform: Platform)
    requires Lookup(env1, SINGLE_RUN_VARIABLE) == Lookup(env2, SINGLE_RUN_VARIABLE)
    requires Lookup(env1, CI_VARIABLE) == Lookup(env2, CI_VARIABLE)
    ensures InferSingleRun(options, env1, argv1, platform) == InferSingleRun(options, env2, argv1, platform)
  {
  }

  /**
   * Comparisons are exact and case-sensitive: an override value other than `true` or
   * `false` (such as `TRUE`, `1` or the empty string) acts as if the variable were unset.
   */
  lemma UnrecognisedOverrideIsIgnored(options: Option<TSESTreeOptions>, env: Environment, value: string, argv1: string, platform: Platform)
    requires value != "true" && value != "false"
    ensures InferSingleRun(options, env[SINGLE_RUN_VARIABLE := value], argv1, platform) ==
            InferSingleRun(options, env - {SINGLE_RUN_VARIABLE}, argv1, platform)
  {
  }

  /** Likewise a `CI` value other than exactly `true` acts as if `CI` were unset. */
  lemma UnrecognisedCiIsIgnored(options: Option<TSESTreeOptions>, env: Environment, value: string, argv1: string, platform: Platform)
    requires value != "true"
    ensures InferSingleRun(options, env[CI_VARIABLE := value], argv1, platform) ==
            InferSingleRun(options, env - {CI_VARIABLE}, argv1, platform)
  {
  }

  /** Worked scenarios. */
  lemma Scenarios()
    // Nothing set, options absent, a globally installed binary: long-running by default.
    ensures !InferSingleRun(None, map[], "/usr/local/bin/eslint", Posix)
    // Even with the flag, a globally installed binary is not the local one.
    ensures !InferSingleRun(Some(TSESTreeOptions(Some(true))), map[], "/usr/local/bin/eslint", Posix)
    // The override alone suffices.
    ensures InferSingleRun(None, map[SINGLE_RUN_VARIABLE := "true"], "/usr/local/bin/eslint", Posix)
    // CI with the flag.
    ensures InferSingleRun(Some(TSESTreeOptions(Some(true))), map[CI_VARIABLE := "true"], "", Win32)
    // The override beats CI.
    ensures !InferSingleRun(Some(TSESTreeOptions(Some(true))), map[SINGLE_RUN_VARIABLE := "false", CI_VARIABLE := "true"], "", Posix)
  {
  }
}
