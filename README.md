# Run-mode inference of typescript-estree, in Dafny

typescript-estree needs to know whether it is part of a one-off "single run", such as an
ESLint CLI invocation or a CI job, or of a possibly long-running session, such as an editor
integration. In a long-running session it has to maintain TypeScript watch programs, which
is expensive. `inferSingleRun` makes that decision from three signals, checked in a fixed
priority order where the first match wins:

1. the environment variable `TSESTREE_SINGLE_RUN` set to exactly `false` gives false;
2. the same variable set to exactly `true` gives true;
3. only if the parser option `allowAutomaticSingleRunInference` is true: `CI` set to exactly
   `true`, or `argv[1]` ending with the platform-normalised path `node_modules/.bin/eslint`,
   gives true;
4. otherwise the result is false.

The model is pure, as the source is:

- `wrappers.dfy` (module `Wrappers`): `Option`, for JavaScript values that may be `undefined`.
- `paths.dfy` (module `Paths`): the host `Platform` (`Posix` or `Win32`); separator
  normalisation of a path (`WithSeparators`); the normalised binary path
  `NormalizedEslintBin`; and `EndsWith`, the case-sensitive suffix test.
- `infer_single_run.dfy` (module `SingleRun`): the environment as a `map<string, string>`,
  the options record, the decision `InferSingleRun`, and its properties. `InferSingleRun`
  is written as the source's chain of early returns. Its contract ties it to a
  first-match-wins reading of the same decision: `FirstMatch` over the ordered list of
  `Checks`, in which the first applicable check decides and the default is false. The
  answer for every input is stated by `Characterisation` and the property lemmas.

Ambient host state is passed in as parameters. `process.env` becomes `env`, `process.argv[1]`
becomes `argv1`, and the platform that `path.normalize` depends on becomes `platform`.

## Model

| member | source | states |
|---|---|---|
| `SingleRun.InferSingleRun` | packages/typescript-estree/src/parseSettings/inferSingleRun.ts:17-46 | the if-chain of early returns gives the same answer as a first-match-wins evaluation of the four checks in source order, with false as the default. The checks restate the source conditions as a list. The full answer for every input is stated by `SingleRun.Characterisation` and the property lemmas |
| `SingleRun.Lookup` | packages/typescript-estree/src/parseSettings/inferSingleRun.ts:19-30 | reading `process.env.X` gives `undefined` exactly when the variable is unset, and otherwise gives its value. Names are compared exactly (see "Left out") |
| `SingleRun.InvokedThroughLocalEslint` | packages/typescript-estree/src/parseSettings/inferSingleRun.ts:32 | `argv[1].endsWith(normalize('node_modules/.bin/eslint'))`: on POSIX, whether `argv[1]` ends with `node_modules/.bin/eslint`; on Windows, whether it ends with `node_modules\.bin\eslint` |
| `SingleRun.NoOverride` | packages/typescript-estree/src/parseSettings/inferSingleRun.ts:19-24 | the override applies neither way exactly when `TSESTREE_SINGLE_RUN` is unset or holds a value other than `true` and `false` |
| `SingleRun.Checks` | packages/typescript-estree/src/parseSettings/inferSingleRun.ts:19-35 | the four checks in priority order. Only the first says "not a single run"; the two override checks never both apply; the two automatic checks apply only when the opt-in flag is true |
| `SingleRun.FirstMatch` | packages/typescript-estree/src/parseSettings/inferSingleRun.ts:19-45 | a priority-ordered decision gives either the default or the verdict of some check that applies |
| `SingleRun.AutomaticInferenceAllowed` | packages/typescript-estree/src/parseSettings/inferSingleRun.ts:27 | `options?.allowAutomaticSingleRunInference` holds exactly when the options are present and the field is present and true; absent options, an absent field and false all disable inference |
| `SingleRun.FirstMatchAt` | packages/typescript-estree/src/parseSettings/inferSingleRun.ts:19-35 | in a priority-ordered decision, a check that applies while no earlier one does decides the result |
| `SingleRun.FirstMatchNone` | packages/typescript-estree/src/parseSettings/inferSingleRun.ts:45 | when no check applies, the default decides |
| `SingleRun.FirstMatchOfFour` | packages/typescript-estree/src/parseSettings/inferSingleRun.ts:17-46 | first-match over four checks is the nested if-then-else over them in order |
| `SingleRun.OverrideFalseWins` | packages/typescript-estree/src/parseSettings/inferSingleRun.ts:19-21 | `TSESTREE_SINGLE_RUN=false` gives false for every options value, environment, `argv[1]` and platform |
| `SingleRun.OverrideTrueWins` | packages/typescript-estree/src/parseSettings/inferSingleRun.ts:22-24 | `TSESTREE_SINGLE_RUN=true` gives true for every options value, including absent options, and every `CI`, `argv[1]` and platform |
| `SingleRun.AutomaticInferenceIsOptIn` | packages/typescript-estree/src/parseSettings/inferSingleRun.ts:26-45 | with no applicable override and inference not enabled, the result is false whatever `CI` and `argv[1]` are |
| `SingleRun.CiImpliesSingleRun` | packages/typescript-estree/src/parseSettings/inferSingleRun.ts:27-34 | with no applicable override and inference enabled, `CI=true` gives true |
| `SingleRun.LocalEslintImpliesSingleRun` | packages/typescript-estree/src/parseSettings/inferSingleRun.ts:27-34 | with no applicable override and inference enabled, an `argv[1]` ending with the normalised binary path gives true |
| `SingleRun.AnyPrefixedLocalEslintIsSingleRun` | packages/typescript-estree/src/parseSettings/inferSingleRun.ts:31-34 | with no applicable override and inference enabled, every `prefix + normalize('node_modules/.bin/eslint')` gives true |
| `SingleRun.NoSignalFallsThrough` | packages/typescript-estree/src/parseSettings/inferSingleRun.ts:27-45 | with no applicable override and inference enabled, `CI` other than `true` and an `argv[1]` without the suffix give false |
| `SingleRun.Characterisation` | packages/typescript-estree/src/parseSettings/inferSingleRun.ts:17-46 | the result is true if and only if the override is `true`, or the override is not `false`, the flag is true and (`CI` is `true` or `argv[1]` has the suffix) |
| `SingleRun.ReadsOnlyTwoVariables` | packages/typescript-estree/src/parseSettings/inferSingleRun.ts:19-30 | two environments that agree on `TSESTREE_SINGLE_RUN` and `CI` give the same result |
| `SingleRun.UnrecognisedOverrideIsIgnored` | packages/typescript-estree/src/parseSettings/inferSingleRun.ts:19-24 | an override value other than exactly `true` or `false` (`TRUE`, `1`, the empty string) gives the same result as an unset override |
| `SingleRun.UnrecognisedCiIsIgnored` | packages/typescript-estree/src/parseSettings/inferSingleRun.ts:30 | a `CI` value other than exactly `true` gives the same result as an unset `CI` |
| `SingleRun.Scenarios` | packages/typescript-estree/src/parseSettings/inferSingleRun.ts:17-46 | worked cases: the default is false, a global `/usr/local/bin/eslint` is not recognised even with the flag, the override alone suffices, CI with the flag gives true, and the false override beats CI |
| `Paths.WithSeparators` | packages/typescript-estree/src/parseSettings/inferSingleRun.ts:32 | separator normalisation keeps the length of the path |
| `Paths.WithSeparatorsAt` | packages/typescript-estree/src/parseSettings/inferSingleRun.ts:32 | position by position, `/` becomes the platform's separator and every other character is kept |
| `Paths.WithSeparatorsAppend` | packages/typescript-estree/src/parseSettings/inferSingleRun.ts:32 | normalisation distributes over concatenation |
| `Paths.WithSeparatorsKeepsSegment` | packages/typescript-estree/src/parseSettings/inferSingleRun.ts:32 | a segment without `/` is not changed by normalisation |
| `Paths.JoinedSegments` | packages/typescript-estree/src/parseSettings/inferSingleRun.ts:32 | normalising `a/b/c` of separator-free segments joins them with the platform's separator |
| `Paths.NormalizedEslintBin` | packages/typescript-estree/src/parseSettings/inferSingleRun.ts:32 | `normalize('node_modules/.bin/eslint')` is the literal itself on POSIX and `node_modules\.bin\eslint` on Windows |
| `Paths.NormalizedEslintBinIsNormalization` | packages/typescript-estree/src/parseSettings/inferSingleRun.ts:32 | the suffix the decision compares with is the normalisation of the literal `node_modules/.bin/eslint` |
| `Paths.EndsWith` | packages/typescript-estree/src/parseSettings/inferSingleRun.ts:32 | `s.endsWith(suffix)` holds exactly when the suffix is no longer than `s` and matches the last characters of `s` one by one, with case-sensitive comparison |
| `Paths.EndsWithAppend` | packages/typescript-estree/src/parseSettings/inferSingleRun.ts:32 | any prefix followed by a suffix ends with that suffix |
| `Paths.EndsWithSplits` | packages/typescript-estree/src/parseSettings/inferSingleRun.ts:32 | a string that ends with a suffix is a prefix of it followed by the suffix |
| `Paths.PosixSpellingMissesWin32Suffix` | packages/typescript-estree/src/parseSettings/inferSingleRun.ts:32 | the suffix test is separator-sensitive: on Windows a path spelled `.../node_modules/.bin/eslint` with `/` separators does not match |

## Left out

- Reading `process.env` and `process.argv`: these are host state. The model takes the
  environment, `argv[1]` and the platform as parameters.
- `SingleRun.Lookup` compares environment variable names exactly. On Windows, Node's
  `process.env` ignores the case of names, so a variable named `ci` would be found as `CI`.
  The model assumes that `env` holds the variables under the spellings the source uses
  (`TSESTREE_SINGLE_RUN`, `CI`). `SingleRun.ReadsOnlyTwoVariables`,
  `SingleRun.UnrecognisedOverrideIsIgnored` and `SingleRun.UnrecognisedCiIsIgnored` therefore
  speak of those exact names. For a Windows environment that spells a name in another case,
  the model answers as if that variable were unset.
- A missing `argv[1]`: at line 32 `.endsWith` on `undefined` would throw. That happens only
  when the flag is set and `CI` is not `true`. The model takes `argv1` as a string, so it
  assumes `argv[1]` is present and does not model the exception.
- `path.normalize` in general: only separator substitution is modelled. Node also resolves
  `.` and `..` segments and collapses repeated separators, but the one literal it is applied
  to here contains none of those.
- The other fields of `TSESTreeOptions`: the decision reads only
  `allowAutomaticSingleRunInference`. A non-boolean value in that field, which JavaScript
  truthiness would accept, is outside the declared type and is not modelled.
- The caller's management of watch programs, described in the doc comment at lines 10-13:
  that code is not part of this model.
