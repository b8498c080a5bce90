# Release helper model

A Dafny model of the release helper that a CI job prepends to its script
(`shared_platform/index.js`). The helper decides a version for the
repository and then drives the release side effects: a git tag, a hosted
release, a container image build and push, and a deployment trigger in
another repository.

The model is split the way the code is:

- `text.dfy` (module `Text`): the JavaScript string built-ins the code
  relies on — `trim`, `split`, `join`, `toUpperCase`, `${n}` for numbers
  and the string-to-number coercion behind `>`. `ReplaceAll` stands for
  both `replaceAll` with a one-character pattern and `replace` with a
  global one-character regular expression (`name.replace(/ /g, '_')`).
- `inputs.dfy` (module `Inputs`): `getInput` over an environment map.
- `versions.dfy` (module `Versions`): `Version` with its two tag renderings,
  and `Image` with `asTags`. A version field is a `Component`: a number, a
  string (what `split` produces) or `undefined` (what indexing past the end
  of a `split` result produces). `build > 0` is JavaScript's comparison
  after conversion to a number.
- `resolution.dfy` (module `Resolution`): the parse of the `git describe`
  line, the manifest extraction and the `getPackageVersion` cascade. The
  cascade is a method with a loop over the strategies' outcomes, like the
  source's `for … of` with early return.
- `effects.dfy` (module `Effects`): the external calls as `Request` values
  and the host's `Response`.
- `release.dfy` (module `Release`): the `Orchestrator` class. Its `requests`
  field is the trace of external calls, oldest first. Its `respond`
  function gives the host's answer to the request at each trace position.
  Every method's postcondition states the requests it appends without
  mentioning `respond`, so no failure ever stops a later request.
- `scenarios.dfy` (module `Scenarios`): whole runs against hosts that
  answer in given ways.
- `wrappers.dfy` (module `Wrappers`): `Option` and `Result`.

Where a JavaScript function throws or returns `null`, the model returns a
`Result` or an `Option`. The shell, the release-hosting service and the
deployment service are not modelled: they are the `respond` function.
The repository owner, name and commit come from a `Context` value. File
contents come in as optional version strings.

Three facts about the code shape the model:

- Version fields are whatever `split` returns: strings, or `undefined`
  when there are too few pieces. The numbers are the fallback 0.0.1, the
  build 0 of a manifest version, and the constructor's default build 0
  when a describe line has no third field (an exact tag such as `1.4`).
- The three deployment `getInput` calls sit inside the `try` of
  `dispatchDeploymentWorkflow`, so a missing deployment setting makes the
  step issue no request rather than stop the run.
- `getGitVersion` (tag history) and `getPackageVersion` (manifests) are
  two independent entry points; nothing in the code combines them.

## Model

| member | source | states |
|---|---|---|
| `Text.Trim` | shared_platform/index.js:45 | the result is an infix of the input with no whitespace at either end, and everything cut off on both sides is whitespace |
| `Text.TrimIdempotent` | shared_platform/index.js:45 | trimming twice is trimming once |
| `Text.ReplaceAll` | shared_platform/index.js:54 | same length; each occurrence of the pattern character is replaced, every other character is kept |
| `Text.Split` | shared_platform/index.js:54 | a split always has at least one piece |
| `Text.Join` | shared_platform/index.js:175 | `parts.join(sep)`: the pieces with the separator between consecutive ones; `Text.JoinSplit` characterises it as the inverse of `Split` |
| `Text.JoinSplit` | shared_platform/index.js:54 | joining the pieces of a split with the separator gives back the input |
| `Text.SplitPiecesFree` | shared_platform/index.js:54 | no piece of a split contains the separator |
| `Text.SplitAfter` | shared_platform/index.js:54 | a separator-free prefix followed by the separator is the first piece, and the rest splits on its own |
| `Text.ToNumber` | shared_platform/index.js:25 | `Number(s)` for blank and digit strings; `Text.ToNumberOfDigits` and `Text.ToNumberOfRendering` characterise it |
| `Text.ToNumberOfDigits` | shared_platform/index.js:25 | a non-empty digit string converts to its value, leading zeros included |
| `Text.DigitsValuePositive` | shared_platform/index.js:25 | a digit string has a positive value exactly when one of its digits is not `0` |
| `Text.ToUpper` | shared_platform/index.js:41 | same length, each ASCII letter upper-cased, everything else kept |
| `Text.NatToStringRoundTrip` | shared_platform/index.js:9 | reading back the decimal rendering of a number gives the number |
| `Text.ToNumberOfRendering` | shared_platform/index.js:25 | converting a decimal rendering back to a number gives the number |
| `Inputs.InputKey` | shared_platform/index.js:41 | the variable is `INPUT_` followed by the name with spaces turned into `_` and letters upper-cased |
| `Inputs.GetInput` | shared_platform/index.js:40-46 | fails exactly when the input is required (the default) and its variable is missing or empty, with message `Input required and not supplied: <name>`; otherwise returns the value trimmed |
| `Inputs.GetInputTrimmed` | shared_platform/index.js:45 | a value read successfully has no whitespace at either end |
| `Inputs.WhitespaceOnlyInputPasses` | shared_platform/index.js:42-45 | a required input holding only whitespace passes the check (made before trimming) and reads as `""` |
| `Inputs.MissingOptionalInput` | shared_platform/index.js:41-45 | an optional input that is absent reads as `""` |
| `Inputs.InputKeyNormalises` | shared_platform/index.js:41 | a name and its upper-cased, underscored form read the same variable |
| `Versions.Render` | shared_platform/index.js:8-14 | `${c}`: a number renders as decimal digits whose value is the number, a string as itself, `undefined` as the word `undefined` |
| `Versions.IsPositive` | shared_platform/index.js:25 | `build > 0` after conversion to a number; `Versions.IsPositiveOfRendering` and `Versions.StringBuildPositive` characterise it |
| `Versions.StringBuildPositive` | shared_platform/index.js:25 | a digit-string build compares greater than 0 exactly when one of its digits is not `0` (`"007"` does, `"000"` does not) |
| `Versions.NewVersion` | shared_platform/index.js:2-6 | `new Version(major, minor, build)` keeps major and minor, and an `undefined` build becomes the default 0 |
| `Versions.Version.MinorTag` | shared_platform/index.js:12-14 | `asMinorTag()`, `major.minor`; `Versions.FullTagExtendsMinorTag` and `Versions.NumericTags` characterise it |
| `Versions.Version.FullTag` | shared_platform/index.js:8-10 | `asFullTag()`, `major.minor.build`; `Versions.FullTagExtendsMinorTag`, `Versions.NumericTags` and `Versions.FullTagSplitsBack` characterise it |
| `Versions.IsPositiveOfRendering` | shared_platform/index.js:25 | a build held as a decimal string compares with 0 the way the number does |
| `Versions.FullTagExtendsMinorTag` | shared_platform/index.js:8-14 | the full tag is the minor tag followed by `.` and the build, so the two always differ |
| `Versions.NumericTags` | shared_platform/index.js:8-14 | with numeric fields the minor tag is `major.minor` and the full tag `major.minor.build`, in decimal |
| `Versions.FullTagSplitsBack` | shared_platform/index.js:8-10 | splitting a numeric full tag on `.` gives back the three decimal fields, whose values are the numbers |
| `Versions.Image.AsTags` | shared_platform/index.js:23-29 | the first tag is always `registry/name:major.minor`; there is a second tag, `registry/name:major.minor.build`, exactly when the build compares greater than 0; there is never a third |
| `Versions.AsTagsDistinct` | shared_platform/index.js:23-29 | the tags of an image are pairwise different |
| `Versions.NewImage` | shared_platform/index.js:18-21 | an explicit non-empty registry is used; otherwise the registry is the `docker-repository` input, and the construction fails exactly when that input is missing or empty |
| `Resolution.DescribeFields` | shared_platform/index.js:54 | the fields of the describe line are at least one, and none contains `.` or `-` |
| `Resolution.FieldAt` | shared_platform/index.js:55 | `fields[i]` of a `split` result, `undefined` past its end; `Resolution.DescribeExactTag` and `Resolution.OneComponentManifest` show the `undefined` case |
| `Resolution.ParseDescribe` | shared_platform/index.js:54-55 | the parse of the describe output: a string major, a build that is the third field as a string when there is one and the number 0 otherwise, and no field holding `.` or `-` |
| `Resolution.GitVersion` | shared_platform/index.js:48-60 | a failed describe query gives version 0.0.1; a completed one gives a version with a string major and a defined build |
| `Resolution.DescribeWithDistance` | shared_platform/index.js:54-55 | output `<major>.<minor>-<distance>-g<hash>` plus a line feed parses to major, minor and the commit distance as build |
| `Resolution.DescribeExactTag` | shared_platform/index.js:2 | output naming the tag itself, with no distance, parses to major and minor with the build defaulting to 0 |
| `Resolution.ManifestKeepsMajorMinor` | shared_platform/index.js:84-86 | a manifest version `<major>.<minor>` with or without more components gives major and minor and build 0, the patch being dropped |
| `Resolution.OneComponentManifest` | shared_platform/index.js:84-86 | a one-component manifest version leaves minor `undefined`, and the minor tag reads `<major>.undefined` |
| `Resolution.ManifestVersion` | shared_platform/index.js:84-86 | a string major without `.`, build 0, and minor `undefined` exactly when the version string has no `.` |
| `Resolution.ManifestStrategy` | shared_platform/index.js:79-110 | a strategy yields a version exactly when the version field could be read, and that version has build 0 |
| `Resolution.GetPackageVersion` | shared_platform/index.js:112-134 | succeeds exactly when some strategy returned a version, and then returns the first such version, strategies that threw or returned `null` being passed over; otherwise fails with `Could not determine package version` |
| `Resolution.ResolvePackageVersion` | shared_platform/index.js:116-133 | the Node package version wins when present; the Poetry version is used only when the Node one is absent; with neither the resolution fails |
| `Release.TagRequest` | shared_platform/index.js:136-149 | the `createRef` of `createGithubTag`; `Release.Orchestrator.CreateGithubTag` states it |
| `Release.ReleaseRequest` | shared_platform/index.js:151-170 | the `createRelease` of `createGithubRelease`; `Release.Orchestrator.CreateGithubRelease` states it |
| `Release.BuildCommand` | shared_platform/index.js:172-177 | `docker build . ` and the `-t "<tag>"` parameters joined by spaces; `Release.BuildCommandOfImage` and `Scenarios.TwoTagRequests` characterise it |
| `Release.PushRequests` | shared_platform/index.js:187-194 | one `docker push <tag>` per tag, in the order of the tags |
| `Release.BuildCommandOfImage` | shared_platform/index.js:175-177 | the build command for an image's tags is `docker build . -t "<minor ref>"`, followed by ` -t "<full ref>"` exactly when the build is positive |
| `Release.GetDeploymentTarget` | shared_platform/index.js:210-213 | succeeds exactly when all three deployment inputs can be read, and then carries their values; a missing repository input gives that input's error |
| `Release.DispatchRequests` | shared_platform/index.js:203-227 | at most one request; one exactly when the deployment configuration is complete, and then a workflow dispatch in the configured repository, workflow and reference, naming this repository and the full tag |
| `Release.Orchestrator.Issue` | shared_platform/index.js:32-38 | a call is appended to the trace and answered by the host for its position |
| `Release.Orchestrator.ResolveGitVersion` | shared_platform/index.js:48-60 | exactly one request, the describe query; the version is the parse of its output, or 0.0.1 when it failed |
| `Release.Orchestrator.CreateGithubTag` | shared_platform/index.js:136-149 | exactly one `createRef` of `refs/tags/<full or minor tag>` at the current commit, the minor tag by default |
| `Release.Orchestrator.CreateGithubRelease` | shared_platform/index.js:151-170 | the full tag's `createRef`, then `createRelease` named `Automatic release <full tag>` at that tag, not a draft, not a prerelease, with generated notes, whatever the first call answered |
| `Release.Orchestrator.BuildDockerImage` | shared_platform/index.js:172-182 | exactly one request, the build command with every tag |
| `Release.Orchestrator.PushDockerImage` | shared_platform/index.js:184-195 | exactly the pushes of the tags, in order, whatever each push answered |
| `Release.Orchestrator.ReleaseDocker` | shared_platform/index.js:197-201 | the build with the image's tags, then the pushes of the same tags, the pushes issued even when the build failed |
| `Release.Orchestrator.DispatchDeploymentWorkflow` | shared_platform/index.js:203-227 | appends exactly the deployment requests: none when the configuration is incomplete, otherwise the one dispatch |
| `Scenarios.DescribedVersion` | shared_platform/index.js:54-55 | `1.4-7-gabc123` parses to (1, 4, 7) |
| `Scenarios.DescribedVersionTags` | shared_platform/index.js:23-29 | version (1, 4, 7) of image `api` in registry `reg` has tags `reg/api:1.4` and `reg/api:1.4.7` |
| `Scenarios.FallbackVersionTags` | shared_platform/index.js:58 | the fallback 0.0.1 has tags `reg/api:0.0` and `reg/api:0.0.1` |
| `Scenarios.TwoTagRequests` | shared_platform/index.js:175-194 | releasing two tags builds once with both `-t` parameters, then pushes each tag |
| `Scenarios.DescribedRelease` | shared_platform/index.js:197-201 | with the describe query answering `1.4-7-gabc123` and every docker command failing, the query, the build and both pushes are requested, in that order |
| `Scenarios.ReleaseWithoutTagHistory` | shared_platform/index.js:56-59 | with every call failing, the version is 0.0.1 and its build and both pushes are still requested |
| `Scenarios.ReleaseAfterFailedTag` | shared_platform/index.js:151-170 | with the tag request failing, the release request is still made, at the tag the failed request named |
| `Scenarios.ReleaseIndependentOfLaterAnswers` | shared_platform/index.js:136-227 | two hosts that give the same answer to the describe query see the same requests of a whole release run, whatever they answer to every later call; the run issues 4 requests plus one per tag plus the dispatches |
| `Scenarios.Run` | shared_platform/index.js:48-227 | a whole run (tag resolution, release, image, deployment) issues the describe query, the tag and release requests, the build, the pushes and the dispatch, each depending only on the version parsed from the describe answer |
| `Scenarios.DescribeAnswerMatters` | shared_platform/index.js:48-60 | the describe answer does change the requests: a failed query and `1.4-7-gabc123` give different image tags |

## Left out

- `run_shell` (shared_platform/index.js:32-38) is not run: a command is a `Shell` request, and its output or failure comes from the host's `respond` function.
- The `github.rest.*` clients and `context` are host objects: requests become values in the trace, and owner, repository and commit are a `Context`.
- `_getToml` (shared_platform/index.js:62-77) loads a module at run time and may shell out to `npm install toml`. That command is not in the trace. Its only effect on the cascade is that the Poetry strategy yields `null`, and `ManifestStrategy(None)` covers that.
- JSON and TOML parsing and file reads are I/O. Each manifest's version is an `Option<string>`, `None` when the file or the field is missing, unreadable or not a string.
- `console.log` and `console.error` are observability only and are not modelled.
- `async`/`await`: the calls are strictly sequential and are modelled as ordinary sequential calls.
- The tag selection of the describe query (its `--match`/`--exclude` glob patterns) belongs to git. Only the text of the command is modelled, not which tag git picks.
- `dist/index.js` is host plumbing that prepends the helper's source to the user script; dist/index.js is not part of this model.
- Text.ToNumber: JavaScript's string-to-number conversion is modelled for empty, whitespace and decimal-digit strings. Strings with a sign, fraction, exponent, `0x`/`0o`/`0b` prefix or `Infinity` count as NaN here. A describe field never contains `.` or `-`, and a commit distance is digits, so these forms do not arise from the describe query.
- Versions.IsPositive: inherits the conversion gap of `Text.ToNumber` described on the line above.
- Text.ToUpper: upper-cases ASCII letters only; JavaScript's full Unicode case mapping is not modelled. The input names the helper reads are ASCII.
- Versions.Render: a `Num` field is an unbounded natural rendered in plain decimal. JavaScript switches `${n}` to exponent form from 10^21 upward (`1.5e+21`) and holds integers above 2^53 inexactly, so `Versions.NumericTags`, `Versions.FullTagSplitsBack` and `Text.ToNumberOfRendering` hold in the model at values where JavaScript differs. The helper itself only builds the numbers 0 and 1.
- Version fields built by a caller from other values (negative or fractional numbers, objects) are not modelled.
