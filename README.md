# sdm-pack-docker, modelled in Dafny

This project models the Docker extension pack for an Atomist software delivery machine (SDM). It covers four parts:

- **The per-branch deployers.** `DockerPerBranchDeployer` and `DockerRunner` keep two tables that persist across calls. `repoBranchToPort` maps `repo:branch` to a port, and `portToContainer` maps a port to a container name. `deployProject` does the following, in order:
  - reuses or probes a port;
  - issues `docker rm -f` for the container bound to the port, without waiting for it, or, when there is none, runs the capacity guard;
  - issues `docker run`;
  - records the container;
  - watches the container's output until startup succeeds or fails.
- **The image build pipeline `executeDockerBuild`.** It runs the preparations, then `docker login`, `docker build`, `docker push` and the image-link webhook, and stops at the first result whose code is not 0.
- **The image reference grammar of `DockerBuildFile`.** It parses `[registry/]name[:version]`, and `FROM <image>`.
- **The goal wrappers `DockerDeploy` and `DockerRun`.** They default the options by truthiness and map a deployment outcome to a goal result.

Everything outside the pack is a parameter:

- the `docker` processes, given by their pid and the ordered events they emit;
- the port finder, given by its answer;
- the success patterns, given as predicates on text;
- the results of the login, build and push processes;
- the local-mode flag;
- the webhook's answer.

Modules:

- `JsValues` (js_values.dfy): `undefined` as `Option`, truthiness, `typeof`, and the decimal text of `${n}`.
- `Goals` (goals.dfy): the goal result and the `then`/`catch` mapping shared by both wrappers.
- `Deployment` (deployment.dfy): what both deployers share:
  - names and arguments;
  - the capacity count;
  - the startup watch, as a left fold `WatchAll` and as the loop `WatchStartup` proved equal to it;
  - `Deploy`, one `deployProject` call as a function of the tables before it.
- `DockerPerBranchDeployer` and `DockerRunner`: classes whose two `map` fields `DeployProject` updates in place. The method is proved against `Deployment.Deploy`.
- `DockerDeploy` and `DockerRun`: option defaulting, and an executor class that shares one deployer between all invocations.
- `ExecuteDockerBuild`: the `DockerOptions` class whose `push` field the push step settles. Also the imperative `ExecuteDockerBuild`, `DockerLogin` and `DockerPush` methods, proved against the `Pipeline`, `Login` and `Push` functions.
- `DockerBuildFile`: the grammar as a greedy parser from a position, with no backtracking, and `firstMatch` as the first position at which it succeeds.

The guard's error message (lib/docker/DockerPerBranchDeployer.ts:78) announces a limit of 5 containers, but the guard never fires. It counts the keys of `portToContainer` whose `typeof` is `"number"`, and object keys are always strings, so the count is always 0. The model follows the code (`Deployment.PresentCountIsZero`). Both `DeployProject` methods still carry the guard's branch.

## Model

| member | source | states |
|---|---|---|
| DockerPerBranchDeployer.DockerPerBranchDeployer.constructor | lib/docker/DockerPerBranchDeployer.ts:53-59 | A new deployer keeps its options and starts with both tables empty. |
| DockerPerBranchDeployer.DockerPerBranchDeployer.DeployProject | lib/docker/DockerPerBranchDeployer.ts:61-132 | The new tables, the outcome, the docker commands issued and the port-finder query are exactly those of `Deployment.Deploy` with the configured source port and "Docker deployment failure", applied to the tables before the call. |
| DockerRunner.DockerRunner.constructor | lib/docker/DockerRunner.ts:18-24 | A new runner keeps its options and starts with both tables empty. |
| DockerRunner.DockerRunner.DeployProject | lib/docker/DockerRunner.ts:26-97 | The same as the per-branch deployer, with container port 8080 and "Maven deployment failure". |
| Deployment.Deploy | lib/docker/DockerPerBranchDeployer.ts:61-132 | One `deployProject` call from the tables before it: port memoisation or probe, `rm -f` of a bound container, the capacity guard, `docker run`, the pid check, the container record and the watch's verdict. Its lemmas below state each step. |
| Deployment.MemoisedPort | lib/docker/DockerPerBranchDeployer.ts:64-65 | The port stored under the key when it is truthy, and none otherwise, so a 0 entry is probed again (`ReusesMemoisedPort`, `RecordsProbedPort`). |
| Deployment.RunArgs | lib/docker/DockerPerBranchDeployer.ts:83-90 | The `docker run` arguments `run`, `-p<port>:<containerPort>`, `--name=<name>` and the image. `RunArgsBindPort` reads the mapping back. |
| Deployment.RemoveArgs | lib/docker/DockerPerBranchDeployer.ts:135-142 | The `docker rm -f <name>` arguments, issued before `docker run` exactly for a bound port (`AlwaysRunsOnceResolved`, `EvictsIffBound`). |
| Deployment.Endpoint | lib/docker/DockerPerBranchDeployer.ts:94-97 | The endpoint `${baseUrl}:${port}`, whose port reads back for any base URL (`EndpointNamesPort`). |
| Deployment.ObjectKeys | lib/docker/DockerPerBranchDeployer.ts:74 | `Object.keys` of the container table: one string per bound port (`ObjectKeysOnePerPort`). |
| Deployment.PresentCount | lib/docker/DockerPerBranchDeployer.ts:74-76 | The number of keys whose `typeof` is "number", which `PresentCountIsZero` proves is always 0. |
| Deployment.Step | lib/docker/DockerPerBranchDeployer.ts:107-131 | One listener call: append a chunk to its buffer, test the patterns on all of stdout after a stdout chunk or at exit, reject on an error, and leave a settled promise alone (`StepIgnoresStderr`, `SettledAt`). |
| Deployment.WatchAll | lib/docker/DockerPerBranchDeployer.ts:104-131 | The listeners' state after all events. `WatchStartup` is proved equal to it, and `WatchBuffers`, `SettlesOnce`, `StderrNeverTested`, `SucceedsOnlyOnMatch`, `MatchingChunkSucceeds`, `ExitDecides` and `ErrorFails` state its behaviour. |
| Deployment.ContainerName | lib/docker/DockerPerBranchDeployer.ts:82 | The container name is the repo, one `_`, then the branch, and nothing else. |
| Deployment.RunArgsBindPort | lib/docker/DockerPerBranchDeployer.ts:83-90 | `docker run` gets four arguments, and its `-p` argument reads back as exactly (host port, container port). |
| Deployment.EndpointNamesPort | lib/docker/DockerPerBranchDeployer.ts:94-97 | Whatever the base URL, the digits after the endpoint's last colon read back as the deployed port. |
| Deployment.IndexOf | lib/docker/DockerPerBranchDeployer.ts:86 | The index of the `:` that splits a `-p` mapping: the first one, or none. |
| Deployment.AfterLastColon | lib/docker/DockerPerBranchDeployer.ts:96 | The start of the port in an endpoint: just after the last `:`, with no colon after it. |
| Deployment.AfterLastColonOfSuffix | lib/docker/DockerPerBranchDeployer.ts:96 | Appending `:` and colon-free text puts the last colon right after the prefix. |
| Deployment.PresentCountIsZero | lib/docker/DockerPerBranchDeployer.ts:73-79 | The capacity count is 0 for every container table, so the "limit of 5" error is never raised. |
| Deployment.ObjectKeysOnePerPort | lib/docker/DockerPerBranchDeployer.ts:74 | Each bound port contributes its own distinct key, a string, to the set the guard filters. |
| Deployment.WatchStartup | lib/docker/DockerPerBranchDeployer.ts:104-131 | The listener loop ends with exactly the buffers and settlement of the fold `WatchAll` over the events. |
| Deployment.WatchBuffers | lib/docker/DockerPerBranchDeployer.ts:104-120 | The stdout buffer is every stdout chunk in order, and the stderr buffer every stderr chunk. |
| Deployment.SettlesOnce | lib/docker/DockerPerBranchDeployer.ts:107-131 | Once the promise is settled, no further event changes the outcome. |
| Deployment.StepIgnoresStderr | lib/docker/DockerPerBranchDeployer.ts:116-120 | What one listener does to stdout and the promise does not depend on the stderr buffer. |
| Deployment.StderrNeverTested | lib/docker/DockerPerBranchDeployer.ts:116-120 | Dropping all stderr events changes neither the outcome nor stdout. |
| Deployment.SucceedsOnlyOnMatch | lib/docker/DockerPerBranchDeployer.ts:108-124 | Success implies some pattern matched all the stdout seen up to a stdout chunk or the exit. |
| Deployment.MatchingChunkSucceeds | lib/docker/DockerPerBranchDeployer.ts:108-115 | If unsettled before it, a stdout chunk after which the whole stdout matches resolves the deployment. |
| Deployment.ExitDecides | lib/docker/DockerPerBranchDeployer.ts:121-129 | If unsettled before it, the exit resolves on a match and otherwise rejects with the failure message. |
| Deployment.ErrorFails | lib/docker/DockerPerBranchDeployer.ts:130 | If unsettled before it, an error event rejects with its own reason. |
| Deployment.SettledAt | lib/docker/DockerPerBranchDeployer.ts:107-131 | The event that first settles the promise fixes the final settlement. |
| Deployment.ReusesMemoisedPort | lib/docker/DockerPerBranchDeployer.ts:64-65 | A truthy memoised port for `repo:branch` is reused, the finder is not asked, and the port table is unchanged. |
| Deployment.RecordsProbedPort | lib/docker/DockerPerBranchDeployer.ts:65-68 | Otherwise the finder is asked from the lower port and its port is stored under the key. A failed probe changes nothing and issues no command. |
| Deployment.PortEntriesKept | lib/docker/DockerPerBranchDeployer.ts:64-68 | Port entries are never removed, and a truthy entry never changes. |
| Deployment.AlwaysRunsOnceResolved | lib/docker/DockerPerBranchDeployer.ts:69-90 | Once a port is known, `docker run` is always issued. A truthy existing container on the port is first `docker rm -f`'d. |
| Deployment.RecordsContainerAfterSpawn | lib/docker/DockerPerBranchDeployer.ts:91-99 | Without a pid the call rejects with "Fatal error deploying using Docker" and the container table is unchanged. With a pid, exactly the port's entry is set to the new name. |
| Deployment.OutcomeIsWatchVerdict | lib/docker/DockerPerBranchDeployer.ts:94-131 | After a spawn, the outcome is resolved, rejected or pending exactly as the watch settles. Success carries the endpoint `${baseUrl}:${port}`, which names the port. |
| Deployment.KeepsNamesTruthy | lib/docker/DockerPerBranchDeployer.ts:82-99 | Every call keeps every recorded container name non-empty. |
| Deployment.EvictsIffBound | lib/docker/DockerPerBranchDeployer.ts:69-71 | With non-empty names, `docker rm` is issued exactly when the port is already bound. |
| Deployment.RedeployEvictsPrevious | lib/docker/DockerPerBranchDeployer.ts:64-99 | Redeploying a branch reuses its port without the finder, removes the previous container, then runs the new one. |
| Goals.ToGoalResult | lib/docker/DockerDeploy.ts:100-111 | Success becomes code 0 with the endpoint as target URL, and any rejection becomes code 1 with the reason as message. A deployment that never settles gives no result. |
| Goals.GoalResultRoundTrip | lib/docker/DockerDeploy.ts:100-111 | The mapping loses no outcome and alters no rejection reason. |
| DockerDeploy.DeployerOptions | lib/docker/DockerDeploy.ts:84-89 | A falsy lower port (undefined or 0) becomes 9090 and a falsy base URL becomes "http://localhost". Truthy values, the patterns and the source port pass through. |
| DockerDeploy.DefaultingIdempotent | lib/docker/DockerDeploy.ts:86-87 | Defaulting options that are already defaulted changes nothing. |
| DockerDeploy.DockerDeployExecutor.With | lib/docker/DockerDeploy.ts:97-98 | One fresh deployer per registration, with the defaulted options and empty tables. |
| DockerDeploy.DockerDeployExecutor.Execute | lib/docker/DockerDeploy.ts:99-111 | Each invocation deploys on the shared deployer, whose tables carry over. Its result is `Goals.ToGoalResult` of the outcome. |
| DockerRun.RunnerOptions | lib/docker/DockerRun.ts:52-56 | A falsy lower port becomes 9090 and a falsy base URL becomes "localhost". Truthy values and the patterns pass through. |
| DockerRun.DefaultEndpointHasNoScheme | lib/docker/DockerRun.ts:55 | With the default base URL the endpoint is `localhost:<port>`, with no scheme. |
| DockerRun.DockerRunExecutor.With | lib/docker/DockerRun.ts:63-64 | One fresh runner per registration, with the defaulted options and empty tables. |
| DockerRun.DockerRunExecutor.Execute | lib/docker/DockerRun.ts:65-77 | Each invocation deploys on the shared runner and maps the outcome with `Goals.ToGoalResult`. |
| JsValues.Decimal | lib/docker/DockerPerBranchDeployer.ts:86 | The text of `${port}`: non-empty digits with no leading zero. |
| JsValues.DecimalRoundTrip | lib/docker/DockerPerBranchDeployer.ts:96 | The decimal text of a port reads back as that port. |
| JsValues.DecimalInjective | lib/docker/DockerPerBranchDeployer.ts:74 | Distinct ports have distinct keys. |
| ExecuteDockerBuild.DockerOptions.constructor | lib/docker/executeDockerBuild.ts:38-64 | The options hold what they were given. |
| ExecuteDockerBuild.ImageString | lib/docker/executeDockerBuild.ts:101 | The image tag: a truthy registry and `/`, the name, `:` and the version. `ImageStringRoundTrip` proves it parses back to the image it names. |
| ExecuteDockerBuild.DockerfilePath | lib/docker/executeDockerBuild.ts:102 | What this invocation's finder yields when one is configured, "Dockerfile" otherwise (`BuildFailureStops`). |
| ExecuteDockerBuild.LoginArgs | lib/docker/executeDockerBuild.ts:154-159 | `login --username U --password P`, with the registry appended when its text has a non-alphanumeric character (`LoginArgsRegistry`). |
| ExecuteDockerBuild.Login | lib/docker/executeDockerBuild.ts:147-178 | `dockerLogin`: the login command and its result with both credentials, and no command and `Success` otherwise (`LoginRunsIffCredentials`). `DockerLogin` is proved equal to it. |
| ExecuteDockerBuild.PushDecision | lib/docker/executeDockerBuild.ts:188-193 | Whether to push: an undefined `push` means "not in local mode" (`PushSettled`). |
| ExecuteDockerBuild.Push | lib/docker/executeDockerBuild.ts:180-215 | `dockerPush`: the configuration error without credentials, the `push` command and its result with them, and when skipped `undefined` as written or `Success` corrected (`PushWithoutCredentials`, `PushResultReturned`, `SkippedPushThrows`, `SkippedPushSucceeds`). `DockerPush` is proved equal to the corrected one. |
| ExecuteDockerBuild.Steps | lib/docker/executeDockerBuild.ts:100-142 | Login, build, push and link in order, returning the first result whose code is not 0, a thrown TypeError for an undefined push result, and the link failure. |
| ExecuteDockerBuild.Pipeline | lib/docker/executeDockerBuild.ts:77-145 | The whole goal: the first failing preparation, or `Steps`. `ExecuteDockerBuild` is proved equal to it, and `SucceedsIff` and the step lemmas below state its behaviour. |
| ExecuteDockerBuild.FirstFailing | lib/docker/executeDockerBuild.ts:85-90 | The first preparation whose code is not 0: every earlier one passed, and None means all passed. |
| ExecuteDockerBuild.DockerLogin | lib/docker/executeDockerBuild.ts:147-178 | The argument-building method issues exactly the commands of `Login` and returns its result. |
| ExecuteDockerBuild.DockerPush | lib/docker/executeDockerBuild.ts:180-215 | An undefined `options.push` is set to "not in local mode". The commands and result are those of the corrected `Push`. |
| ExecuteDockerBuild.ExecuteDockerBuild | lib/docker/executeDockerBuild.ts:77-145 | The loop over preparations and the step-by-step `result` give exactly the outcome, commands and final `options.push` of `Pipeline` with the corrected push step. |
| ExecuteDockerBuild.PreparationFailureStops | lib/docker/executeDockerBuild.ts:85-90 | The first failing preparation is returned as-is. No docker command runs, and `push` is untouched. |
| ExecuteDockerBuild.LoginRunsIffCredentials | lib/docker/executeDockerBuild.ts:154-177 | Login issues a command exactly when user and password are both truthy, and otherwise returns `Success`. |
| ExecuteDockerBuild.LoginArgsRegistry | lib/docker/executeDockerBuild.ts:156-159 | The login arguments start `login --username U --password P`. The registry is appended exactly when it is defined and holds a character other than an ASCII letter or digit, because an undefined registry tests as "undefined". |
| ExecuteDockerBuild.LoginFailureStops | lib/docker/executeDockerBuild.ts:104-109 | A failed login is returned as-is, after only the login command. |
| ExecuteDockerBuild.BuildFailureStops | lib/docker/executeDockerBuild.ts:102-123 | The build command is exactly `build . -f <path> -t <image>`, the path being what the finder yields for this invocation's project, or "Dockerfile" when no finder is configured. A failed build is returned and nothing is pushed. |
| ExecuteDockerBuild.PushSettled | lib/docker/executeDockerBuild.ts:189-191 | Once the push step is reached, an undefined `push` becomes "not in local mode" and a defined one is kept. |
| ExecuteDockerBuild.PushWithoutCredentials | lib/docker/executeDockerBuild.ts:193-200 | A push that is due without both user and password fails with code 1 and the configuration message, and no push is issued. |
| ExecuteDockerBuild.LinkFailure | lib/docker/executeDockerBuild.ts:132-142 | After a successful push, an unposted image link gives code 1 with "Image link failed". |
| ExecuteDockerBuild.PushResultReturned | lib/docker/executeDockerBuild.ts:125-139 | When the push runs, its command follows the build command. A failed push is returned as-is, and so is a successful one once the link is posted. |
| ExecuteDockerBuild.SucceedsIff | lib/docker/executeDockerBuild.ts:85-142 | The goal succeeds exactly when every preparation, the login, the build and the push succeed and the link is posted. |
| ExecuteDockerBuild.SkippedPushThrows | lib/docker/executeDockerBuild.ts:125-214 | As written, a skipped push leaves `result` undefined, and reading `result.code` throws. |
| ExecuteDockerBuild.LocalModeBuildThrows | lib/docker/executeDockerBuild.ts:125-214 | In local mode, with no push setting and no credentials, the goal throws. |
| ExecuteDockerBuild.SkippedPushSucceeds | lib/docker/executeDockerBuild.ts:126-142 | Corrected, a skipped push lets the goal reach the link and succeed. |
| ExecuteDockerBuild.VariantsAgreeUnlessSkipped | lib/docker/executeDockerBuild.ts:180-215 | The correction changes nothing except a run that reaches a skipped push. |
| ExecuteDockerBuild.ImageStringRoundTrip | lib/docker/executeDockerBuild.ts:101 | The image tag (truthy registry and `/`, name, `:`, version) is the text of the image reference it names, and parses back to it. |
| DockerBuildFile.NameTokenSlice | lib/docker/DockerBuildFile.ts:4-25 | A name token at a position is exactly a slice in the language `[a-z0-9]+([._-][a-z0-9]+)*`. |
| DockerBuildFile.AlnumEnd | lib/docker/DockerBuildFile.ts:4-25 | The end of the run of lowercase letters and digits from a position. |
| DockerBuildFile.SeparatedEnd | lib/docker/DockerBuildFile.ts:4-25 | The end of the separated runs from a position. |
| DockerBuildFile.MatchName | lib/docker/DockerBuildFile.ts:4-25 | A name token is found exactly when the next character is a lowercase letter or digit. What it covers is a name token that cannot be extended. |
| DockerBuildFile.MatchNameLongest | lib/docker/DockerBuildFile.ts:25 | No longer name token starts at the same position (greedy regex). |
| DockerBuildFile.MatchNameExact | lib/docker/DockerBuildFile.ts:25 | A name token that is not followed by a name character is exactly what the name matcher finds. |
| DockerBuildFile.VersionEnd | lib/docker/DockerBuildFile.ts:12 | The end of the run of `[a-zA-Z0-9._-]` characters from a position. |
| DockerBuildFile.WhitespaceEnd | lib/docker/DockerBuildFile.ts:35-40 | The end of the whitespace skipped between `FROM` and the image, whitespace being the characters of JavaScript's `\s`. |
| DockerBuildFile.ParseRegistry | lib/docker/DockerBuildFile.ts:3-24 | The optional `registry/` part: none consumes nothing, and some consumes a registry token followed by `/`. |
| DockerBuildFile.ParseRegistryText | lib/docker/DockerBuildFile.ts:3-7 | The consumed registry text renders as the parsed registry. |
| DockerBuildFile.ParseVersion | lib/docker/DockerBuildFile.ts:9-27 | A version is parsed exactly when `:` is followed by a version character. It is then the longest run of version characters, and otherwise it is undefined and nothing is consumed. |
| DockerBuildFile.ParseVersionText | lib/docker/DockerBuildFile.ts:9-14 | The consumed version text renders as the parsed version. |
| DockerBuildFile.ParseNameAndVersion | lib/docker/DockerBuildFile.ts:25-27 | The name and optional version after the registry: fails exactly when no name starts there. |
| DockerBuildFile.ParseImageRef | lib/docker/DockerBuildFile.ts:20-29 | An image reference fails exactly when no name follows the optional registry. |
| DockerBuildFile.Render | lib/docker/DockerBuildFile.ts:20-29 | The text `[registry/]name[:version]` of an image, which the parser reads back (`ImageRefRoundTrip`) and which is exactly what it consumes (`ParseImageRefSpansText`). |
| DockerBuildFile.ParseImageRefSpansText | lib/docker/DockerBuildFile.ts:20-29 | The text consumed is exactly the rendering `[registry/]name[:version]` of the result. |
| DockerBuildFile.ParseImageRefWellFormed | lib/docker/DockerBuildFile.ts:4-25 | Every parsed registry and name is a name token, and every version a version token. |
| DockerBuildFile.NoWhitespaceInImageRef | lib/docker/DockerBuildFile.ts:6-28 | No whitespace is consumed inside an image reference. |
| DockerBuildFile.ImageRefRoundTrip | lib/docker/DockerBuildFile.ts:20-29 | Any well-formed image, rendered, parses back to itself and consumes all of its text. |
| DockerBuildFile.ParseFrom | lib/docker/DockerBuildFile.ts:35-40 | A `FROM` clause begins with "FROM". It fails exactly when that prefix is missing or no image reference follows the whitespace. |
| DockerBuildFile.ParseFromParts | lib/docker/DockerBuildFile.ts:35-40 | A parsed clause is "FROM", whitespace, then the image reference's text. |
| DockerBuildFile.FromRoundTrip | lib/docker/DockerBuildFile.ts:35-40 | `FROM <image>` parses back to any well-formed image. |
| DockerBuildFile.FirstMatch | lib/docker/DockerBuildFile.ts:20-40 | `firstMatch`: the position of a match with no match before it, or none anywhere. |
| DockerBuildFile.ParsesRegistryNameVersion | test/docker/DockerBuildFile.test.ts:10-16 | "reg/test:v1.0" first matches at 0 as registry "reg", name "test" and version "v1.0". |
| DockerBuildFile.ParsesFromClause | test/docker/DockerBuildFile.test.ts:20-27 | "FROM reg/test:v1.0" first matches at 0 with the same parent image. |

## Left out

- Processes: `docker run`, `docker rm`, `docker login/build/push` and `spawnAndWatch` are not executed. A spawn is its pid, a process its ordered events or its result, and `docker rm -f` is recorded as an issued command.
- The port finder: `portfinder.getPortPromise` is an answer passed in, a port or a failure. The operating system's port availability is not modelled.
- Regular expressions: success patterns are predicates `string -> bool`, and `lastIndex` state is not modelled. The login registry test is written out as a character predicate.
- Concurrency: deployments run one at a time, and a process's events arrive as one ordered sequence. Overlapping `deployProject` calls racing on the shared tables are not modelled.
- The asynchronous `docker rm -f`: `stopAndRemoveContainer` returns before the removal finishes, but the model records it as the command before `docker run`. Its completion is not modelled.
- Logging: the progress log and the error log only receive output and are not modelled. Both buffers are still modelled, even though the stderr buffer is only ever logged.
- Rejection reasons: `DeployOutcome.Rejected` carries the reason's text. The wrappers pass the `Error` object itself as the message, and that object is not modelled.
- Foreign calls of the build pipeline: `imageNameCreator`, `dockerfileFinder`, `isInLocalMode`, `postLinkImageWebhook` and `projectLoader.doWithProject` are inputs. `DefaultDockerImageNameCreator` and `readSdmVersion` are not part of this model.
- Undefined image versions: the image name's version is a string. An undefined version, which a template string would render as "undefined", is not modelled.
- DockerBuildFile.ParseImageRef: the microgrammar library's matching machinery, and the updatable matches it offers, are not modelled. The grammar is a greedy parser with no backtracking into an optional part, started at a given position. `consumeWhiteSpaceBetweenTokens: false` is honoured inside a reference, and whitespace is skipped after `FROM`.
- DockerBuildFile.ParseVersion: `VersionGrammar` is written without `consumeWhiteSpaceBetweenTokens: false`. Whitespace between its `:` and the version is not accepted.
- Framework glue: the goal and registration classes (`addFulfillment` and goal names), src/docker/DockerBuild.ts, lib/index.ts and src/index.ts are not part of this model.
- JsValues.TruthyNumber: NaN is not modelled, and ports and lower ports are integers.

## Findings

| source | as written | input that shows it | evidently intended | confidence | as-written member | corrected member |
|---|---|---|---|---|---|---|
| lib/docker/executeDockerBuild.ts:125-214 | When `options.push` is false, `dockerPush` returns nothing, and `executeDockerBuild` then reads `result.code` of `undefined`, which throws a TypeError. | local mode, `push` unset, no credentials, every other step passing | A skipped push counts as `Success`, as a skipped login does, so the pipeline goes on to the image link. | not executed | ExecuteDockerBuild.LocalModeBuildThrows | ExecuteDockerBuild.SkippedPushSucceeds |
