# APIChangesAgent core, modelled in Dafny

APIChangesAgent evaluates language models on library API changes. For every
API change in an input batch and every configured model, an agent generates a
Java program and a Gradle build that exercise the change. It then repairs them
until the change's own test program passes. One `TestResult` per
(change, model) pair is written out.

This project models the deterministic core of that pipeline:

- `Main.dfy`: validation of the command-line configuration (`createConfig`).
  The checks run in a fixed order, and the defaults are 4 workers and 15 agent
  iterations.
- `ApiChangeEntry.dfy`, `Configuration.dfy`: the records `ApiChange`,
  `TestResult`, `TestExecutionResult` and `Config`, with Kotlin's default
  argument values, and the `Model` enumeration known by its constant names.
  `Nullable.dfy` gives Kotlin's nullable types as `Option`, with `OrElse` for
  the elvis operator.
- `TestRunnerToolSet.dfy`: the `run-tests` tool. It writes a three-file Gradle
  project into a fresh temporary directory, runs `<GRADLE_HOME> test` there,
  maps the process outcome to a `TestResult`, deletes the directory, and copies
  the inputs it was called with into the result. The file system is a class whose state is
  a set of directories and a map from path to content. The build process is a
  function of the command, the directory and the files present.
- `AgentWrapper.dfy`: the agent wrapper for one (change, model) pair. This
  covers the `lastTestResult` latch fed by `run-tests` results, the conditions
  on the edges of the repair subgraph and of the outer graph, and the result
  that `run()` assembles.
- `Runner.dfy`: the dispatcher. One unit runs per (change, model) pair,
  change-major. The dispatcher overrides results that name another API change,
  keeps the `total`/`success` counters, and returns the results in dispatch
  order.

The agent framework is treated as a black box. A whole agent run is an input:
the sequence of tool results the framework delivered to the event handler,
and whether the run ended normally or with an exception (and its message). For
the graph, the model assumes that the framework tries a node's outgoing edges
in declaration order and follows the first edge whose condition holds, and
that a node none of whose edges holds ends the run with an exception, which
`run()` catches. The model's reply is the list of messages one request
returns (`Reply`). The guard `onMultipleToolCalls` sees the whole list and is
taken to hold when some message is a tool call. The other edges read the first
message, and on an empty reply their `it.first()` throws.

Where the code and the intention its own other lines show differ, the model follows the code. The
differences are proved as lemmas:

- A successful test result for a *modified* API change stays latched forever
  (`ReplayKeepsSuccess`). The repair subgraph then never finishes
  (`LatchedMismatchNeverFinishes`), so the run can only end with an exception,
  such as the framework's iteration cap. `run()` catches it and reports the
  latched result as a success stamped with the original API change
  (`MismatchedSuccessIsReported`). The dispatcher's own mismatch override
  (Runner.kt:48-53) shows that a result for another API change is meant to
  fail.
- The outer graph's finish test ignores the API change
  (`OuterFinishIgnoresApiChange`). That difference never shows: the outer
  edges are tried only after the repair subgraph finished, which needs a
  latched success for this API change, so the outer test always leads to the
  finish node and the edge back into the repair subgraph is never taken
  (`RepairFinishLeavesOuterGraph`).
- `run()` always stamps the wrapper's own API change, so the dispatcher's
  mismatch override never fires on results from the agent
  (`OverrideNeverFiresOnAgentResults`). The override is still modelled as
  written (`Override`, `ProcessChanges`).
- When `GRADLE_HOME` is not set, `runWithCLI` throws outside its `try`. The
  temporary project directory is then not deleted (`RunTests`, the `Threw`
  case). The deletion at the end of `runTests` shows that cleanup is meant.
- `createConfig` does not check the worker count (`NonPositiveWorkersAccepted`).
  A count below 1 makes `limitedParallelism` throw when `processChanges`
  starts, before any unit runs (`ProcessChanges`, the `Threw` case).

One divergence is a defect in the graph as written and is listed under
"## Findings": the two loop-back edges of the model-call node of the repair
subgraph can never be taken. `AfterLLMCall` models the node as written;
`IntendedAfterLLMCall` is the evident intention, and the node that sends tool
results back behaves that way on every reply that does not put a plain answer
before tool calls. On such a reply the two nodes differ as written, and that
difference is not part of the finding (`PendingToolCallsAtFinish`).

## Model

| member | source | states |
|---|---|---|
| ApiChangeEntry.ApiChangeEqualityIsStructural | src/main/kotlin/org/example/ApiChangeEntry.kt:12-38 | Two API changes are equal exactly when all twelve fields agree (data-class equality). |
| ApiChangeEntry.TestResultDefaults | src/main/kotlin/org/example/ApiChangeEntry.kt:43-52 | A `TestResult` given only `success` has every nullable field null and no test results. |
| ApiChangeEntry.TestExecutionResultDefaults | src/main/kotlin/org/example/ApiChangeEntry.kt:58-65 | A test case built without `failure` records no failure. |
| Configuration.Model.Name | src/main/kotlin/org/example/Config.kt:7-15 | Kotlin's `Enum.name`: the constant's identifier; distinct constants have distinct names (`NameInjective`). |
| Configuration.NameInjective | src/main/kotlin/org/example/Config.kt:7-15 | Distinct models have distinct `name`s, so a result's `model` field identifies the model. |
| Configuration.ConfigDefaults | src/main/kotlin/org/example/Config.kt:17-25 | A `Config` built without `workers`/`maxAgentIterations` has 4 and 15. |
| Main.HasApiKey | src/main/kotlin/Main.kt:26 | The key check: at least one of the OpenAI and Anthropic keys is non-empty. |
| Main.CreateConfig | src/main/kotlin/Main.kt:26-48 | A config is produced iff some key is non-empty, the model list is non-empty and the input file exists. Otherwise the first failing check (keys, then models, then input file) gives its error message. On success every field equals its option. |
| Main.DefaultsReachConfig | src/main/kotlin/Main.kt:19-48 | Options left at their defaults, with either API key, yield a config with 4 workers and 15 iterations. |
| Main.NonPositiveWorkersAccepted | src/main/kotlin/Main.kt:26-48 | A worker count below 1 passes validation and reaches the config unchanged. |
| TestRunnerToolSet.FileSystem.CreateTempDirectory | src/main/kotlin/org/example/tools/TestRunnerToolSet.kt:168 | Adds exactly the fresh directory; files are unchanged. |
| TestRunnerToolSet.FileSystem.CreateDirectories | src/main/kotlin/org/example/tools/TestRunnerToolSet.kt:170-171 | Adds the directory and all its ancestors; files are unchanged. |
| TestRunnerToolSet.FileSystem.WriteText | src/main/kotlin/org/example/tools/TestRunnerToolSet.kt:177-179 | The file, whose parent directory exists, gets exactly the given content; nothing else changes. |
| TestRunnerToolSet.FileSystem.DeleteRecursively | src/main/kotlin/org/example/tools/TestRunnerToolSet.kt:183 | Removes the directory and everything below it, and nothing else. |
| TestRunnerToolSet.Layout | src/main/kotlin/org/example/tools/TestRunnerToolSet.kt:173-179 | The three files the project consists of, with their contents (properties in `LayoutContents`). |
| TestRunnerToolSet.LayoutContents | src/main/kotlin/org/example/tools/TestRunnerToolSet.kt:170-179 | In the project the build sees, `src/main/java/ExampleSpringService.java` holds the code, `src/test/java/ExampleSpringServiceTest.java` the test program and `build.gradle` the build; no write overrides another. |
| TestRunnerToolSet.WritesAreLayout | src/main/kotlin/org/example/tools/TestRunnerToolSet.kt:177-179 | The three writes in order add exactly the three-file layout. |
| TestRunnerToolSet.CleanupRestores | src/main/kotlin/org/example/tools/TestRunnerToolSet.kt:168-183 | Deleting a fresh directory after creating things only inside it restores the earlier directories and files. |
| TestRunnerToolSet.CreateProject | src/main/kotlin/org/example/tools/TestRunnerToolSet.kt:168-179 | The new state is the old files plus the layout, and the old directories plus the project's directories. |
| TestRunnerToolSet.CliResult | src/main/kotlin/org/example/tools/TestRunnerToolSet.kt:133-155 | Success iff exit code 0, with no output recorded. A nonzero exit carries stdout and stderr. A launch exception carries its message or "Unknown error". Failures always have an error output, and there are never per-test results. |
| TestRunnerToolSet.RunTestsResult | src/main/kotlin/org/example/tools/TestRunnerToolSet.kt:185 | The returned result carries exactly the API change, code and build passed in; every other field, including output and error output, is `runWithCLI`'s, so it succeeds iff the build exited with 0. |
| TestRunnerToolSet.RunWithCli | src/main/kotlin/org/example/tools/TestRunnerToolSet.kt:125-156 | Throws with the `GRADLE_HOME` message iff it is unset. Otherwise returns the mapped outcome of `<GRADLE_HOME> test` run in the project directory on the current files. |
| TestRunnerToolSet.RunTests | src/main/kotlin/org/example/tools/TestRunnerToolSet.kt:158-186 | Throws iff `GRADLE_HOME` is unset, leaving the project behind. Otherwise the build ran on the layout holding the API change's own test program, nothing at or below the project directory remains, every write `runTests` itself made is undone, and the result carries the inputs. |
| AgentWrapper.LatchedSuccess | src/main/kotlin/org/example/AgentWrapper.kt:161 | `lastTestResult?.success ?: false`: false when nothing is latched. |
| AgentWrapper.LatchedMatches | src/main/kotlin/org/example/AgentWrapper.kt:161 | `lastTestResult?.apiChange == apiChange`: false when nothing is latched. |
| AgentWrapper.Latch | src/main/kotlin/org/example/AgentWrapper.kt:258-263 | A latched success is kept; other tools and undecodable results leave the latch alone; otherwise a decoded `run-tests` result replaces it. |
| AgentWrapper.Replay | src/main/kotlin/org/example/AgentWrapper.kt:257-266 | The latch after a sequence of tool results; once set it is never cleared. |
| AgentWrapper.FirstSuccess | src/main/kotlin/org/example/AgentWrapper.kt:257-263 | Reference definition: the first decoded successful `run-tests` result, which is successful. |
| AgentWrapper.ReplayKeepsSuccess | src/main/kotlin/org/example/AgentWrapper.kt:258-263 | Once a successful result is latched, no later tool result replaces it. |
| AgentWrapper.ReplayIsFirstSuccess | src/main/kotlin/org/example/AgentWrapper.kt:257-266 | From an absent or failing latch, the latch ends as the first successful `run-tests` result, or stays absent/failing if there is none. |
| AgentWrapper.ReplayHoldsDeliveredResult | src/main/kotlin/org/example/AgentWrapper.kt:257-266 | The latch holds its initial value or a decoded `run-tests` result that was delivered; other tools and undecodable results never reach it. |
| AgentWrapper.FinishEdge | src/main/kotlin/org/example/AgentWrapper.kt:158-162 | Given the reply's first message, the finish edge holds exactly on a plain answer when the latched result succeeded and names this API change, and passes the answer on. |
| AgentWrapper.RunTestsEdge | src/main/kotlin/org/example/AgentWrapper.kt:190-194 | The "Please run tests" loop-back holds exactly when the latch is absent or failing (and, when guarded by the message, on a plain answer only), and extends the first message's text. |
| AgentWrapper.ApiModifiedEdge | src/main/kotlin/org/example/AgentWrapper.kt:196-200 | The "modified" loop-back holds exactly when the latch is absent or names another API change (and, when guarded by the message, on a plain answer only), and extends the first message's text. |
| AgentWrapper.ToolCallsEdge | src/main/kotlin/org/example/AgentWrapper.kt:176-179 | The edge to tool execution holds exactly when some message of the whole reply is a tool call. |
| AgentWrapper.AfterLLMCall | src/main/kotlin/org/example/AgentWrapper.kt:158-179 | As written, the model-call node never loops back: its only possible targets are finish and tool execution, and it finishes only on a latched success for this API change. |
| AgentWrapper.IntendedAfterLLMCall | src/main/kotlin/org/example/AgentWrapper.kt:164-174 | The model-call node with the loop-back guards testing the first message, as evidently intended: it has an edge exactly when the reply is non-empty (decision table in `IntendedAfterLLMCallDecides`). |
| AgentWrapper.AfterToolResults | src/main/kotlin/org/example/AgentWrapper.kt:185-206 | The node that sends tool results back has an edge exactly when the reply is non-empty, and finishes only on a latched success for this API change. |
| AgentWrapper.AfterLLMCallDecides | src/main/kotlin/org/example/AgentWrapper.kt:158-179 | As written: a reply opening with a plain answer finishes iff the latched result succeeded and names this API change; otherwise a reply with a tool call goes to execution, and any other reply (an empty one included) has no edge. |
| AgentWrapper.IntendedAfterLLMCallDecides | src/main/kotlin/org/example/AgentWrapper.kt:158-179 | As intended: a reply opening with a tool call goes to execution; one opening with a plain answer finishes iff success and match, loops back with "Please run tests" iff the latch is absent or failing, and with the "modified" complaint iff it succeeded for another change. |
| AgentWrapper.ToolResultsNodeDecidesAsIntended | src/main/kotlin/org/example/AgentWrapper.kt:185-206 | On every reply that does not put a plain answer before tool calls, the node that sends tool results back takes exactly the decision the model-call node was meant to take. |
| AgentWrapper.PendingToolCallsAtFinish | src/main/kotlin/org/example/AgentWrapper.kt:158-206 | When the subgraph may finish and a plain answer precedes tool calls, the model-call node finishes and drops the calls while the tool-results node executes them. |
| AgentWrapper.NodesDifferOnPlainAnswer | src/main/kotlin/org/example/AgentWrapper.kt:164-174 | On every non-empty reply without tool calls that may not finish, the tool-results node loops back to the model while the model-call node has no edge. |
| AgentWrapper.NothingLatchedAsksForTests | src/main/kotlin/org/example/AgentWrapper.kt:185-194 | With nothing latched a reply without tool calls never finishes: after tool results it is sent back asking for a test run, at the model-call node it has no edge; an absent latch does not match the API change. |
| AgentWrapper.LatchedMismatchNeverFinishes | src/main/kotlin/org/example/AgentWrapper.kt:158-206 | Once a success for another API change is latched, whatever tool results and replies follow, neither node finishes: after tool results a reply without tool calls gets the "modified" complaint, at the model-call node it has no edge. |
| AgentWrapper.FinishNeedsOriginalChangeAndPassingBuild | src/main/kotlin/org/example/AgentWrapper.kt:158-162 | With a `run-tests` result latched, a reply opening with a plain answer finishes the subgraph iff the tool got the original API change and the build exited with 0. |
| AgentWrapper.OuterNext | src/main/kotlin/org/example/AgentWrapper.kt:209-220 | Create goes to repair. Repair goes to finish iff the latched result succeeded, and re-enters repair otherwise. |
| AgentWrapper.OuterFinishIgnoresApiChange | src/main/kotlin/org/example/AgentWrapper.kt:211-215 | The outer graph finishes on a latched success even when it names another API change. |
| AgentWrapper.RepairFinishLeavesOuterGraph | src/main/kotlin/org/example/AgentWrapper.kt:158-220 | Whenever either node of the repair subgraph finishes, the latch matches this API change and the outer graph goes to finish, so the re-entry edge is never taken. |
| AgentWrapper.FinalResult | src/main/kotlin/org/example/AgentWrapper.kt:289-307 | The result names the wrapper's own API change and model name, succeeds iff the latch succeeded, and always has an error output: the latched result's when it has one, otherwise the caught message (or "No error output"). Code, build, output and test results come from the latch, and are absent or empty when nothing is latched. |
| AgentWrapper.CaughtMessage | src/main/kotlin/org/example/AgentWrapper.kt:290-296 | The message kept by `run()`: the exception's message when it has one, otherwise "No error output". |
| AgentWrapper.RunResult | src/main/kotlin/org/example/AgentWrapper.kt:289-307 | `run()` of a fresh wrapper names its own API change and model, and succeeds iff some `run-tests` call returned a decodable successful result, carrying the first such result's code, build and output. |
| AgentWrapper.MismatchedSuccessIsReported | src/main/kotlin/org/example/AgentWrapper.kt:297-306 | A run whose only successful test was for a modified API change is reported as a success for the original change. |
| AgentWrapper.AgentWrapper.constructor | src/main/kotlin/org/example/AgentWrapper.kt:36-44 | A new wrapper keeps its parameters and starts with nothing latched. |
| AgentWrapper.AgentWrapper.OnToolCallResult | src/main/kotlin/org/example/AgentWrapper.kt:257-266 | The latch takes a decoded `run-tests` result only when it is absent or failing; a latched success is kept. |
| AgentWrapper.AgentWrapper.Run | src/main/kotlin/org/example/AgentWrapper.kt:289-307 | The latch ends as the replay of the delivered tool results. The returned value is `FinalResult` of that latch and the run's outcome, so no exception escapes. |
| Runner.Units | src/main/kotlin/Runner.kt:44-45 | Every unit pairs one of the input API changes with one of the configured models. |
| Runner.UnitsLength | src/main/kotlin/Runner.kt:44-46 | There are exactly \|apiChanges\| * \|models\| units. |
| Runner.UnitAt | src/main/kotlin/Runner.kt:44-46 | Unit i * \|models\| + j is change i with model j (change-major, models in config order). |
| Runner.Override | src/main/kotlin/Runner.kt:48-53 | A result naming another API change becomes a failure with output "API change mismatch", all else unchanged. A matching result is untouched, so an overridden result never counts as a success. |
| Runner.CountSuccess | src/main/kotlin/Runner.kt:56-57 | The success count is at most the number of results, and equals it iff every result succeeded. |
| Runner.ExecuteEntry | src/main/kotlin/Runner.kt:24-35 | Returns what a fresh wrapper's `run()` returns for the unit, naming the unit's API change and model. |
| Runner.DispatchUnit | src/main/kotlin/Runner.kt:46-54 | The task for one unit returns the unit's agent result after the mismatch override. |
| Runner.CountSuccessAppend | src/main/kotlin/Runner.kt:56-57 | Finishing one more unit raises the success count by one exactly when its result succeeded. |
| Runner.Dispatched | src/main/kotlin/Runner.kt:46-53 | The result recorded for a unit names its API change and model, and succeeds iff some `run-tests` call of its agent run returned a decodable successful result. |
| Runner.DispatchAll | src/main/kotlin/Runner.kt:44-66 | The result list: one dispatched result per unit, in dispatch order (positions in `DispatchAllAt`, `ResultOrder`). |
| Runner.DispatchUnits | src/main/kotlin/Runner.kt:41-66 | The units' results in dispatch order, with `total` the number of finished units and `success` the number of successful results. |
| Runner.OverrideNeverFiresOnAgentResults | src/main/kotlin/Runner.kt:47-53 | On results from `executeEntry` the mismatch override changes nothing. |
| Runner.ResultOrder | src/main/kotlin/Runner.kt:44-66 | In results recorded in dispatch order, position i * \|models\| + j holds the result for change i and model j. |
| Runner.ProcessChanges | src/main/kotlin/Runner.kt:37-69 | Throws iff the worker count is below 1. Otherwise one result per unit in dispatch order, each the unit's (possibly overridden) agent result naming the unit. `total` equals the number of units and `success` the number of successful results, so 0 <= success <= total. |

## Left out

- The language-model calls and prompt texts (`RepairingToolSet`, `ProjectGenerationToolSet`, the system prompt, the LLM clients) are foreign calls; the model's reply is an input (`Reply`).
- The agent framework (graph execution, tool registration, tracing, logging) is not modelled: a run is the sequence of tool results it delivered and how it ended. Edge choice in declaration order is an assumption about the framework.
- The creation subgraph (the model call that generates the project and its tool calls, AgentWrapper.kt:113-146) is part of the opaque run: `OuterNext` takes it to reach the repair subgraph, and its failures, such as `it.first()` on an empty reply, end the run with an exception like the repair nodes' do.
- The iteration cap `maxAgentIterations` is enforced inside the framework; it is kept as a wrapper field with no claim about how many calls a run makes.
- The parallel execution of tool calls within one step is not modelled; tool results reach the latch in the order given.
- Runner.ProcessChanges: units run one after another rather than on a pool of `workers` coroutines. Each unit's agent run is an input, so completion order cannot change the result list, which is collected by dispatch position as `awaitAll` does.
- Runner.ProcessChanges: the counters `total` and `success` are plain variables incremented from tasks on a multi-threaded dispatcher with no lock or atomic, so increments can be lost; `total == |results|` and `success == CountSuccess(results)` hold only for the sequential rendering modelled here.
- Runner.ProcessChanges: the message of the exception `limitedParallelism` throws for a worker count below 1 is the library's and is not modelled (the model's message is empty).
- Runner.ProcessChanges: the counters are unbounded integers; Kotlin `Int` overflow needs more than 2^31 units and is not modelled.
- The progress bar and the console output of the counters are left out.
- JSON reading of the input file, writing of the output file, `toStringDefault` and decoding a tool result are library serialisation; a decoded tool result is an input (`None` when decoding fails).
- Argument parsing and the environment-variable defaults of the API keys are left out; `CreateConfig` takes the parsed option values, and the file system is the set of existing input paths.
- The commented-out Gradle Tooling API path, the build script, and the language-model objects the `Model` constants wrap are left out.
- TestRunnerToolSet.RunWithCli: the process's output and error streams are read only after `waitFor()` returns, so a build that fills a pipe blocks forever and `runTests` never returns; the model's `Gradle` function always yields an outcome.
- TestRunnerToolSet.RunTests: the build's own file-system effects are not modelled (the `Gradle` function only reads files). The real `<GRADLE_HOME> test` also writes `build/` and `.gradle/` inside the project, which the deletion removes, and caches under the user's home, and the generated tests run arbitrary code; those writes stay. "Exactly as before" covers only what `runTests` itself creates.
- TestRunnerToolSet.RunTests: the temporary directory name is chosen by the caller, where the operating system chooses a fresh one. A failure of the deletion itself is not modelled, and the process is not given a timeout (neither is the source's).
- `Files.createTempDirectory`, `createDirectories` and `writeText` can throw I/O exceptions; those failures are not modelled.

## Findings

| source | as written | input that shows it | evidently intended | confidence | as-written member | corrected member |
|---|---|---|---|---|---|---|
| src/main/kotlin/org/example/AgentWrapper.kt:164-174 | The two loop-back edges of the model-call node put `onAssistantMessage` after a `transformed` that yields text, so the guard tests a string, never an assistant message, and neither edge is ever taken; a plain answer that may not finish has no edge and the run ends with an exception. | The reply `[AssistantMessage(c)]` with nothing latched: the model-call node has no edge, while the tool-results node sends `c` + "Please run tests, before submitting" back to the model. | The model-call node loops back with the "run tests" or "modified" prompt exactly as the tool-results node does. | medium; not executed; rests on the agent framework's `onAssistantMessage` testing the type of the value after `transformed` | AgentWrapper.NodesDifferOnPlainAnswer | AgentWrapper.IntendedAfterLLMCallDecides |
