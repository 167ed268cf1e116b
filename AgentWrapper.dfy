/**
 * The decision logic around the agent that generates and repairs code for one
 * (API change, model) pair: the `lastTestResult` latch fed by the results of
 * the `run-tests` tool, the conditions on the edges of the agent's graph, and
 * the assembly of the final result in `run()`.
 *
 * The language model and the graph runtime are not modelled. The runtime is
 * taken to try a node's outgoing edges in the order they are declared and to
 * follow the first one whose condition holds. A whole agent run is an input:
 * the tool results the runtime delivered, in order, and whether the run
 * ended normally or with an exception.
 */
module AgentWrapper {
  import opened Nullable
  import opened ApiChangeEntry
  import opened Configuration
  import TestRunnerToolSet

  const RunTestsTool := "run-tests"
  const RunTestsSuffix := "\nPlease run tests, before submitting"
  const ApiModifiedSuffix := "\nYou modified the API change details, before running tests. Please, don't do that and run tests again with the original API details"
  const NoErrorOutput := "No error output"

  /** `lastTestResult?.success ?: false` */
  predicate LatchedSuccess(last: Option<TestResult>)
  {
    last.Some? && last.value.success
  }

  /** `lastTestResult?.apiChange == apiChange`: false when nothing is latched, as null differs from any API change. */
  predicate LatchedMatches(last: Option<TestResult>, apiChange: ApiChange)
  {
    last.Some? && last.value.apiChange == Some(apiChange)
  }

  // ---------------------------------------------------------------------------
  // The latch

  /** One tool result as the event handler receives it; `decoded` is None when decoding it as a `TestResult` fails. */
  datatype ToolCallResult = ToolCallResult(toolName: string, decoded: Option<TestResult>)

  /**
   * The handler `onToolCallResult`: a decoded `run-tests` result replaces the
   * latched one only while that is absent or failing.
   */
  function Latch(last: Option<TestResult>, event: ToolCallResult): (next: Option<TestResult>)
    ensures LatchedSuccess(last) ==> next == last
    ensures event.toolName != RunTestsTool || event.decoded.None? ==> next == last
    ensures event.toolName == RunTestsTool && event.decoded.Some? && !LatchedSuccess(last) ==> next == event.decoded
  {
    if event.toolName == RunTestsTool && !LatchedSuccess(last) && event.decoded.Some? then
      event.decoded
    else
      last
  }

  /** The latch after the runtime has delivered `events` in order. */
  function Replay(last: Option<TestResult>, events: seq<ToolCallResult>): (next: Option<TestResult>)
    ensures last.Some? ==> next.Some?
  {
    if events == [] then last
    else Latch(Replay(last, events[..|events| - 1]), events[|events| - 1])
  }

  /** Reference definition: the first decoded `run-tests` result that succeeded, if any. */
  function FirstSuccess(events: seq<ToolCallResult>): (r: Option<TestResult>)
    ensures r.Some? ==> r.value.success
  {
    if events == [] then None
    else if FirstSuccess(events[..|events| - 1]).Some? then FirstSuccess(events[..|events| - 1])
    else
      var e := events[|events| - 1];
      if e.toolName == RunTestsTool && e.decoded.Some? && e.decoded.value.success then e.decoded else None
  }

  /** Once a successful result is latched, no later tool result replaces it. */
  lemma {:induction false} ReplayKeepsSuccess(last: Option<TestResult>, events: seq<ToolCallResult>)
    requires LatchedSuccess(last)
    ensures Replay(last, events) == last
  {
    if events != [] {
      ReplayKeepsSuccess(last, events[..|events| - 1]);
    }
  }

  /**
   * Starting from an absent or failing result, the latch ends up holding the
   * first successful `run-tests` result when there is one, and a result that
   * is absent or failing when there is none.
   */
  lemma {:induction false} ReplayIsFirstSuccess(last: Option<TestResult>, events: seq<ToolCallResult>)
    requires !LatchedSuccess(last)
    ensures FirstSuccess(events).Some? ==> Replay(last, events) == FirstSuccess(events)
    ensures FirstSuccess(events).None? ==> !LatchedSuccess(Replay(last, events))
  {
    if events != [] {
      var prefix := events[..|events| - 1];
      ReplayIsFirstSuccess(last, prefix);
      if FirstSuccess(prefix).Some? {
        ReplayKeepsSuccess(Replay(last, prefix), []);
      }
    }
  }

  /**
   * The latch only ever holds the initial value or a decoded `run-tests`
   * result that was delivered; other tools and undecodable results never
   * reach it.
   */
  lemma {:induction false} ReplayHoldsDeliveredResult(last: Option<TestResult>, events: seq<ToolCallResult>)
    ensures Replay(last, events) == last ||
      exists i :: 0 <= i < |events| && events[i].toolName == RunTestsTool &&
                  events[i].decoded == Replay(last, events) && events[i].decoded.Some?
  {
    if events != [] {
      var prefix := events[..|events| - 1];
      ReplayHoldsDeliveredResult(last, prefix);
      if Replay(last, events) != Replay(last, prefix) {
        assert events[|events| - 1].decoded == Replay(last, events);
      } else if Replay(last, prefix) != last {
        var i :| 0 <= i < |prefix| && prefix[i].toolName == RunTestsTool &&
                 prefix[i].decoded == Replay(last, prefix) && prefix[i].decoded.Some?;
        assert events[i] == prefix[i];
      }
    }
  }

  // ---------------------------------------------------------------------------
  // Edges of the repair subgraph

  /** One message of the model's reply: a plain answer or a tool call. */
  datatype Message = AssistantMessage(content: string) | ToolCall(content: string)

  /** The model's reply: the list of messages one request returns. */
  type Reply = seq<Message>

  /** Some message of the reply is a tool call. */
  predicate HasToolCall(r: Reply)
  {
    exists i :: 0 <= i < |r| && r[i].ToolCall?
  }

  /** Where an edge of the repair subgraph leads, with what it passes on. */
  datatype RepairTarget = ToFinish(output: string) | ToCallLLM(prompt: string) | ToExecuteTools

  /**
   * The finish edge, given the reply's first message (`it.first()`), guarded
   * by `onAssistantMessage`: the latched result succeeded and is for this API
   * change.
   */
  function FinishEdge(m: Message, last: Option<TestResult>, apiChange: ApiChange): (e: Option<RepairTarget>)
    ensures e.Some? <==> m.AssistantMessage? && LatchedSuccess(last) && LatchedMatches(last, apiChange)
    ensures e.Some? ==> e.value == ToFinish(m.content)
  {
    if m.AssistantMessage? && LatchedSuccess(last) && LatchedMatches(last, apiChange) then Some(ToFinish(m.content)) else None
  }

  /**
   * Loop back asking for a test run, with the text of the reply's first
   * message extended. With `assistantOnly` the guard is `onAssistantMessage`
   * and looks at that message itself, as it was evidently meant to; without
   * it the guard is `onCondition`.
   */
  function RunTestsEdge(m: Message, last: Option<TestResult>, assistantOnly: bool): (e: Option<RepairTarget>)
    ensures e.Some? <==> (m.AssistantMessage? || !assistantOnly) && !LatchedSuccess(last)
    ensures e.Some? ==> e.value == ToCallLLM(m.content + RunTestsSuffix)
  {
    if (m.AssistantMessage? || !assistantOnly) && !LatchedSuccess(last) then Some(ToCallLLM(m.content + RunTestsSuffix)) else None
  }

  /** Loop back complaining that the API change was modified; `assistantOnly` as for `RunTestsEdge`. */
  function ApiModifiedEdge(m: Message, last: Option<TestResult>, apiChange: ApiChange, assistantOnly: bool): (e: Option<RepairTarget>)
    ensures e.Some? <==> (m.AssistantMessage? || !assistantOnly) && !LatchedMatches(last, apiChange)
    ensures e.Some? ==> e.value == ToCallLLM(m.content + ApiModifiedSuffix)
  {
    if (m.AssistantMessage? || !assistantOnly) && !LatchedMatches(last, apiChange) then Some(ToCallLLM(m.content + ApiModifiedSuffix)) else None
  }

  /** The edge to tool execution (`onMultipleToolCalls`), which sees the whole reply. */
  function ToolCallsEdge(r: Reply): (e: Option<RepairTarget>)
    ensures e.Some? <==> HasToolCall(r)
    ensures e.Some? ==> e.value == ToExecuteTools
  {
    if exists i :: 0 <= i < |r| && r[i].ToolCall? then Some(ToExecuteTools) else None
  }

  /** The first edge, in declaration order, whose condition holds; `None` when no edge does. */
  function FirstMatch(edges: seq<Option<RepairTarget>>): Option<RepairTarget>
  {
    if edges == [] then None
    else if edges[0].Some? then edges[0]
    else FirstMatch(edges[1..])
  }

  /** Trying four edges in order. */
  lemma FirstMatchOfFour(a: Option<RepairTarget>, b: Option<RepairTarget>, c: Option<RepairTarget>, d: Option<RepairTarget>)
    ensures FirstMatch([a, b, c, d]) == if a.Some? then a else if b.Some? then b else if c.Some? then c else d
  {
    assert [d][1..] == [];
    assert FirstMatch([d]) == d;
    assert [c, d][1..] == [d];
    assert FirstMatch([c, d]) == if c.Some? then c else d;
    assert [b, c, d][1..] == [c, d];
    assert FirstMatch([b, c, d]) == if b.Some? then b else if c.Some? then c else d;
    assert [a, b, c, d][1..] == [b, c, d];
  }

  /**
   * Edges leaving the model-call node, in declaration order, as written.
   * `None` means the agent run ends with an exception: either no edge holds,
   * or the reply is empty and `it.first()` on the finish edge throws. The
   * two loop-back edges apply `onAssistantMessage` after a `transformed`
   * that turns the reply into text, so their guard tests a string, which is
   * never an assistant message: they never hold.
   */
  function AfterLLMCall(r: Reply, last: Option<TestResult>, apiChange: ApiChange): (d: Option<RepairTarget>)
    ensures d.Some? ==> d.value.ToFinish? || d.value.ToExecuteTools?
    ensures d.Some? && d.value.ToFinish? ==> LatchedSuccess(last) && LatchedMatches(last, apiChange)
  {
    if r == [] then None
    else
      FirstMatchOfFour(FinishEdge(r[0], last, apiChange), None, None, ToolCallsEdge(r));
      FirstMatch([FinishEdge(r[0], last, apiChange), None, None, ToolCallsEdge(r)])
  }

  /** Edges leaving the model-call node as they were evidently meant: the loop-back guards test the first message. */
  function IntendedAfterLLMCall(r: Reply, last: Option<TestResult>, apiChange: ApiChange): (d: Option<RepairTarget>)
    ensures d.Some? <==> r != []
  {
    if r == [] then None
    else
      FirstMatchOfFour(FinishEdge(r[0], last, apiChange), RunTestsEdge(r[0], last, true),
                       ApiModifiedEdge(r[0], last, apiChange, true), ToolCallsEdge(r));
      assert r[0].ToolCall? ==> HasToolCall(r);
      FirstMatch([FinishEdge(r[0], last, apiChange),
                  RunTestsEdge(r[0], last, true),
                  ApiModifiedEdge(r[0], last, apiChange, true),
                  ToolCallsEdge(r)])
  }

  /**
   * Edges leaving the node that sends tool results back, in declaration
   * order. Their loop-back guards are `onCondition`, so on a non-empty reply
   * one of the four edges always holds; on an empty one the tool-call edge
   * does not hold and `it.first()` on the next edge throws.
   */
  function AfterToolResults(r: Reply, last: Option<TestResult>, apiChange: ApiChange): (d: Option<RepairTarget>)
    ensures d.Some? <==> r != []
    ensures d.Some? && d.value.ToFinish? ==> LatchedSuccess(last) && LatchedMatches(last, apiChange)
  {
    if r == [] then None
    else
      FirstMatchOfFour(ToolCallsEdge(r), RunTestsEdge(r[0], last, false),
                       ApiModifiedEdge(r[0], last, apiChange, false), FinishEdge(r[0], last, apiChange));
      FirstMatch([ToolCallsEdge(r),
                  RunTestsEdge(r[0], last, false),
                  ApiModifiedEdge(r[0], last, apiChange, false),
                  FinishEdge(r[0], last, apiChange)])
  }

  /**
   * The decision table of the model-call node as written: a reply that opens
   * with a plain answer finishes exactly when the latched result succeeded
   * for this API change; otherwise a reply with a tool call goes to
   * execution, and any other reply has no edge.
   */
  lemma AfterLLMCallDecides(r: Reply, last: Option<TestResult>, apiChange: ApiChange)
    ensures r == [] ==> AfterLLMCall(r, last, apiChange) == None
    ensures r != [] && r[0].ToolCall? ==> AfterLLMCall(r, last, apiChange) == Some(ToExecuteTools)
    ensures r != [] ==> (AfterLLMCall(r, last, apiChange) == Some(ToFinish(r[0].content)) <==>
      r[0].AssistantMessage? && LatchedSuccess(last) && LatchedMatches(last, apiChange))
    ensures AfterLLMCall(r, last, apiChange) == Some(ToExecuteTools) <==>
      r != [] && HasToolCall(r) && !(r[0].AssistantMessage? && LatchedSuccess(last) && LatchedMatches(last, apiChange))
    ensures AfterLLMCall(r, last, apiChange) == None <==>
      !HasToolCall(r) && !(r != [] && LatchedSuccess(last) && LatchedMatches(last, apiChange))
  {
    if r != [] {
      FirstMatchOfFour(FinishEdge(r[0], last, apiChange), None, None, ToolCallsEdge(r));
      assert r[0].ToolCall? ==> HasToolCall(r);
    }
  }

  /**
   * The decision table the model-call node was meant to have: a reply that
   * opens with a plain answer finishes exactly when the latched result
   * succeeded for this API change, loops back asking for tests when it is
   * absent or failing, and otherwise loops back because the API change was
   * modified; a reply that opens with a tool call goes to execution.
   */
  lemma IntendedAfterLLMCallDecides(r: Reply, last: Option<TestResult>, apiChange: ApiChange)
    ensures r != [] && r[0].ToolCall? ==> IntendedAfterLLMCall(r, last, apiChange) == Some(ToExecuteTools)
    ensures r != [] ==> (IntendedAfterLLMCall(r, last, apiChange) == Some(ToFinish(r[0].content)) <==>
      r[0].AssistantMessage? && LatchedSuccess(last) && LatchedMatches(last, apiChange))
    ensures r != [] ==> (IntendedAfterLLMCall(r, last, apiChange) == Some(ToCallLLM(r[0].content + RunTestsSuffix)) <==>
      r[0].AssistantMessage? && !LatchedSuccess(last))
    ensures r != [] ==> (IntendedAfterLLMCall(r, last, apiChange) == Some(ToCallLLM(r[0].content + ApiModifiedSuffix)) <==>
      r[0].AssistantMessage? && LatchedSuccess(last) && !LatchedMatches(last, apiChange))
  {
    if r != [] {
      FirstMatchOfFour(FinishEdge(r[0], last, apiChange), RunTestsEdge(r[0], last, true),
                       ApiModifiedEdge(r[0], last, apiChange, true), ToolCallsEdge(r));
      assert r[0].ToolCall? ==> HasToolCall(r);
      assert |r[0].content + RunTestsSuffix| != |r[0].content + ApiModifiedSuffix|;
    }
  }

  /**
   * The node that sends tool results back takes the decision the model-call
   * node was meant to take, unless a plain answer precedes tool calls in the
   * reply (then the tool calls win there; see `PendingToolCallsAtFinish`).
   */
  lemma ToolResultsNodeDecidesAsIntended(r: Reply, last: Option<TestResult>, apiChange: ApiChange)
    ensures r == [] || r[0].ToolCall? || !HasToolCall(r) ==>
      AfterToolResults(r, last, apiChange) == IntendedAfterLLMCall(r, last, apiChange)
  {
    if r != [] {
      FirstMatchOfFour(FinishEdge(r[0], last, apiChange), RunTestsEdge(r[0], last, true),
                       ApiModifiedEdge(r[0], last, apiChange, true), ToolCallsEdge(r));
      FirstMatchOfFour(ToolCallsEdge(r), RunTestsEdge(r[0], last, false),
                       ApiModifiedEdge(r[0], last, apiChange, false), FinishEdge(r[0], last, apiChange));
      assert r[0].ToolCall? ==> HasToolCall(r);
    }
  }

  /**
   * A reply that opens with a plain answer and goes on with tool calls, when
   * the subgraph may finish: the model-call node finishes and drops the tool
   * calls, the tool-results node executes them.
   */
  lemma PendingToolCallsAtFinish(content: string, calls: Reply, last: Option<TestResult>, apiChange: ApiChange)
    requires HasToolCall(calls) && LatchedSuccess(last) && LatchedMatches(last, apiChange)
    ensures AfterLLMCall([AssistantMessage(content)] + calls, last, apiChange) == Some(ToFinish(content))
    ensures AfterToolResults([AssistantMessage(content)] + calls, last, apiChange) == Some(ToExecuteTools)
  {
    var r := [AssistantMessage(content)] + calls;
    var i :| 0 <= i < |calls| && calls[i].ToolCall?;
    assert r[i + 1] == calls[i];
    AfterLLMCallDecides(r, last, apiChange);
    FirstMatchOfFour(ToolCallsEdge(r), RunTestsEdge(r[0], last, false),
                     ApiModifiedEdge(r[0], last, apiChange, false), FinishEdge(r[0], last, apiChange));
  }

  /**
   * The two nodes differ on every reply without tool calls that may not
   * finish: the tool-results node loops back to the model, the model-call
   * node has no edge.
   */
  lemma NodesDifferOnPlainAnswer(r: Reply, last: Option<TestResult>, apiChange: ApiChange)
    requires r != [] && !HasToolCall(r) && !(LatchedSuccess(last) && LatchedMatches(last, apiChange))
    ensures AfterLLMCall(r, last, apiChange) == None
    ensures AfterToolResults(r, last, apiChange).Some?
    ensures AfterToolResults(r, last, apiChange).value.ToCallLLM?
  {
    AfterLLMCallDecides(r, last, apiChange);
    ToolResultsNodeDecidesAsIntended(r, last, apiChange);
    IntendedAfterLLMCallDecides(r, last, apiChange);
  }

  /**
   * With nothing latched a reply without tool calls never finishes: after
   * tool results it is sent back asking for a test run, and at the
   * model-call node it has no edge.
   */
  lemma NothingLatchedAsksForTests(r: Reply, apiChange: ApiChange)
    requires r != [] && !HasToolCall(r)
    ensures AfterToolResults(r, None, apiChange) == Some(ToCallLLM(r[0].content + RunTestsSuffix))
    ensures AfterLLMCall(r, None, apiChange) == None
    ensures !LatchedMatches(None, apiChange)
  {
    ToolResultsNodeDecidesAsIntended(r, None, apiChange);
    IntendedAfterLLMCallDecides(r, None, apiChange);
    AfterLLMCallDecides(r, None, apiChange);
  }

  /**
   * A successful result for a different API change, once latched, can never
   * be replaced, so whatever tool results and replies follow, the repair
   * subgraph never finishes: after tool results every reply without tool
   * calls is sent back with the "modified" complaint, and at the model-call
   * node it has no edge.
   */
  lemma {:induction false} LatchedMismatchNeverFinishes(last: Option<TestResult>, events: seq<ToolCallResult>,
                                                        r: Reply, apiChange: ApiChange)
    requires LatchedSuccess(last) && !LatchedMatches(last, apiChange)
    ensures !(AfterToolResults(r, Replay(last, events), apiChange).Some? &&
              AfterToolResults(r, Replay(last, events), apiChange).value.ToFinish?)
    ensures !(AfterLLMCall(r, Replay(last, events), apiChange).Some? &&
              AfterLLMCall(r, Replay(last, events), apiChange).value.ToFinish?)
    ensures r != [] && !HasToolCall(r) ==>
      AfterToolResults(r, Replay(last, events), apiChange) == Some(ToCallLLM(r[0].content + ApiModifiedSuffix))
    ensures !HasToolCall(r) ==> AfterLLMCall(r, Replay(last, events), apiChange) == None
  {
    ReplayKeepsSuccess(last, events);
    ToolResultsNodeDecidesAsIntended(r, last, apiChange);
    IntendedAfterLLMCallDecides(r, last, apiChange);
    AfterLLMCallDecides(r, last, apiChange);
  }

  /**
   * When the latched result is what `run-tests` returned, a reply opening
   * with a plain answer finishes the repair subgraph exactly when the tool
   * was called with the wrapper's own API change and the build exited with 0.
   */
  lemma FinishNeedsOriginalChangeAndPassingBuild(r: Reply, apiChange: ApiChange, passed: ApiChange,
                                                 outcome: TestRunnerToolSet.ProcessOutcome,
                                                 sourceCode: string, gradleBuild: string)
    requires r != [] && r[0].AssistantMessage?
    ensures var last := Some(TestRunnerToolSet.RunTestsResult(outcome, passed, sourceCode, gradleBuild));
      AfterLLMCall(r, last, apiChange) == Some(ToFinish(r[0].content)) <==>
      passed == apiChange && outcome.Exited? && outcome.exitCode == 0
  {
    AfterLLMCallDecides(r, Some(TestRunnerToolSet.RunTestsResult(outcome, passed, sourceCode, gradleBuild)), apiChange);
  }

  // ---------------------------------------------------------------------------
  // The outer graph

  datatype Node = Start | Create | Repair | Finish

  /**
   * Outer edges: start goes to creation, creation to repair, and repair
   * finishes exactly when the latched result succeeded; unlike the repair
   * subgraph, this test does not look at the API change.
   */
  function OuterNext(n: Node, last: Option<TestResult>): (next: Node)
    requires n != Finish
    ensures n == Create ==> next == Repair
    ensures n == Repair ==> (next == Finish <==> LatchedSuccess(last)) && (next == Repair <==> !LatchedSuccess(last))
  {
    match n
    case Start => Create
    case Create => Repair
    case Repair => if LatchedSuccess(last) then Finish else Repair
  }

  /** The outer graph finishes on a latched success even when that result is for another API change. */
  lemma OuterFinishIgnoresApiChange(result: TestResult, apiChange: ApiChange)
    requires result.success && result.apiChange != Some(apiChange)
    ensures OuterNext(Repair, Some(result)) == Finish && !LatchedMatches(Some(result), apiChange)
  {
  }

  /**
   * The outer edges are tried only once the repair subgraph has finished,
   * and either of its nodes finishes only on a latched success for this API
   * change; the outer test then always leads to the finish node, so the
   * edge back into the repair subgraph is never taken.
   */
  lemma RepairFinishLeavesOuterGraph(r: Reply, last: Option<TestResult>, apiChange: ApiChange)
    requires var d := AfterLLMCall(r, last, apiChange); var e := AfterToolResults(r, last, apiChange);
      (d.Some? && d.value.ToFinish?) || (e.Some? && e.value.ToFinish?)
    ensures LatchedMatches(last, apiChange) && OuterNext(Repair, last) == Finish
  {
  }

  // ---------------------------------------------------------------------------
  // The final result

  /** How the agent's run ended: normally, or with a throwable and its (nullable) message. */
  datatype AgentOutcome = Completed | Threw(message: Option<string>)

  /** One agent run as seen from the wrapper. */
  datatype AgentRun = AgentRun(toolResults: seq<ToolCallResult>, outcome: AgentOutcome)

  /** `msg` after the try/catch in `run()`. */
  function CaughtMessage(outcome: AgentOutcome): (msg: string)
    ensures outcome.Threw? && outcome.message.Some? ==> msg == outcome.message.value
    ensures outcome.Completed? || outcome.message.None? ==> msg == NoErrorOutput
  {
    match outcome
    case Completed => NoErrorOutput
    case Threw(m) => m.OrElse(NoErrorOutput)
  }

  /**
   * The result `run()` returns: always for the wrapper's own API change and
   * model, successful exactly when the latched result is, with an error
   * output that is never null; the code, build, output and test details are
   * those of the latched result.
   */
  function FinalResult(apiChange: ApiChange, model: Model, last: Option<TestResult>, outcome: AgentOutcome): (r: TestResult)
    ensures r.apiChange == Some(apiChange) && r.model == Some(model.Name())
    ensures r.success <==> LatchedSuccess(last)
    ensures r.errorOutput.Some?
    ensures last.Some? && last.value.errorOutput.Some? ==> r.errorOutput == last.value.errorOutput
    ensures last.Some? && last.value.errorOutput.None? ==> r.errorOutput == Some(CaughtMessage(outcome))
    ensures last.None? ==> r.errorOutput == Some(CaughtMessage(outcome)) && r.testResults == [] &&
                           r.generatedCode == None && r.gradleBuild == None && r.output == None
    ensures last.Some? ==> r.generatedCode == last.value.generatedCode && r.gradleBuild == last.value.gradleBuild &&
                           r.output == last.value.output && r.testResults == last.value.testResults
  {
    TestResult(
      apiChange := Some(apiChange),
      generatedCode := if last.Some? then last.value.generatedCode else None,
      gradleBuild := if last.Some? then last.value.gradleBuild else None,
      model := Some(model.Name()),
      success := LatchedSuccess(last),
      output := if last.Some? then last.value.output else None,
      errorOutput := Some(if last.Some? && last.value.errorOutput.Some? then last.value.errorOutput.value
                          else CaughtMessage(outcome)),
      testResults := if last.Some? then last.value.testResults else [])
  }

  /**
   * What `run()` of a freshly built wrapper returns for a given agent run: a
   * result for its own API change and model that succeeds exactly when some
   * `run-tests` call of the run returned a decodable successful result, and
   * then carries the first such result's code, build and output.
   */
  function RunResult(apiChange: ApiChange, model: Model, run: AgentRun): (r: TestResult)
    ensures r.apiChange == Some(apiChange) && r.model == Some(model.Name())
    ensures r.success <==> FirstSuccess(run.toolResults).Some?
    ensures FirstSuccess(run.toolResults).Some? ==>
      var first := FirstSuccess(run.toolResults).value;
      r.generatedCode == first.generatedCode && r.gradleBuild == first.gradleBuild && r.output == first.output
  {
    ReplayIsFirstSuccess(None, run.toolResults);
    FinalResult(apiChange, model, Replay(None, run.toolResults), run.outcome)
  }

  /**
   * A run whose only successful test ran against a modified API change is
   * still reported as a success, stamped with the original API change.
   */
  lemma MismatchedSuccessIsReported(apiChange: ApiChange, model: Model, latched: TestResult, outcome: AgentOutcome)
    requires latched.success && latched.apiChange != Some(apiChange)
    ensures var r := RunResult(apiChange, model, AgentRun([ToolCallResult(RunTestsTool, Some(latched))], outcome));
      r.success && r.apiChange == Some(apiChange)
  {
    assert Replay(None, [ToolCallResult(RunTestsTool, Some(latched))]) == Some(latched);
  }

  class AgentWrapper {
    const model: Model
    const apiChange: ApiChange
    const openaiApiKey: string
    const antropicApiKey: string
    const maxAgentIterations: int
    var lastTestResult: Option<TestResult>

    constructor (model: Model, apiChange: ApiChange, openaiApiKey: string, antropicApiKey: string, maxAgentIterations: int)
      ensures this.model == model && this.apiChange == apiChange
      ensures this.openaiApiKey == openaiApiKey && this.antropicApiKey == antropicApiKey
      ensures this.maxAgentIterations == maxAgentIterations
      ensures lastTestResult == None
    {
      this.model := model;
      this.apiChange := apiChange;
      this.openaiApiKey := openaiApiKey;
      this.antropicApiKey := antropicApiKey;
      this.maxAgentIterations := maxAgentIterations;
      lastTestResult := None;
    }

    /** The `onToolCallResult` event handler. */
    method OnToolCallResult(event: ToolCallResult)
      modifies this
      ensures lastTestResult == Latch(old(lastTestResult), event)
      ensures LatchedSuccess(old(lastTestResult)) ==> lastTestResult == old(lastTestResult)
    {
      if event.toolName == RunTestsTool {
        if lastTestResult.None? || !lastTestResult.value.success {
          match event.decoded
          case Some(result) => lastTestResult := Some(result);
          case None =>   // decoding threw; the exception is logged and dropped
        }
      }
    }

    /**
     * `run()`: the runtime delivers each tool result to the handler while the
     * agent runs; an exception ending the run is caught and its message kept.
     * Nothing escapes, and the result is assembled from the latch.
     */
    method Run(run: AgentRun) returns (r: TestResult)
      modifies this
      ensures lastTestResult == Replay(old(lastTestResult), run.toolResults)
      ensures r == FinalResult(apiChange, model, lastTestResult, run.outcome)
    {
      var msg := NoErrorOutput;
      for i := 0 to |run.toolResults|
        invariant lastTestResult == Replay(old(lastTestResult), run.toolResults[..i])
      {
        assert run.toolResults[..i + 1][..i] == run.toolResults[..i];
        OnToolCallResult(run.toolResults[i]);
      }
      assert run.toolResults[..|run.toolResults|] == run.toolResults;
      if run.outcome.Threw? {
        msg := run.outcome.message.OrElse(NoErrorOutput);
      }
      r := TestResult(
        apiChange := Some(apiChange),
        generatedCode := if lastTestResult.Some? then lastTestResult.value.generatedCode else None,
        gradleBuild := if lastTestResult.Some? then lastTestResult.value.gradleBuild else None,
        model := Some(model.Name()),
        success := lastTestResult.Some? && lastTestResult.value.success,
        output := if lastTestResult.Some? then lastTestResult.value.output else None,
        errorOutput := Some(if lastTestResult.Some? && lastTestResult.value.errorOutput.Some?
                            then lastTestResult.value.errorOutput.value else msg),
        testResults := if lastTestResult.Some? then lastTestResult.value.testResults else []);
    }
  }
}
