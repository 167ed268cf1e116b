/**
 * The dispatcher: every API change is evaluated with every configured model,
 * each unit by a fresh agent wrapper; a result that names another API change
 * is overridden as a failure; running totals are kept; and the results come
 * back in dispatch order.
 *
 * The units run on a bounded pool of coroutines in the source. Here they run
 * one after another: each unit's agent run is an input, so the order in which
 * units finish cannot change any result, and the results are collected by
 * dispatch position as `awaitAll` does.
 */
module Runner {
  import opened Nullable
  import opened ApiChangeEntry
  import opened Configuration
  import opened AgentWrapper

  /** One (API change, model) pair. */
  datatype Unit = Unit(apiChange: ApiChange, model: Model)

  /** `apiChanges.flatMap { c -> models.map { m -> (c, m) } }` */
  function Units(apiChanges: seq<ApiChange>, models: seq<Model>): (units: seq<Unit>)
    ensures forall k :: 0 <= k < |units| ==> units[k].apiChange in apiChanges && units[k].model in models
  {
    if apiChanges == [] then []
    else seq(|models|, j requires 0 <= j < |models| => Unit(apiChanges[0], models[j])) + Units(apiChanges[1..], models)
  }

  /** `i * width`, built up by addition so that index arithmetic stays linear. */
  function Offset(i: nat, width: nat): nat
  {
    if i == 0 then 0 else Offset(i - 1, width) + width
  }

  lemma {:induction false} OffsetIsProduct(i: nat, width: nat)
    ensures Offset(i, width) == i * width
  {
    if i > 0 {
      OffsetIsProduct(i - 1, width);
      assert i * width == (i - 1) * width + width;
    }
  }

  /** There is one unit per (change, model) pair. */
  lemma {:induction false} UnitsLength(apiChanges: seq<ApiChange>, models: seq<Model>)
    ensures |Units(apiChanges, models)| == Offset(|apiChanges|, |models|)
    ensures |Units(apiChanges, models)| == |apiChanges| * |models|
  {
    if apiChanges != [] {
      UnitsLength(apiChanges[1..], models);
    }
    OffsetIsProduct(|apiChanges|, |models|);
  }

  /** `UnitAt` with the position built up by addition. */
  lemma {:induction false} UnitAtOffset(apiChanges: seq<ApiChange>, models: seq<Model>, i: nat, j: nat)
    requires i < |apiChanges| && j < |models|
    ensures Offset(i, |models|) + j < |Units(apiChanges, models)|
    ensures Units(apiChanges, models)[Offset(i, |models|) + j] == Unit(apiChanges[i], models[j])
  {
    var m := |models|;
    var head := seq(m, k requires 0 <= k < m => Unit(apiChanges[0], models[k]));
    var tail := apiChanges[1..];
    assert Units(apiChanges, models) == head + Units(tail, models);
    if i > 0 {
      UnitAtOffset(tail, models, i - 1, j);
      assert tail[i - 1] == apiChanges[i];
    }
  }

  /**
   * Units are ordered change-major with the models in configuration order:
   * change i with model j is unit i * |models| + j.
   */
  lemma UnitAt(apiChanges: seq<ApiChange>, models: seq<Model>, i: nat, j: nat)
    requires i < |apiChanges| && j < |models|
    ensures i * |models| + j < |Units(apiChanges, models)|
    ensures Units(apiChanges, models)[i * |models| + j] == Unit(apiChanges[i], models[j])
  {
    UnitAtOffset(apiChanges, models, i, j);
    OffsetIsProduct(i, |models|);
  }

  const MismatchOutput := "API change mismatch"

  /**
   * The dispatcher's own consistency check: a result that names another API
   * change becomes a failure with a mismatch diagnostic as its output; every
   * other field, and a matching result as a whole, is left as it is.
   */
  function Override(result: TestResult, apiChange: ApiChange): (r: TestResult)
    ensures result.apiChange == Some(apiChange) ==> r == result
    ensures result.apiChange != Some(apiChange) ==> !r.success && r.output == Some(MismatchOutput)
    ensures r.(success := result.success, output := result.output) == result
    ensures r.success ==> r.apiChange == Some(apiChange)
  {
    if result.apiChange != Some(apiChange) then
      result.(success := false, output := Some(MismatchOutput))
    else
      result
  }

  /** The number of successful results. */
  function CountSuccess(results: seq<TestResult>): (n: nat)
    ensures n <= |results|
    ensures n == |results| <==> forall k :: 0 <= k < |results| ==> results[k].success
  {
    if results == [] then 0
    else CountSuccess(results[..|results| - 1]) + (if results[|results| - 1].success then 1 else 0)
  }

  /** Appending one result adds one to the count exactly when it succeeded. */
  lemma CountSuccessAppend(results: seq<TestResult>, result: TestResult)
    ensures CountSuccess(results + [result]) == CountSuccess(results) + (if result.success then 1 else 0)
  {
    assert (results + [result])[..|results|] == results;
  }

  /** `executeEntry`: a fresh agent wrapper for the unit, and the result of its `run()`. */
  method ExecuteEntry(config: Config, apiChange: ApiChange, model: Model, run: AgentRun) returns (r: TestResult)
    ensures r == RunResult(apiChange, model, run)
    ensures r.apiChange == Some(apiChange) && r.model == Some(model.Name())
  {
    var agentWrapper := new AgentWrapper(model, apiChange, config.openaiApiKey, config.antropicApiKey,
                                         config.maxAgentIterations);
    r := agentWrapper.Run(run);
  }

  /**
   * The result the dispatcher records for one unit: it names the unit's API
   * change and model, and succeeds exactly when some `run-tests` call of the
   * unit's agent run returned a decodable successful result.
   */
  function Dispatched(unit: Unit, run: AgentRun): (r: TestResult)
    ensures r.apiChange == Some(unit.apiChange) && r.model == Some(unit.model.Name())
    ensures r.success <==> FirstSuccess(run.toolResults).Some?
  {
    Override(RunResult(unit.apiChange, unit.model, run), unit.apiChange)
  }

  /** The results of dispatching `units` one after another, in dispatch order. */
  function DispatchAll(units: seq<Unit>, runs: seq<AgentRun>): (results: seq<TestResult>)
    requires |units| == |runs|
    ensures |results| == |units|
  {
    if units == [] then []
    else DispatchAll(units[..|units| - 1], runs[..|runs| - 1]) + [Dispatched(units[|units| - 1], runs[|runs| - 1])]
  }

  /** Dispatching one more unit appends its result. */
  lemma DispatchAllAppend(units: seq<Unit>, runs: seq<AgentRun>, k: nat)
    requires |units| == |runs| && k < |units|
    ensures DispatchAll(units[..k + 1], runs[..k + 1]) == DispatchAll(units[..k], runs[..k]) + [Dispatched(units[k], runs[k])]
  {
    assert units[..k + 1][..k] == units[..k] && runs[..k + 1][..k] == runs[..k];
  }

  /** The k-th dispatched result is the k-th unit's result. */
  lemma {:induction false} DispatchAllAt(units: seq<Unit>, runs: seq<AgentRun>, k: nat)
    requires |units| == |runs| && k < |units|
    ensures DispatchAll(units, runs)[k] == Dispatched(units[k], runs[k])
  {
    if k < |units| - 1 {
      DispatchAllAt(units[..|units| - 1], runs[..|runs| - 1], k);
    }
  }

  /**
   * Every result in dispatch order is its unit's result and names the unit's
   * API change and model.
   */
  lemma DispatchAllNamesUnits(units: seq<Unit>, runs: seq<AgentRun>)
    requires |units| == |runs|
    ensures forall k :: 0 <= k < |units| ==> DispatchAll(units, runs)[k] == Dispatched(units[k], runs[k])
    ensures forall k :: 0 <= k < |units| ==>
      DispatchAll(units, runs)[k].apiChange == Some(units[k].apiChange) &&
      DispatchAll(units, runs)[k].model == Some(units[k].model.Name())
  {
    forall k | 0 <= k < |units|
      ensures DispatchAll(units, runs)[k] == Dispatched(units[k], runs[k])
    {
      DispatchAllAt(units, runs, k);
    }
  }

  /**
   * Since `run()` stamps every result with the wrapper's own API change, the
   * dispatcher's override never fires on results that come from the agent.
   */
  lemma OverrideNeverFiresOnAgentResults(unit: Unit, run: AgentRun)
    ensures Dispatched(unit, run) == RunResult(unit.apiChange, unit.model, run)
  {
  }

  /**
   * Results recorded unit by unit in dispatch order have the result for
   * change i and model j at position i * |models| + j.
   */
  lemma ResultOrder(apiChanges: seq<ApiChange>, models: seq<Model>, runs: seq<AgentRun>, results: seq<TestResult>,
                    i: nat, j: nat)
    requires |runs| == |results| == |Units(apiChanges, models)|
    requires forall k :: 0 <= k < |results| ==> results[k] == Dispatched(Units(apiChanges, models)[k], runs[k])
    requires i < |apiChanges| && j < |models|
    ensures i * |models| + j < |results|
    ensures results[i * |models| + j].apiChange == Some(apiChanges[i])
    ensures results[i * |models| + j].model == Some(models[j].Name())
  {
    UnitAt(apiChanges, models, i, j);
    OffsetIsProduct(i, |models|);
    ResultNamesUnit(Units(apiChanges, models), runs, results, i * |models| + j);
  }

  /** A result recorded for a unit names that unit. */
  lemma ResultNamesUnit(units: seq<Unit>, runs: seq<AgentRun>, results: seq<TestResult>, k: nat)
    requires |runs| == |results| == |units| && k < |results|
    requires forall t :: 0 <= t < |results| ==> results[t] == Dispatched(units[t], runs[t])
    ensures results[k].apiChange == Some(units[k].apiChange) && results[k].model == Some(units[k].model.Name())
  {
  }

  /**
   * The task launched for one unit: `executeEntry`, then the mismatch
   * override.
   */
  method DispatchUnit(config: Config, unit: Unit, run: AgentRun) returns (result: TestResult)
    ensures result == Dispatched(unit, run)
  {
    result := ExecuteEntry(config, unit.apiChange, unit.model, run);
    if result.apiChange != Some(unit.apiChange) {
      result := result.(success := false, output := Some(MismatchOutput));
    }
  }

  /**
   * The tasks of `processChanges` over `units`, awaited in dispatch order,
   * with the running counters: `total` counts every finished unit once and
   * `success` the successful results.
   */
  method DispatchUnits(config: Config, units: seq<Unit>, runs: seq<AgentRun>)
    returns (results: seq<TestResult>, total: int, success: int)
    requires |units| == |runs|
    ensures results == DispatchAll(units, runs)
    ensures total == |results| && success == CountSuccess(results) && 0 <= success <= total
  {
    results, total, success := [], 0, 0;
    for k := 0 to |units|
      invariant results == DispatchAll(units[..k], runs[..k])
      invariant total == k && success == CountSuccess(results)
    {
      var result := DispatchUnit(config, units[k], runs[k]);
      total := total + 1;
      success := success + (if result.success then 1 else 0);
      CountSuccessAppend(results, result);
      DispatchAllAppend(units, runs, k);
      results := results + [result];
    }
    assert units[..|units|] == units && runs[..|runs|] == runs;
  }

  /**
   * `processChanges`, with `runs[k]` the agent run of the k-th unit in
   * dispatch order. `limitedParallelism` throws before any unit starts when
   * `config.workers` is not positive (`createConfig` does not check it).
   * Otherwise the k-th result is that unit's (possibly overridden) result,
   * the result for change i and model j sits at i * |models| + j
   * (`ResultOrder`), `total` counts every unit once and `success` the
   * successful results.
   */
  method ProcessChanges(config: Config, apiChanges: seq<ApiChange>, runs: seq<AgentRun>)
    returns (outcome: Thrown<seq<TestResult>>, total: int, success: int)
    requires |runs| == |apiChanges| * |config.models|
    ensures outcome.Threw? <==> config.workers < 1
    ensures outcome.Threw? ==> total == 0 && success == 0
    ensures outcome.Returned? ==>
      |outcome.value| == |Units(apiChanges, config.models)| == |apiChanges| * |config.models|
    ensures outcome.Returned? ==> forall k :: 0 <= k < |outcome.value| ==>
      outcome.value[k] == Dispatched(Units(apiChanges, config.models)[k], runs[k])
    ensures outcome.Returned? ==> forall k :: 0 <= k < |outcome.value| ==>
      outcome.value[k].apiChange == Some(Units(apiChanges, config.models)[k].apiChange) &&
      outcome.value[k].model == Some(Units(apiChanges, config.models)[k].model.Name())
    ensures outcome.Returned? ==>
      total == |outcome.value| && success == CountSuccess(outcome.value) && 0 <= success <= total
  {
    if config.workers < 1 {
      // The library's message (it names the rejected value) is not modelled.
      return Thrown.Threw(""), 0, 0;
    }
    var units := Units(apiChanges, config.models);
    UnitsLength(apiChanges, config.models);
    var results;
    results, total, success := DispatchUnits(config, units, runs);
    DispatchAllNamesUnits(units, runs);
    outcome := Thrown.Returned(results);
  }
}
