/**
  The test loop of tf_cnn_benchmarks (test_runners/tf_cnn_bench/run_benchmark.py):
  the shared settings laid over each sub-config, the single run of an
  ordinary config, and the OOM search that bisects the batch size. Running
  a benchmark and reading its log for an out-of-memory failure is the
  oracle `oom`: whether the given batch size runs out of memory.
 */
module RunBenchmark {
  import opened Wrappers
  import opened Values
  import opened TfCnnReporting

  // ------------------------------------------------------------ merge

  /** run_tests: a copy of the sub-config with every shared setting of the
      global config except 'run_configs' written over it (nothing when the
      global config is empty); the sub-config itself is a value and stays
      as it was. */
  method MergeGlobalConfig(runConfig: Config, globalConfig: Config) returns (full: Config)
    ensures full.Keys == runConfig.Keys + (globalConfig.Keys - {"run_configs"})
    ensures forall k :: k in globalConfig && k != "run_configs" ==> full[k] == globalConfig[k]
    ensures forall k :: k in runConfig && (k !in globalConfig || k == "run_configs") ==> full[k] == runConfig[k]
  {
    full := runConfig;
    if globalConfig != map[] {
      full := OverlaySettings(full, globalConfig);
    }
  }

  // ------------------------------------------------------------ OOM search

  /** The lowest out-of-memory size the loop records: `high` at first, then
      each tried size that ran out of memory and is lower. */
  function MinOom(high: int, tried: seq<int>, oom: int -> bool): (m: int)
    ensures m <= high
    ensures m == high || exists k :: 0 <= k < |tried| && oom(tried[k]) && tried[k] == m
    ensures forall k :: 0 <= k < |tried| && oom(tried[k]) ==> m <= tried[k]
  {
    if tried == [] then high
    else
      var m := MinOom(high, tried[..|tried| - 1], oom);
      var t := tried[|tried| - 1];
      assert forall k :: 0 <= k < |tried| - 1 ==> tried[..|tried| - 1][k] == tried[k];
      if oom(t) && t < m then t else m
  }

  /** The outcome of an OOM search: the sizes tried, in order, and the
      lowest size that ran out of memory (or the upper bound). */
  datatype OomOutcome = OomOutcome(tried: seq<int>, lowestOom: int)

  /** The OOM loop of run_test_suite, with the bounds checked first: the
      first size tried is `oom_high`, every size tried lies within the
      bounds, the recorded lowest size is the minimum of `oom_high` and the
      sizes that ran out of memory, and when the loop stops that size is
      within one of the upper bound, of `oom_low`, or of a tried size that
      fit. Bounds that are inverted, or negative (where the -1 that ends
      the search could be a size), are rejected. */
  method OomSearch(oomLow: int, oomHigh: int, oom: int -> bool) returns (r: Result<OomOutcome>)
    ensures r.Success? <==> 0 <= oomLow <= oomHigh
    ensures r.Success? ==> SearchFacts(oomLow, oomHigh, oom, r.value)
  {
    if oomLow > oomHigh || oomLow < 0 {
      return Failure("ValueError: oom_low must lie between 0 and oom_high");
    }
    var low, high, next := oomLow, oomHigh, oomHigh;
    var lowest := oomHigh;
    var tried: seq<int> := [];
    while next != -1
      invariant SearchInv(oomLow, oomHigh, oom, low, high, tried)
      invariant lowest == high
      invariant next != -1 ==> low <= next <= high
      invariant tried == [] ==> next == oomHigh
      invariant next == -1 ==> tried != [] && high - low <= 1
      decreases if next == -1 then 0 else 2 * (high - low) + (if low < next < high then 1 else 2)
    {
      var isOom := oom(next);
      if isOom && next < lowest {
        lowest := next;
      }
      OomStepNarrows(low, high, next, isOom);
      SearchStep(oomLow, oomHigh, oom, low, high, next, tried);
      var step := OomBatchSizeSearch(low, high, next, isOom);
      tried := tried + [next];
      low, high, next := step.0, step.1, step.2;
    }
    return Success(OomOutcome(tried, lowest));
  }

  /** What a finished search promises: the first size tried is `oom_high`,
      every size tried lies within the bounds, the recorded lowest size is
      the minimum of `oom_high` and the sizes that ran out of memory (so it
      is `oom_high` or a size that ran out of memory), and it is within one
      of `oom_low` or of a tried size that fit. */
  ghost predicate SearchFacts(oomLow: int, oomHigh: int, oom: int -> bool, o: OomOutcome) {
    var tried := o.tried;
    var lowest := o.lowestOom;
    && |tried| > 0 && tried[0] == oomHigh
    && (forall k :: 0 <= k < |tried| ==> oomLow <= tried[k] <= oomHigh)
    && lowest == MinOom(oomHigh, tried, oom)
    && (lowest == oomHigh || oom(lowest))
    && (lowest - 1 <= oomLow
        || exists k :: 0 <= k < |tried| && !oom(tried[k]) && lowest - 1 <= tried[k] <= lowest)
  }

  /** What the OOM loop keeps between steps: the bounds stay within the
      configured ones, `high` is the lowest out-of-memory size recorded and
      is the configured bound or a size that ran out of memory, and `low` is
      the configured bound or a size that fit. */
  ghost predicate SearchInv(oomLow: int, oomHigh: int, oom: int -> bool, low: int, high: int, tried: seq<int>) {
    && 0 <= oomLow <= low <= high <= oomHigh
    && (tried != [] ==> tried[0] == oomHigh)
    && (forall k :: 0 <= k < |tried| ==> oomLow <= tried[k] <= oomHigh)
    && high == MinOom(oomHigh, tried, oom)
    && (forall k :: 0 <= k < |tried| && oom(tried[k]) ==> high <= tried[k])
    && (high == oomHigh || oom(high))
    && (low == oomLow || exists k :: 0 <= k < |tried| && !oom(tried[k]) && tried[k] == low)
  }

  /** One step of the loop keeps its invariant. */
  lemma SearchStep(oomLow: int, oomHigh: int, oom: int -> bool, low: int, high: int, next: int, tried: seq<int>)
    requires SearchInv(oomLow, oomHigh, oom, low, high, tried)
    requires low <= next <= high
    requires tried == [] ==> next == oomHigh
    ensures var step := OomBatchSizeSearch(low, high, next, oom(next));
      SearchInv(oomLow, oomHigh, oom, step.0, step.1, tried + [next])
  {
    var tried' := tried + [next];
    assert tried'[..|tried'| - 1] == tried;
    assert tried'[|tried'| - 1] == next;
    OomStepNarrows(low, high, next, oom(next));
  }

  /** The runs one test config of a suite gets, the error that ended them
      (if any), and the search behind them for an OOM test. */
  datatype TestRuns = TestRuns(runs: seq<Config>, error: Option<string>, search: Option<OomOutcome>)

  /** The out-of-memory oracle restricted to integer batch sizes. */
  function IntOracle(oom: Value -> bool): (f: int -> bool)
    ensures forall n :: f(n) == oom(Int(n))
  {
    n => oom(Int(n))
  }

  /** One test config of run_test_suite. A config without a truthy
      `oom_test` runs exactly once, as it is. An OOM test reads `oom_low`
      and then `oom_high` (a missing one is a KeyError before any run).
      With integer bounds it runs once per size the search tries, with
      `batch_size` set to that size. With a bound that is not an integer the
      first run, at `oom_high`, still happens; the bisection step then
      subtracts the bounds, which is a TypeError unless `oom_high` is an
      integer that fit (the step then ends the search). */
  method RunTestConfig(testConfig: Config, oom: Value -> bool) returns (r: TestRuns)
    ensures !Truthy(GetOr(testConfig, "oom_test", Null)) ==> r == TestRuns([testConfig], None, None)
    ensures Truthy(GetOr(testConfig, "oom_test", Null)) && ("oom_low" !in testConfig || "oom_high" !in testConfig) ==>
      r.runs == [] && r.error.Some? && r.search.None?
    ensures Truthy(GetOr(testConfig, "oom_test", Null)) && "oom_low" in testConfig && "oom_high" in testConfig
            && testConfig["oom_low"].Int? && testConfig["oom_high"].Int? ==>
      var low := testConfig["oom_low"].i;
      var high := testConfig["oom_high"].i;
      && (r.error.None? <==> 0 <= low <= high)
      && (r.error.Some? ==> r.runs == [] && r.search.None?)
      && (r.error.None? ==>
            && r.search.Some?
            && SearchFacts(low, high, IntOracle(oom), r.search.value)
            && |r.runs| == |r.search.value.tried|
            && forall k :: 0 <= k < |r.runs| ==> r.runs[k] == testConfig["batch_size" := Int(r.search.value.tried[k])])
    ensures Truthy(GetOr(testConfig, "oom_test", Null)) && "oom_low" in testConfig && "oom_high" in testConfig
            && !(testConfig["oom_low"].Int? && testConfig["oom_high"].Int?) ==>
      var high := testConfig["oom_high"];
      && r.runs == [testConfig["batch_size" := high]]
      && r.search.None?
      && (r.error.None? <==> high.Int? && !oom(high))
  {
    if !Truthy(GetOr(testConfig, "oom_test", Null)) {
      return TestRuns([testConfig], None, None);
    }
    var lowV := Lookup(testConfig, "oom_low");
    if lowV.Failure? {
      return TestRuns([], Some(lowV.error), None);
    }
    var highV := Lookup(testConfig, "oom_high");
    if highV.Failure? {
      return TestRuns([], Some(highV.error), None);
    }
    if !lowV.value.Int? || !highV.value.Int? {
      var first := testConfig["batch_size" := highV.value];
      if highV.value.Int? && !oom(highV.value) {
        return TestRuns([first], None, None);
      }
      return TestRuns([first], Some("TypeError: unsupported operand type(s) for -"), None);
    }
    var search := OomSearch(lowV.value.i, highV.value.i, IntOracle(oom));
    if search.Failure? {
      return TestRuns([], Some(search.error), None);
    }
    var tried := search.value.tried;
    var runs: seq<Config> := [];
    for j := 0 to |tried|
      invariant |runs| == j
      invariant forall k :: 0 <= k < j ==> runs[k] == testConfig["batch_size" := Int(tried[k])]
    {
      runs := runs + [testConfig["batch_size" := Int(tried[j])]];
    }
    return TestRuns(runs, None, Some(search.value));
  }
}
