/**
  Report defaults and the aggregation of repeated runs
  (test_runners/common/util.py).
 */
module Util {
  import opened Wrappers
  import opened Values
  import opened Records

  // ------------------------------------------------------------ report defaults

  /** The default each report setting takes when the report config lacks it;
      `test_harness` defaults to the caller's argument. */
  function ReportDefault(key: string, testHarness: Value): Value {
    if key == "report_project" then Str("google.com:tensorflow-performance")
    else if key == "report_dataset" then Str("benchmark_results_dev")
    else if key == "report_table" then Str("result")
    else if key == "test_harness" then testHarness
    else Str("unknown")
  }

  const REPORT_KEYS: set<string> := {
    "report_project", "report_dataset", "report_table", "test_harness",
    "test_environment", "platform", "platform_type", "accel_type"
  }

  /** report_config_defaults: a new mapping with every report setting; the
      settings given keep their values, the missing ones take the default,
      and every other key is copied unchanged. */
  function ReportConfigDefaults(reportConfig: Config, testHarness: Value): (config: Config)
    ensures config.Keys == reportConfig.Keys + REPORT_KEYS
    ensures forall k :: k in reportConfig ==> config[k] == reportConfig[k]
    ensures forall k :: k in REPORT_KEYS && k !in reportConfig ==> config[k] == ReportDefault(k, testHarness)
  {
    reportConfig + map k | k in REPORT_KEYS :: GetOr(reportConfig, k, ReportDefault(k, testHarness))
  }

  /** Filling in defaults a second time changes nothing, whatever harness
      name is passed the second time. */
  lemma ReportConfigDefaultsIdempotent(reportConfig: Config, h1: Value, h2: Value)
    ensures ReportConfigDefaults(ReportConfigDefaults(reportConfig, h1), h2) == ReportConfigDefaults(reportConfig, h1)
  {
  }

  // ------------------------------------------------------------ aggregation

  /** The aggregate: a copy of the first result plus the summary numbers. */
  datatype Aggregate = Aggregate(base: ResultRecord, samples: nat, mean: real, max: real, min: real)

  function Sum(s: seq<real>): real {
    if s == [] then 0.0 else Sum(s[..|s| - 1]) + s[|s| - 1]
  }

  predicate SortedReals(s: seq<real>) {
    forall i, j :: 0 <= i < j < |s| ==> s[i] <= s[j]
  }

  /** `x` placed into a sorted sequence. */
  function Insert(x: real, s: seq<real>): (r: seq<real>)
    requires SortedReals(s)
    ensures SortedReals(r)
    ensures multiset(r) == multiset(s) + multiset{x}
  {
    if s == [] || x <= s[0] then [x] + s
    else
      var tail := Insert(x, s[1..]);
      assert s == [s[0]] + s[1..];
      assert tail[0] in multiset(tail);
      [s[0]] + tail
  }

  /** list.sort() on numbers: ascending, the same multiset. */
  function Sort(s: seq<real>): (r: seq<real>)
    ensures SortedReals(r)
    ensures multiset(r) == multiset(s)
    ensures |r| == |s|
  {
    if s == [] then []
    else
      assert s == [s[0]] + s[1..];
      Insert(s[0], Sort(s[1..]))
  }

  /** The sum is unchanged by reordering. */
  lemma {:induction false} SumPermutation(a: seq<real>, b: seq<real>)
    requires multiset(a) == multiset(b)
    ensures Sum(a) == Sum(b)
    decreases |a|
  {
    if a != [] {
      var x := a[|a| - 1];
      assert x in multiset(b);
      var i :| 0 <= i < |b| && b[i] == x;
      var b' := b[..i] + b[i + 1..];
      assert b == b[..i] + [x] + b[i + 1..];
      assert multiset(b') == multiset(b) - multiset{x};
      assert a == a[..|a| - 1] + [x];
      assert multiset(a[..|a| - 1]) == multiset(a) - multiset{x};
      SumPermutation(a[..|a| - 1], b');
      SumRemove(b, i);
    }
  }

  lemma {:induction false} SumRemove(s: seq<real>, i: nat)
    requires i < |s|
    ensures Sum(s) == Sum(s[..i] + s[i + 1..]) + s[i]
    decreases |s|
  {
    if i < |s| - 1 {
      var t := s[..|s| - 1];
      SumRemove(t, i);
      assert t[..i] + t[i + 1..] == (s[..i] + s[i + 1..])[..|s| - 2];
      assert (s[..i] + s[i + 1..])[|s| - 2] == s[|s| - 1];
    } else {
      assert s[..i] + s[i + 1..] == s[..|s| - 1];
    }
  }

  /** Every number lies between the smallest and the largest. */
  lemma {:induction false} SumBounds(s: seq<real>, lo: real, hi: real)
    requires forall k :: 0 <= k < |s| ==> lo <= s[k] <= hi
    ensures |s| as real * lo <= Sum(s) <= |s| as real * hi
  {
    if s != [] {
      SumBounds(s[..|s| - 1], lo, hi);
    }
  }

  /** numpy.mean of a non-empty list lies between its minimum and maximum. */
  lemma MeanBetween(s: seq<real>, lo: real, hi: real)
    requires |s| > 0
    requires forall k :: 0 <= k < |s| ==> lo <= s[k] <= hi
    ensures lo <= Sum(s) / |s| as real <= hi
  {
    SumBounds(s, lo, hi);
    var n := |s| as real;
    DivideBounds(Sum(s), lo, hi, n);
  }

  lemma DivideBounds(a: real, lo: real, hi: real, n: real)
    requires n > 0.0 && n * lo <= a <= n * hi
    ensures lo <= a / n <= hi
  {
    assert (a / n) * n == a;
  }

  /** Every result has `imgs_sec`. */
  predicate AllHaveSpeed(results: seq<ResultRecord>) {
    forall i :: 0 <= i < |results| ==> results[i].imgsSec.Some?
  }

  function Speeds(results: seq<ResultRecord>): (s: seq<real>)
    requires AllHaveSpeed(results)
    ensures |s| == |results|
    ensures forall i :: 0 <= i < |s| ==> s[i] == results[i].imgsSec.value
  {
    seq(|results|, i requires 0 <= i < |results| => results[i].imgsSec.value)
  }

  /** report_aggregate_results: the first result's copy with `samples`,
      `mean`, `max` and `min` of the `imgs_sec` values. An empty list raises
      IndexError; a first result without `test_id`, or any result without
      `imgs_sec`, raises KeyError. */
  method ReportAggregateResults(resultsList: seq<ResultRecord>) returns (r: Result<Aggregate>)
    ensures r.Success? <==> |resultsList| > 0 && resultsList[0].testId.Some? && AllHaveSpeed(resultsList)
    ensures r.Success? ==>
      var s := Speeds(resultsList);
      && r.value.base == resultsList[0]
      && r.value.samples == |resultsList|
      && r.value.mean == Sum(s) / |s| as real
      && r.value.min in s && r.value.max in s
      && (forall i :: 0 <= i < |s| ==> r.value.min <= s[i] <= r.value.max)
      && r.value.min <= r.value.mean <= r.value.max
  {
    if |resultsList| == 0 {
      return Failure("IndexError: list index out of range");
    }
    if resultsList[0].testId.None? {
      return Failure("KeyError: test_id");
    }
    var aggBase := resultsList[0];
    var results: seq<real> := [];
    for i := 0 to |resultsList|
      invariant AllHaveSpeed(resultsList[..i])
      invariant results == Speeds(resultsList[..i])
    {
      if resultsList[i].imgsSec.None? {
        return Failure("KeyError: imgs_sec");
      }
      results := results + [resultsList[i].imgsSec.value];
    }
    assert resultsList[..|resultsList|] == resultsList;
    var speeds := results;
    results := Sort(results);
    var mean := Sum(results) / |results| as real;
    r := Success(Aggregate(aggBase, |results|, mean, results[|results| - 1], results[0]));

    SumPermutation(results, speeds);
    forall i | 0 <= i < |speeds|
      ensures results[0] <= speeds[i] <= results[|results| - 1]
    {
      assert speeds[i] in multiset(results);
    }
    assert results[0] in multiset(speeds) && results[|results| - 1] in multiset(speeds);
    MeanBetween(speeds, results[0], results[|results| - 1]);
  }
}
