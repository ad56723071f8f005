/**
  Result parsing for tf_cnn_benchmarks runs and the OOM batch-size
  bisection step (test_runners/tf_cnn_bench/reporting.py). Log files are
  sequences of lines (`None` when the file cannot be opened); float() of a
  log token is the parameter `num`.
 */
module TfCnnReporting {
  import opened Wrappers
  import opened Strs
  import opened Values
  import opened ResultInfo
  import opened Records

  // ------------------------------------------------------------ OOM bisection

  /** oom_batch_size_search: the new (low, high, next); next is -1 when the
      bisection would try `current` again. Division is Python 2 floor
      division, which Dafny's `/` agrees with for the divisor 2. */
  function OomBatchSizeSearch(low: int, high: int, current: int, currentOom: bool): (r: (int, int, int))
  {
    var (low', high') := if currentOom then (low, current) else (current, high);
    var next := if currentOom then high' - (high' - low') / 2 else low' + (high' - low') / 2;
    if next == current then (low', high', -1) else (low', high', next)
  }

  /** The step's effect on the bounds: an OOM moves `high` down to
      `current`, a run that fits moves `low` up to it; the sentinel -1 comes
      back exactly when the computed next size is `current` itself. */
  lemma OomStepBounds(low: int, high: int, current: int, currentOom: bool)
    ensures var (l, h, n) := OomBatchSizeSearch(low, high, current, currentOom);
      && (currentOom ==> l == low && h == current)
      && (!currentOom ==> l == current && h == high)
      && var next := if currentOom then h - (h - l) / 2 else l + (h - l) / 2;
         (next == current ==> n == -1) && (next != current ==> n == next)
  {
  }

  /** Within the bounds and with sizes that are not negative, a step that
      does not stop narrows the interval and leaves the next size strictly
      inside it; a step that stops leaves at most one size between the
      bounds. */
  lemma {:induction false} OomStepNarrows(low: int, high: int, current: int, currentOom: bool)
    requires 0 <= low <= current <= high
    ensures var (l, h, n) := OomBatchSizeSearch(low, high, current, currentOom);
      && low <= l <= h <= high
      && (n == -1 <==> (if currentOom then h - (h - l) / 2 else l + (h - l) / 2) == current)
      && (n != -1 ==> l < n < h)
      && (n == -1 ==> h - l <= 1)
  {
    if currentOom {
      var d := current - low;
      assert d - d / 2 >= 0;
      if d >= 2 {
        assert d / 2 >= 1 && d - d / 2 >= 1;
      }
    } else {
      var d := high - current;
      if d >= 2 {
        assert d / 2 >= 1 && d / 2 < d;
      }
    }
  }

  /** As written, inverted bounds make the search cycle: with low = h + 1,
      high = h, a size h that runs out of memory and a size h + 1 that does
      not, the step from next = h yields next = h + 1 and the step from
      there yields next = h again, with the bounds unchanged. */
  lemma {:induction false} OomInvertedBoundsCycle(h: int)
    ensures OomBatchSizeSearch(h + 1, h, h, true) == (h + 1, h, h + 1)
    ensures OomBatchSizeSearch(h + 1, h, h + 1, false) == (h + 1, h, h)
  {
    assert (h - (h + 1)) / 2 == -1;
  }

  // ------------------------------------------------------------ check_oom

  const OOM_MARKER: string := "OOM when allocating tensor"

  /** check_oom: whether some line mentions an out-of-memory failure. The
      file is opened without a guard, so a missing file is an IOError. */
  method CheckOom(file: Option<seq<string>>) returns (r: Result<bool>)
    ensures r.Failure? <==> file.None?
    ensures r.Success? ==> (r.value <==> exists k :: 0 <= k < |file.value| && Contains(file.value[k], OOM_MARKER))
  {
    if file.None? {
      return Failure("IOError: No such file or directory");
    }
    var lines := file.value;
    for i := 0 to |lines|
      invariant forall k :: 0 <= k < i ==> !Contains(lines[k], OOM_MARKER)
    {
      if Find(lines[i], OOM_MARKER) > -1 {
        return Success(true);
      }
    }
    return Success(false);
  }

  // ------------------------------------------------------------ parse_result_file

  const TOTAL_MARKER: string := "total images/sec"

  /** The index of the first line that starts with `p`, or -1. */
  function FirstStarting(lines: seq<string>, p: string): (i: int)
    ensures -1 <= i < |lines|
    ensures i == -1 <==> forall k :: 0 <= k < |lines| ==> Find(lines[k], p) != 0
    ensures i >= 0 ==> Find(lines[i], p) == 0 && forall k :: 0 <= k < i ==> Find(lines[k], p) != 0
  {
    if lines == [] then -1
    else if Find(lines[0], p) == 0 then 0
    else
      var j := FirstStarting(lines[1..], p);
      assert forall k :: 1 <= k < |lines| ==> lines[k] == lines[1..][k - 1];
      if j == -1 then -1 else j + 1
  }

  /** float() of the token with index `t` of `line.split(' ')`, after
      rstrip(); a short line is an IndexError, a token that is not a number
      a ValueError. */
  function TokenNumber(line: string, t: nat, num: string -> Option<real>): (r: Result<real>)
    ensures r.Success? <==> t < |Split(line, ' ')| && num(RStrip(Split(line, ' ')[t])).Some?
    ensures r.Success? ==> r.value == num(RStrip(Split(line, ' ')[t])).value
  {
    var parts := Split(line, ' ');
    if |parts| <= t then Failure("IndexError: list index out of range")
    else match num(RStrip(parts[t]))
      case None => Failure("ValueError: could not convert string to float")
      case Some(v) => Success(v)
  }

  /** parse_result_file: `imgs_sec` from the third token of the first line
      that starts with "total images/sec"; later such lines are ignored, and
      a missing file or a file without such a line changes nothing. */
  method ParseResultFile(result: ResultRecord, file: Option<seq<string>>, num: string -> Option<real>)
    returns (r: Result<ResultRecord>)
    ensures file.None? ==> r == Success(result)
    ensures file.Some? && FirstStarting(file.value, TOTAL_MARKER) == -1 ==> r == Success(result)
    ensures file.Some? && FirstStarting(file.value, TOTAL_MARKER) >= 0 ==>
      var speed := TokenNumber(file.value[FirstStarting(file.value, TOTAL_MARKER)], 2, num);
      && (r.Success? <==> speed.Success?)
      && (r.Success? ==> r.value == result.(imgsSec := Some(speed.value)))
  {
    if file.None? {
      return Success(result);
    }
    var lines := file.value;
    for i := 0 to |lines|
      invariant forall k :: 0 <= k < i ==> Find(lines[k], TOTAL_MARKER) != 0
    {
      if Find(lines[i], TOTAL_MARKER) == 0 {
        FirstStartingAt(lines, TOTAL_MARKER, i);
        var parts := Split(lines[i], ' ');
        if |parts| < 3 {
          return Failure("IndexError: list index out of range");
        }
        var v := num(RStrip(parts[2]));
        if v.None? {
          return Failure("ValueError: could not convert string to float");
        }
        return Success(result.(imgsSec := Some(v.value)));
      }
    }
    return Success(result);
  }

  /** The first line starting with `p` is at `i`. */
  lemma FirstStartingAt(lines: seq<string>, p: string, i: nat)
    requires i < |lines| && Find(lines[i], p) == 0
    requires forall k :: 0 <= k < i ==> Find(lines[k], p) != 0
    ensures FirstStarting(lines, p) == i
  {
  }

  /** Only the first summary line counts: whatever follows it is ignored. */
  lemma FirstSummaryWins(pre: seq<string>, line: string, post: seq<string>)
    requires forall k :: 0 <= k < |pre| ==> Find(pre[k], TOTAL_MARKER) != 0
    requires Find(line, TOTAL_MARKER) == 0
    ensures FirstStarting(pre + [line] + post, TOTAL_MARKER) == |pre|
  {
    var lines := pre + [line] + post;
    assert lines[|pre|] == line;
    assert forall k :: 0 <= k < |pre| ==> lines[k] == pre[k];
  }

  // ------------------------------------------------------------ parse_eval_result_file

  const ACCURACY_MARKER: string := "Accuracy @"

  /** What the eval scan carries from line to line. */
  datatype EvalState = EvalState(results: seq<ResultEntry>, expPerSec: real)

  /** One line of the eval scan: an "Accuracy @" line replaces the results
      with its top_1 (token 4) and top_5 (token 9); otherwise a line that
      starts with "total images/sec" sets the examples per second. */
  function EvalStep(st: EvalState, line: string, num: string -> Option<real>): Result<EvalState> {
    if Find(line, ACCURACY_MARKER) == 0 then
      match TokenNumber(line, 4, num)
      case Failure(e) => Failure(e)
      case Success(top1) =>
        var rs := BuildResultInfo([], top1, "top_1", "accuracy");
        match TokenNumber(line, 9, num)
        case Failure(e) => Failure(e)
        case Success(top5) => Success(EvalState(BuildResultInfo(rs, top5, "top_5", "accuracy"), st.expPerSec))
    else if Find(line, TOTAL_MARKER) == 0 then
      match TokenNumber(line, 2, num)
      case Failure(e) => Failure(e)
      case Success(v) => Success(st.(expPerSec := v))
    else Success(st)
  }

  /** The state after scanning `lines` from an empty results list and zero
      examples per second; the first failing line decides the error. */
  function EvalScan(lines: seq<string>, num: string -> Option<real>): (r: Result<EvalState>)
    ensures r.Success? ==> r.value.results == [] || AccuracyPair(r.value.results)
  {
    if lines == [] then Success(EvalState([], 0.0))
    else
      match EvalScan(lines[..|lines| - 1], num)
      case Failure(e) => Failure(e)
      case Success(st) => EvalStep(st, lines[|lines| - 1], num)
  }

  /** An accuracy entry pair read from one line. */
  predicate AccuracyPair(rs: seq<ResultEntry>) {
    |rs| == 2 && rs[0].resultType == "top_1" && rs[1].resultType == "top_5"
    && rs[0].resultUnits == "accuracy" && rs[1].resultUnits == "accuracy"
  }

  /** After a successful scan the results are empty exactly when no line
      starts with "Accuracy @", and otherwise are one top_1/top_5 pair: each
      accuracy line discards the entries before it. Without a summary line
      the examples per second stay zero. */
  lemma {:induction false} EvalScanShape(lines: seq<string>, num: string -> Option<real>)
    requires EvalScan(lines, num).Success?
    ensures var st := EvalScan(lines, num).value;
      && (st.results == [] <==> forall k :: 0 <= k < |lines| ==> Find(lines[k], ACCURACY_MARKER) != 0)
      && (st.results != [] ==> AccuracyPair(st.results))
      && ((forall k :: 0 <= k < |lines| ==> Find(lines[k], TOTAL_MARKER) != 0) ==> st.expPerSec == 0.0)
  {
    if lines != [] {
      var init := lines[..|lines| - 1];
      assert forall k :: 0 <= k < |init| ==> init[k] == lines[k];
      EvalScanShape(init, num);
    }
  }

  /** The accuracy entries are those of the last accuracy line, whatever
      came before it. */
  lemma EvalScanLastAccuracy(pre: seq<string>, line: string, num: string -> Option<real>)
    requires Find(line, ACCURACY_MARKER) == 0
    requires EvalScan(pre + [line], num).Success?
    ensures EvalScan(pre + [line], num).value.results
         == [ResultEntry(TokenNumber(line, 4, num).value, "top_1", "accuracy"),
             ResultEntry(TokenNumber(line, 9, num).value, "top_5", "accuracy")]
  {
    assert (pre + [line])[..|pre|] == pre;
  }

  /** The last "Accuracy @" line decides the accuracy entries: lines after it
      that are not accuracy lines leave them alone. */
  lemma {:induction false} LastAccuracyWins(pre: seq<string>, line: string, post: seq<string>, num: string -> Option<real>)
    requires Find(line, ACCURACY_MARKER) == 0
    requires forall k :: 0 <= k < |post| ==> Find(post[k], ACCURACY_MARKER) != 0
    requires EvalScan(pre + [line] + post, num).Success?
    ensures TokenNumber(line, 4, num).Success? && TokenNumber(line, 9, num).Success?
    ensures EvalScan(pre + [line] + post, num).value.results
         == [ResultEntry(TokenNumber(line, 4, num).value, "top_1", "accuracy"),
             ResultEntry(TokenNumber(line, 9, num).value, "top_5", "accuracy")]
    decreases |post|
  {
    var lines := pre + [line] + post;
    if post == [] {
      assert lines == pre + [line];
      EvalScanLastAccuracy(pre, line, num);
    } else {
      var init := post[..|post| - 1];
      assert lines[..|lines| - 1] == pre + [line] + init;
      assert forall k :: 0 <= k < |init| ==> init[k] == post[k];
      LastAccuracyWins(pre, line, init, num);
    }
  }

  /** No line starts with both markers. */
  lemma MarkersExclusive(line: string)
    ensures !(Find(line, ACCURACY_MARKER) == 0 && Find(line, TOTAL_MARKER) == 0)
  {
    FindZeroIsPrefix(line, ACCURACY_MARKER);
    FindZeroIsPrefix(line, TOTAL_MARKER);
    if Find(line, ACCURACY_MARKER) == 0 {
      assert line[0] == line[..|ACCURACY_MARKER|][0] == 'A';
    }
  }

  /** The last "total images/sec" line sets the examples per second to its
      third token, whatever came before or after it. */
  lemma {:induction false} LastTotalWins(pre: seq<string>, line: string, post: seq<string>, num: string -> Option<real>)
    requires Find(line, TOTAL_MARKER) == 0
    requires forall k :: 0 <= k < |post| ==> Find(post[k], TOTAL_MARKER) != 0
    requires EvalScan(pre + [line] + post, num).Success?
    ensures TokenNumber(line, 2, num).Success?
    ensures EvalScan(pre + [line] + post, num).value.expPerSec == TokenNumber(line, 2, num).value
    decreases |post|
  {
    var lines := pre + [line] + post;
    if post == [] {
      assert lines[..|lines| - 1] == pre;
      MarkersExclusive(line);
    } else {
      var init := post[..|post| - 1];
      assert lines[..|lines| - 1] == pre + [line] + init;
      assert forall k :: 0 <= k < |init| ==> init[k] == post[k];
      LastTotalWins(pre, line, init, num);
    }
  }

  /** A failure in a prefix is the failure of the whole scan. */
  lemma {:induction false} EvalScanFailureSticks(lines: seq<string>, i: nat, num: string -> Option<real>)
    requires i <= |lines|
    requires EvalScan(lines[..i], num).Failure?
    ensures EvalScan(lines, num) == EvalScan(lines[..i], num)
    decreases |lines| - i
  {
    if i < |lines| {
      assert lines[..i + 1][..i] == lines[..i];
      EvalScanFailureSticks(lines, i + 1, num);
    } else {
      assert lines[..i] == lines;
    }
  }

  /** The entries parse_eval_result_file adds: the scanned results, then
      `eval_exp_per_sec` when the examples per second are nonzero. */
  function EvalEntries(st: EvalState): (rs: seq<ResultEntry>)
    ensures st.expPerSec == 0.0 ==> rs == st.results
    ensures st.expPerSec != 0.0 ==>
      && |rs| == |st.results| + 1 && rs[..|st.results|] == st.results
      && rs[|st.results|] == ResultEntry(st.expPerSec, "eval_exp_per_sec", "exp_per_sec")
  {
    if st.expPerSec != 0.0 then BuildResultInfo(st.results, st.expPerSec, "eval_exp_per_sec", "exp_per_sec")
    else st.results
  }

  function AddedItems(rs: seq<ResultEntry>): (items: seq<ExtraItem>)
    ensures |items| == |rs| && forall k :: 0 <= k < |rs| ==> items[k] == Added(rs[k])
  {
    seq(|rs|, k requires 0 <= k < |rs| => Added(rs[k]))
  }

  /** The record after the scan: `imgs_sec` is set from the examples per
      second only when it is absent and they are nonzero; the entries extend
      an existing `raw_extra_results` list (one that is not a list has no
      extend(), an AttributeError) or become it. */
  function FinishEval(result: ResultRecord, st: EvalState): (r: Result<ResultRecord>)
    ensures r.Failure? <==> result.rawExtraResults.Some? && result.rawExtraResults.value.Other?
    ensures r.Success? ==>
      && r.value.imgsSec == (if result.imgsSec.None? && st.expPerSec != 0.0 then Some(st.expPerSec) else result.imgsSec)
      && r.value.rawExtraResults.Some? && r.value.rawExtraResults.value.Items?
      && r.value == result.(imgsSec := r.value.imgsSec, rawExtraResults := r.value.rawExtraResults)
      && r.value.rawExtraResults.value.items
         == (if result.rawExtraResults.Some? then result.rawExtraResults.value.items else [])
            + AddedItems(EvalEntries(st))
  {
    var added := AddedItems(EvalEntries(st));
    var imgs := if result.imgsSec.None? && st.expPerSec != 0.0 then Some(st.expPerSec) else result.imgsSec;
    match result.rawExtraResults
    case None => Success(result.(imgsSec := imgs, rawExtraResults := Some(Items(added))))
    case Some(Items(xs)) => Success(result.(imgsSec := imgs, rawExtraResults := Some(Items(xs + added))))
    case Some(Other(_)) => Failure("AttributeError: object has no attribute 'extend'")
  }

  /** parse_eval_result_file: a missing file changes nothing; otherwise the
      record is the scan's outcome laid onto it. */
  method ParseEvalResultFile(result: ResultRecord, file: Option<seq<string>>, num: string -> Option<real>)
    returns (r: Result<ResultRecord>)
    ensures file.None? ==> r == Success(result)
    ensures file.Some? && EvalScan(file.value, num).Failure? ==> r == Failure(EvalScan(file.value, num).error)
    ensures file.Some? && EvalScan(file.value, num).Success? ==> r == FinishEval(result, EvalScan(file.value, num).value)
  {
    if file.None? {
      return Success(result);
    }
    var lines := file.value;
    var results: seq<ResultEntry> := [];
    var expPerSec: real := 0.0;
    for i := 0 to |lines|
      invariant EvalScan(lines[..i], num) == Success(EvalState(results, expPerSec))
    {
      assert lines[..i + 1][..i] == lines[..i];
      var line := lines[i];
      assert EvalScan(lines[..i + 1], num) == EvalStep(EvalState(results, expPerSec), line, num);
      if Find(line, ACCURACY_MARKER) == 0 {
        results := [];
        var parts := Split(line, ' ');
        if |parts| < 5 || num(RStrip(parts[4])).None? {
          EvalScanFailureSticks(lines, i + 1, num);
          return Failure(if |parts| < 5 then "IndexError: list index out of range"
                         else "ValueError: could not convert string to float");
        }
        results := BuildResultInfo(results, num(RStrip(parts[4])).value, "top_1", "accuracy");
        if |parts| < 10 || num(RStrip(parts[9])).None? {
          EvalScanFailureSticks(lines, i + 1, num);
          return Failure(if |parts| < 10 then "IndexError: list index out of range"
                         else "ValueError: could not convert string to float");
        }
        results := BuildResultInfo(results, num(RStrip(parts[9])).value, "top_5", "accuracy");
      } else if Find(line, TOTAL_MARKER) == 0 {
        var parts := Split(line, ' ');
        if |parts| < 3 || num(RStrip(parts[2])).None? {
          EvalScanFailureSticks(lines, i + 1, num);
          return Failure(if |parts| < 3 then "IndexError: list index out of range"
                         else "ValueError: could not convert string to float");
        }
        expPerSec := num(RStrip(parts[2])).value;
      }
    }
    assert lines[..|lines|] == lines;
    if expPerSec != 0.0 {
      results := BuildResultInfo(results, expPerSec, "eval_exp_per_sec", "exp_per_sec");
    }
    var imgs := result.imgsSec;
    if expPerSec != 0.0 && result.imgsSec.None? {
      imgs := Some(expPerSec);
    }
    var added := AddedItems(results);
    match result.rawExtraResults {
      case None =>
        r := Success(result.(imgsSec := imgs, rawExtraResults := Some(Items(added))));
      case Some(Items(xs)) =>
        r := Success(result.(imgsSec := imgs, rawExtraResults := Some(Items(xs + added))));
      case Some(Other(_)) =>
        r := Failure("AttributeError: object has no attribute 'extend'");
    }
  }

  // ------------------------------------------------------------ process_base_result_files

  /** process_base_result_files on the parsed config.yaml of a result
      folder `resultDir` and the parsed extra_results.yaml, if any: the
      config, `gpu` from int(config['gpus']) when present, `test_id` (a
      KeyError when missing), `data_type` real exactly when the config names
      a data directory, the folder, and the extra results when the file
      exists. */
  function ProcessBaseResultFiles(result: ResultRecord, config: Config, resultDir: string, extra: Option<Value>)
    : (r: Result<ResultRecord>)
    ensures r.Success? <==> GpuOf(config).Success? && "test_id" in config
    ensures r.Success? ==>
      && r.value.config == Some(config)
      && r.value.gpu == (if "gpus" in config then GpuOf(config).value else result.gpu)
      && r.value.testId == Some(config["test_id"])
      && (r.value.dataType == Some("real") <==> "data_dir" in config)
      && (r.value.dataType == Some("synth") <==> "data_dir" !in config)
      && r.value.resultDir == Some(resultDir)
      && r.value.rawExtraResults == (if extra.Some? then Some(ExtraOf(extra.value)) else result.rawExtraResults)
      && r.value.imgsSec == result.imgsSec && r.value.batchesSampled == result.batchesSampled
  {
    var withConfig := result.(config := Some(config));
    match GpuOf(config)
    case Failure(e) => Failure(e)
    case Success(gpu) =>
      var withGpu := if gpu.Some? then withConfig.(gpu := gpu) else withConfig;
      match Lookup(config, "test_id")
      case Failure(e) => Failure(e)
      case Success(testId) =>
        var dataType := if "data_dir" in config then "real" else "synth";
        var rec := withGpu.(testId := Some(testId), dataType := Some(dataType), resultDir := Some(resultDir));
        Success(if extra.Some? then rec.(rawExtraResults := Some(ExtraOf(extra.value))) else rec)
  }
}
