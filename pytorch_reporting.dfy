/**
  Result parsing for PyTorch runs (test_runners/pytorch/reporting.py). The
  log is a sequence of lines (`None` when it cannot be opened), the parsed
  config.yaml of its folder `resultDir` is a parameter, and float() of a
  log token is the parameter `num`. The values sampled are step times.
 */
module PytorchReporting {
  import opened Wrappers
  import opened Strs
  import opened Values
  import opened Records
  import opened Util
  import opened BatchSampling

  const WARM_UP: int := 20
  const STOP: int := 200

  // ------------------------------------------------------------ result files

  /** The names _collect_results parses: worker 0's stdout, as `.log` or
      `.txt`. */
  predicate IsResultFile(name: string) {
    name == "worker_0_stdout.log" || name == "worker_0_stdout.txt"
  }

  /** The result files among `names`, in order. */
  function ResultFiles(names: seq<string>): (kept: seq<string>)
    ensures |kept| <= |names|
    ensures forall k :: 0 <= k < |kept| ==> kept[k] in names && IsResultFile(kept[k])
  {
    if names == [] then []
    else ResultFiles(names[..|names| - 1]) + (if IsResultFile(names[|names| - 1]) then [names[|names| - 1]] else [])
  }

  /** A name is kept exactly when it is among the names and is one of the
      two result file names. */
  lemma {:induction false} ResultFilesKeep(names: seq<string>, f: string)
    ensures f in ResultFiles(names) <==> f in names && IsResultFile(f)
  {
    if names != [] {
      var init := names[..|names| - 1];
      ResultFilesKeep(init, f);
      assert names == init + [names[|names| - 1]];
    }
  }

  /** The inner loop of _collect_results over the names of one folder. */
  method CollectResultFiles(names: seq<string>) returns (kept: seq<string>)
    ensures kept == ResultFiles(names)
  {
    kept := [];
    for i := 0 to |names|
      invariant kept == ResultFiles(names[..i])
    {
      assert names[..i + 1][..i] == names[..i];
      if names[i] in ["worker_0_stdout.log", "worker_0_stdout.txt"] {
        kept := kept + [names[i]];
      }
    }
    assert names[..|names|] == names;
  }

  // ------------------------------------------------------------ the log

  /** The fields parse_result_file sets before reading the log: the config,
      the folder, `test_id` (a KeyError when missing), `data_type` always
      real, and `gpu` from int(config['gpus']) when present. */
  function BaseRecord(config: Config, resultDir: string): (r: Result<ResultRecord>)
    ensures r.Success? <==> "test_id" in config && GpuOf(config).Success?
    ensures "test_id" !in config ==> r.Failure?
    ensures r.Success? ==>
      && r.value.config == Some(config) && r.value.resultDir == Some(resultDir)
      && r.value.testId == Some(config["test_id"]) && r.value.dataType == Some("real")
      && r.value.gpu == GpuOf(config).value
      && r.value.rawExtraResults.None? && r.value.imgsSec.None? && r.value.batchesSampled.None?
  {
    var rec := EMPTY_RECORD.(config := Some(config), resultDir := Some(resultDir));
    match Lookup(config, "test_id")
    case Failure(e) => Failure(e)
    case Success(testId) =>
      match GpuOf(config)
      case Failure(e) => Failure(e)
      case Success(gpu) => Success(rec.(testId := Some(testId), dataType := Some("real"), gpu := gpu))
  }

  /** The batch number: the third whitespace-separated token up to its
      first `/`. */
  function BatchToken(parts: seq<string>): string
    requires |parts| >= 3
  {
    Split(parts[2], '/')[0]
  }

  /** What one log line says: nothing unless "Epoch" occurs in it; then the
      batch number and the step time, the fifth token. */
  function Read(line: string, num: string -> Option<real>): (rd: Reading)
    ensures !Contains(line, "Epoch") <==> rd.Skip?
    ensures rd.Batch? ==> |SplitWs(line)| >= 3 && ParseInt(BatchToken(SplitWs(line))) == Some(rd.batch)
    ensures rd.Batch? && rd.speed.Success? ==>
      |SplitWs(line)| >= 5 && num(RStrip(SplitWs(line)[4])) == Some(rd.speed.value)
  {
    if !Contains(line, "Epoch") then Skip
    else
      var parts := SplitWs(line);
      if |parts| < 3 then Unreadable("IndexError: list index out of range")
      else
        match ParseInt(BatchToken(parts))
        case None => Unreadable("ValueError: invalid literal for int()")
        case Some(b) =>
          var time := if |parts| < 5 then Failure("IndexError: list index out of range")
                      else if num(RStrip(parts[4])).None? then Failure("ValueError: could not convert string to float")
                      else Success(num(RStrip(parts[4])).value);
          Batch(b, time)
  }

  /** The line reader of this log format. */
  function Reader(num: string -> Option<real>): string -> Reading {
    line => Read(line, num)
  }

  /** The readings of the lines, in order. */
  function Readings(lines: seq<string>, num: string -> Option<real>): seq<Reading> {
    ReadAll(Reader(num), lines)
  }

  /** `config['batch_size'] * config['gpus']`: a KeyError for either key
      missing. */
  function TotalBatchSize(config: Config): (r: Result<int>)
    ensures r.Success? <==> "batch_size" in config && "gpus" in config
                            && config["batch_size"].Int? && config["gpus"].Int?
    ensures r.Success? ==> r.value == config["batch_size"].i * config["gpus"].i
  {
    match Lookup(config, "batch_size")
    case Failure(e) => Failure(e)
    case Success(batchSize) =>
      match Lookup(config, "gpus")
      case Failure(e) => Failure(e)
      case Success(gpus) =>
        if batchSize.Int? && gpus.Int? then Success(batchSize.i * gpus.i)
        else Failure("TypeError: unsupported operand type(s) for *")
  }

  /** Images per second over `steps` steps of `tb` images that took
      `totalTime` seconds together. */
  function ImagesPerSecond(steps: nat, tb: int, totalTime: real): real
    requires totalTime != 0.0
  {
    steps as real * tb as real / totalTime
  }

  /** The record once the log has been sampled: the images per second over
      the steps sampled. Nothing sampled is a ZeroDivisionError (integer
      0 / 0), and so is a total time of zero (float division). */
  function Finish(base: ResultRecord, config: Config, st: Sampling): (r: Result<ResultRecord>)
    ensures r.Success? <==> TotalBatchSize(config).Success? && st.values != [] && Sum(st.values) != 0.0
    ensures r.Success? ==>
      r.value == base.(imgsSec := Some(ImagesPerSecond(|st.values|, TotalBatchSize(config).value, Sum(st.values))),
                       batchesSampled := Some(|st.values|))
  {
    var tb := TotalBatchSize(config);
    if tb.Failure? then Failure(tb.error)
    else if st.values == [] then Failure("ZeroDivisionError: integer division or modulo by zero")
    else if Sum(st.values) == 0.0 then Failure("ZeroDivisionError: float division by zero")
    else Success(base.(imgsSec := Some(ImagesPerSecond(|st.values|, tb.value, Sum(st.values))),
                       batchesSampled := Some(|st.values|)))
  }

  /** `(1 / (total / n)) * tb`, as the source computes it, is the images
      per second. */
  lemma Throughput(totalTime: real, steps: nat, tb: int)
    requires totalTime != 0.0 && steps != 0
    ensures (1.0 / (totalTime / steps as real)) * tb as real == ImagesPerSecond(steps, tb, totalTime)
  {
    assert 1.0 / (totalTime / steps as real) == steps as real / totalTime;
  }

  /** parse_result_file: the log must open (IOError otherwise); the record
      holds the base fields and the throughput over the step times of
      batches 21 and on, up to and including the first batch past 200. */
  method ParseResultFile(file: Option<seq<string>>, config: Config, resultDir: string, num: string -> Option<real>)
    returns (r: Result<ResultRecord>)
    ensures file.None? ==> r.Failure?
    ensures file.Some? && BaseRecord(config, resultDir).Failure? ==> r == Failure(BaseRecord(config, resultDir).error)
    ensures file.Some? && BaseRecord(config, resultDir).Success? ==>
      var scan := Scan(Readings(file.value, num), WARM_UP, Some(STOP));
      && (scan.Failure? ==> r == Failure(scan.error))
      && (scan.Success? ==> r == Finish(BaseRecord(config, resultDir).value, config, scan.value))
  {
    if file.None? {
      return Failure("IOError: No such file or directory");
    }
    var base := BaseRecord(config, resultDir);
    if base.Failure? {
      return Failure(base.error);
    }
    var sampled := SampleLog(file.value, Reader(num), WARM_UP, Some(STOP));
    if sampled.Failure? {
      return Failure(sampled.error);
    }
    var (totalTime, samples) := sampled.value;
    var tb := TotalBatchSize(config);
    if tb.Failure? {
      return Failure(tb.error);
    }
    if samples == 0 {
      return Failure("ZeroDivisionError: integer division or modulo by zero");
    }
    if totalTime == 0.0 {
      return Failure("ZeroDivisionError: float division by zero");
    }
    ghost var scanned := Scan(Readings(file.value, num), WARM_UP, Some(STOP)).value;
    assert totalTime == Sum(scanned.values) && samples == |scanned.values| && scanned.values != [];
    Throughput(totalTime, samples, tb.value);
    var imgsSec := (1.0 / (totalTime / samples as real)) * tb.value as real;
    r := Success(base.value.(imgsSec := Some(imgsSec), batchesSampled := Some(samples)));
    assert imgsSec == ImagesPerSecond(samples, tb.value, totalTime);
    assert imgsSec == ImagesPerSecond(|scanned.values|, TotalBatchSize(config).value, Sum(scanned.values));
    assert Finish(base.value, config, scanned).Success?;
    assert r == Finish(base.value, config, scanned);
  }

  /** Step lines of the warm-up (batches up to 20) do not change the
      outcome: the log parses as if they were not there. */
  lemma WarmUpLinesIgnored(pre: seq<string>, rest: seq<string>, num: string -> Option<real>)
    requires forall k :: 0 <= k < |pre| ==>
      !Contains(pre[k], "Epoch") || (Read(pre[k], num).Batch? && Read(pre[k], num).batch <= WARM_UP)
    ensures Scan(Readings(pre + rest, num), WARM_UP, Some(STOP)) == Scan(Readings(rest, num), WARM_UP, Some(STOP))
  {
    BatchSampling.WarmUpLinesIgnored(Reader(num), pre, rest, WARM_UP, Some(STOP));
  }

  /** The throughput is the total batch size over the mean step time. */
  lemma ThroughputIsBatchOverMeanTime(base: ResultRecord, config: Config, st: Sampling)
    requires Finish(base, config, st).Success?
    ensures Mean(st.values).Success? && Mean(st.values).value != 0.0
    ensures Finish(base, config, st).value.imgsSec.value
         == TotalBatchSize(config).value as real / Mean(st.values).value
  {
    var n := |st.values| as real;
    var total := Sum(st.values);
    var tb := TotalBatchSize(config).value as real;
    assert Mean(st.values).value == total / n;
    assert tb / (total / n) == n * tb / total;
  }

  /** With every sampled step time between lo > 0 and hi, the throughput
      lies between tb / hi and tb / lo. */
  lemma ThroughputWithin(base: ResultRecord, config: Config, st: Sampling, lo: real, hi: real)
    requires 0.0 < lo && forall k :: 0 <= k < |st.values| ==> lo <= st.values[k] <= hi
    requires Finish(base, config, st).Success? && TotalBatchSize(config).value >= 0
    ensures var tb := TotalBatchSize(config).value as real;
      tb / hi <= Finish(base, config, st).value.imgsSec.value <= tb / lo
  {
    ThroughputIsBatchOverMeanTime(base, config, st);
    MeanWithin(st.values, lo, hi);
    var m := Mean(st.values).value;
    var tb := TotalBatchSize(config).value as real;
    assert 0.0 < lo <= m <= hi;
    DivideByLarger(tb, m, hi);
    DivideByLarger(tb, lo, m);
  }

  /** Dividing a non-negative amount by a larger positive number gives
      less. */
  lemma DivideByLarger(a: real, x: real, y: real)
    requires 0.0 <= a && 0.0 < x <= y
    ensures a / y <= a / x
  {
    assert a / x - a / y == a * (y - x) / (x * y);
    assert a * (y - x) >= 0.0;
  }
}
