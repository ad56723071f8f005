/**
  Result parsing for MXNet runs (test_runners/mxnet/reporting.py). The log
  is a sequence of lines (`None` when it cannot be opened), the parsed
  config.yaml of its folder `resultDir` is a parameter, and float() of a
  log token is the parameter `num`.
 */
module MxnetReporting {
  import opened Wrappers
  import opened Strs
  import opened Values
  import opened Records
  import opened Util
  import opened BatchSampling

  const WARM_UP: int := 10
  const STOP: int := 100

  /** The fields parse_result_file sets before reading the log: the config,
      the folder, `test_id` (a KeyError when missing), `data_type` real
      exactly when the arguments hold `data-train` (a missing `args` is a
      KeyError), and `gpu` from int(config['gpus']) when present. */
  function BaseRecord(config: Config, resultDir: string): (r: Result<ResultRecord>)
    ensures r.Success? <==>
      && "test_id" in config && "args" in config && In("data-train", config["args"]).Success?
      && GpuOf(config).Success?
    ensures r.Success? ==>
      && r.value.config == Some(config) && r.value.resultDir == Some(resultDir)
      && r.value.testId == Some(config["test_id"])
      && (r.value.dataType == Some("real") <==> In("data-train", config["args"]).value)
      && (r.value.dataType == Some("synth") <==> !In("data-train", config["args"]).value)
      && r.value.gpu == GpuOf(config).value
      && r.value.rawExtraResults.None? && r.value.imgsSec.None? && r.value.batchesSampled.None?
  {
    var rec := EMPTY_RECORD.(config := Some(config), resultDir := Some(resultDir));
    match Lookup(config, "test_id")
    case Failure(e) => Failure(e)
    case Success(testId) =>
      match Lookup(config, "args")
      case Failure(e) => Failure(e)
      case Success(args) =>
        match In("data-train", args)
        case Failure(e) => Failure(e)
        case Success(hasData) =>
          match GpuOf(config)
          case Failure(e) => Failure(e)
          case Success(gpu) =>
            Success(rec.(testId := Some(testId), dataType := Some(if hasData then "real" else "synth"), gpu := gpu))
  }

  /** A line with speed data: "Epoch[" and "samples/sec" both occur, and
      not at the very start of the line. */
  predicate SpeedLine(line: string) {
    Find(line, "Epoch[") > 0 && Find(line, "samples/sec") > 0
  }

  /** The batch number: the third whitespace-separated token without its
      brackets. */
  function BatchToken(parts: seq<string>): string
    requires |parts| >= 3
  {
    RemoveChar(RemoveChar(parts[2], ']'), '[')
  }

  /** What one log line says: nothing unless it is a speed line; then the
      batch number and the speed, the fifth token. */
  function Read(line: string, num: string -> Option<real>): (rd: Reading)
    ensures !SpeedLine(line) <==> rd.Skip?
    ensures rd.Batch? ==> |SplitWs(line)| >= 3 && ParseInt(BatchToken(SplitWs(line))) == Some(rd.batch)
    ensures rd.Batch? && rd.speed.Success? ==>
      |SplitWs(line)| >= 5 && num(RStrip(SplitWs(line)[4])) == Some(rd.speed.value)
  {
    if !SpeedLine(line) then Skip
    else
      var parts := SplitWs(line);
      if |parts| < 3 then Unreadable("IndexError: list index out of range")
      else
        match ParseInt(BatchToken(parts))
        case None => Unreadable("ValueError: invalid literal for int()")
        case Some(b) =>
          var speed := if |parts| < 5 then Failure("IndexError: list index out of range")
                       else if num(RStrip(parts[4])).None? then Failure("ValueError: could not convert string to float")
                       else Success(num(RStrip(parts[4])).value);
          Batch(b, speed)
  }

  /** The line reader of this log format. */
  function Reader(num: string -> Option<real>): string -> Reading {
    line => Read(line, num)
  }

  /** The readings of the lines, in order. */
  function Readings(lines: seq<string>, num: string -> Option<real>): seq<Reading> {
    ReadAll(Reader(num), lines)
  }

  /** parse_result_file: the log must open (IOError otherwise); the record
      holds the base fields and the mean of the speeds of batches 11 and
      on, up to and including the first speed line past batch 100. */
  method ParseResultFile(file: Option<seq<string>>, config: Config, resultDir: string, num: string -> Option<real>)
    returns (r: Result<ResultRecord>)
    ensures file.None? ==> r.Failure?
    ensures file.Some? && BaseRecord(config, resultDir).Failure? ==> r == Failure(BaseRecord(config, resultDir).error)
    ensures file.Some? && BaseRecord(config, resultDir).Success? ==>
      var scan := Scan(Readings(file.value, num), WARM_UP, Some(STOP));
      && (scan.Failure? ==> r == Failure(scan.error))
      && (scan.Success? ==> r == MeanRecord(BaseRecord(config, resultDir).value, scan.value))
  {
    if file.None? {
      return Failure("IOError: No such file or directory");
    }
    var base := BaseRecord(config, resultDir);
    if base.Failure? {
      return Failure(base.error);
    }
    var sampled := SampleLog(file.value, Reader(num), WARM_UP, Some(STOP));
    if sampled.Failure? {
      return Failure(sampled.error);
    }
    var (sumSpeed, samples) := sampled.value;
    if samples == 0 {
      return Failure("ZeroDivisionError: integer division or modulo by zero");
    }
    ghost var values := Scan(Readings(file.value, num), WARM_UP, Some(STOP)).value.values;
    assert sumSpeed == Sum(values) && samples == |values| && values != [];
    assert Mean(values) == Success(Sum(values) / |values| as real);
    return Success(base.value.(imgsSec := Some(sumSpeed / samples as real), batchesSampled := Some(samples)));
  }

  /** Speed lines of the warm-up (batches up to 10) do not change the
      outcome: the log parses as if they were not there. */
  lemma WarmUpLinesIgnored(pre: seq<string>, rest: seq<string>, num: string -> Option<real>)
    requires forall k :: 0 <= k < |pre| ==>
      !SpeedLine(pre[k]) || (Read(pre[k], num).Batch? && Read(pre[k], num).batch <= WARM_UP)
    ensures Scan(Readings(pre + rest, num), WARM_UP, Some(STOP)) == Scan(Readings(rest, num), WARM_UP, Some(STOP))
  {
    BatchSampling.WarmUpLinesIgnored(Reader(num), pre, rest, WARM_UP, Some(STOP));
  }
}
