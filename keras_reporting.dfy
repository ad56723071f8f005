/**
  Result parsing for Keras runs of the TensorFlow models
  (test_runners/keras_tf_models/reporting.py). The log is a sequence of
  lines (`None` when it cannot be opened), the parsed config.yaml is a
  parameter, and ast.literal_eval is the parameter `literal` (`None` when
  it raises).
 */
module KerasReporting {
  import opened Wrappers
  import opened Strs
  import opened Values
  import opened Records
  import opened Util
  import opened BatchSampling

  const WARM_UP: int := 100

  // ------------------------------------------------------------ base fields

  /** process_base_result_files: the config, `gpu` from int(config['gpus'])
      when present, `test_id` (a KeyError when missing), `data_type` synth
      exactly when the arguments hold `use_synthetic_data` (a missing
      `args` is a KeyError), the folder, and the extra results when
      extra_results.yaml exists. */
  function ProcessBaseResultFiles(result: ResultRecord, config: Config, resultDir: string, extra: Option<Value>)
    : (r: Result<ResultRecord>)
    ensures r.Success? <==>
      && GpuOf(config).Success? && "test_id" in config && "args" in config
      && In("use_synthetic_data", config["args"]).Success?
    ensures r.Success? ==>
      && r.value.config == Some(config)
      && r.value.gpu == (if "gpus" in config then GpuOf(config).value else result.gpu)
      && r.value.testId == Some(config["test_id"])
      && (r.value.dataType == Some("synth") <==> In("use_synthetic_data", config["args"]).value)
      && (r.value.dataType == Some("real") <==> !In("use_synthetic_data", config["args"]).value)
      && r.value.resultDir == Some(resultDir)
      && r.value.rawExtraResults == (if extra.Some? then Some(ExtraOf(extra.value)) else result.rawExtraResults)
      && r.value.imgsSec == result.imgsSec && r.value.batchesSampled == result.batchesSampled
  {
    var withConfig := result.(config := Some(config));
    match GpuOf(config)
    case Failure(e) => Failure(e)
    case Success(gpu) =>
      var withGpu := if gpu.Some? then withConfig.(gpu := gpu) else withConfig;
      match Lookup(config, "test_id")
      case Failure(e) => Failure(e)
      case Success(testId) =>
        match Lookup(config, "args")
        case Failure(e) => Failure(e)
        case Success(args) =>
          match In("use_synthetic_data", args)
          case Failure(e) => Failure(e)
          case Success(synth) =>
            var rec := withGpu.(testId := Some(testId), dataType := Some(if synth then "synth" else "real"),
                                resultDir := Some(resultDir));
            Success(if extra.Some? then rec.(rawExtraResults := Some(ExtraOf(extra.value))) else rec)
  }

  // ------------------------------------------------------------ the log

  /** A line with a metric: "BenchmarkMetric" and "num_batches" both occur. */
  predicate MetricLine(line: string) {
    Contains(line, "BenchmarkMetric") && Contains(line, "num_batches")
  }

  /** `line[line.find('{'):line.find('}')] + '}'`, with Python's slicing
      rules for the -1 of a brace that is not there. */
  function MetricText(line: string): (t: string)
    ensures var i, j := Find(line, "{"), Find(line, "}");
      && (0 <= i <= j ==> t == line[i..j] + "}")
      && (i == -1 ==> t == "}")
      && (0 <= j < i ==> t == "}")
      && (0 <= i && j == -1 ==> t == (if i < |line| - 1 then line[i..|line| - 1] else "") + "}")
  {
    PySlice(line, Find(line, "{"), Find(line, "}")) + "}"
  }

  /** The images in 100 batches: `gpus * batch_size * 100` from the test
      config; no test config is a TypeError and a missing key a KeyError. */
  function NumSamples(testConfig: Option<Config>): (r: Result<int>)
    ensures r.Success? <==> testConfig.Some? && "gpus" in testConfig.value && "batch_size" in testConfig.value
                            && testConfig.value["gpus"].Int? && testConfig.value["batch_size"].Int?
    ensures r.Success? ==> r.value == testConfig.value["gpus"].i * testConfig.value["batch_size"].i * 100
  {
    if testConfig.None? then Failure("TypeError: 'NoneType' object has no attribute '__getitem__'")
    else
      match Lookup(testConfig.value, "gpus")
      case Failure(e) => Failure(e)
      case Success(gpus) =>
        match Lookup(testConfig.value, "batch_size")
        case Failure(e) => Failure(e)
        case Success(batchSize) =>
          if gpus.Int? && batchSize.Int? then Success(gpus.i * batchSize.i * 100)
          else Failure("TypeError: unsupported operand type(s) for *")
  }

  /** A number of the metric dictionary as a real. */
  function NumberOf(v: Value): (r: Result<real>)
    ensures r.Success? <==> v.Int? || v.Float?
    ensures v.Int? ==> r == Success(v.i as real)
    ensures v.Float? ==> r == Success(v.r)
  {
    match v
    case Int(i) => Success(i as real)
    case Float(x, _) => Success(x)
    case _ => Failure("TypeError: unsupported operand type(s) for /")
  }

  /** The speed of one metric: the images of 100 batches over the time they
      took. */
  function SpeedOf(metric: Config, numSamples: int): (r: Result<real>)
    ensures r.Success? <==> "time_taken" in metric && NumberOf(metric["time_taken"]).Success?
                            && NumberOf(metric["time_taken"]).value != 0.0
    ensures r.Success? ==> r.value == numSamples as real / NumberOf(metric["time_taken"]).value
  {
    match Lookup(metric, "time_taken")
    case Failure(e) => Failure(e)
    case Success(t) =>
      match NumberOf(t)
      case Failure(e) => Failure(e)
      case Success(time) =>
        if time == 0.0 then Failure("ZeroDivisionError: float division by zero")
        else Success(numSamples as real / time)
  }

  /** What one log line says: nothing unless it is a metric line; then the
      dictionary literal_eval reads from its braces gives the batch count
      and, when it is looked at, the speed. */
  function Read(line: string, literal: string -> Option<Value>, numSamples: int): (rd: Reading)
    ensures !MetricLine(line) <==> rd.Skip?
    ensures rd.Batch? ==>
      && literal(MetricText(line)).Some? && literal(MetricText(line)).value.Dict?
      && var metric := literal(MetricText(line)).value.entries;
         && "num_batches" in metric && metric["num_batches"] == Int(rd.batch)
         && rd.speed == SpeedOf(metric, numSamples)
  {
    if !MetricLine(line) then Skip
    else
      match literal(MetricText(line))
      case None => Unreadable("ValueError: malformed string")
      case Some(v) =>
        if !v.Dict? then Unreadable("TypeError: object has no attribute '__getitem__'")
        else
          match Lookup(v.entries, "num_batches")
          case Failure(e) => Unreadable(e)
          case Success(b) =>
            if b.Int? then Batch(b.i, SpeedOf(v.entries, numSamples))
            else Unreadable("TypeError: num_batches is not an int")
  }

  /** The line reader of this log format. */
  function Reader(literal: string -> Option<Value>, numSamples: int): string -> Reading {
    line => Read(line, literal, numSamples)
  }

  /** The readings of the lines, in order. */
  function Readings(lines: seq<string>, literal: string -> Option<Value>, numSamples: int): seq<Reading> {
    ReadAll(Reader(literal, numSamples), lines)
  }

  /** parse_result_file: a log that cannot be opened leaves the result as it
      was; otherwise the result gets the mean speed of the metrics past
      batch 100, read to the end of the log. */
  method ParseResultFile(result: ResultRecord, file: Option<seq<string>>, testConfig: Option<Config>,
                         literal: string -> Option<Value>)
    returns (r: Result<ResultRecord>)
    ensures file.None? ==> r == Success(result)
    ensures file.Some? && NumSamples(testConfig).Failure? ==> r == Failure(NumSamples(testConfig).error)
    ensures file.Some? && NumSamples(testConfig).Success? ==>
      var scan := Scan(Readings(file.value, literal, NumSamples(testConfig).value), WARM_UP, None);
      && (scan.Failure? ==> r == Failure(scan.error))
      && (scan.Success? ==> r == MeanRecord(result, scan.value))
  {
    if file.None? {
      return Success(result);
    }
    var numSamples := NumSamples(testConfig);
    if numSamples.Failure? {
      return Failure(numSamples.error);
    }
    var sampled := SampleLog(file.value, Reader(literal, numSamples.value), WARM_UP, None);
    if sampled.Failure? {
      return Failure(sampled.error);
    }
    var (sumSpeed, samples) := sampled.value;
    if samples == 0 {
      return Failure("ZeroDivisionError: integer division or modulo by zero");
    }
    ghost var values := Scan(Readings(file.value, literal, numSamples.value), WARM_UP, None).value.values;
    assert sumSpeed == Sum(values) && samples == |values| && values != [];
    assert Mean(values) == Success(Sum(values) / |values| as real);
    return Success(result.(imgsSec := Some(sumSpeed / samples as real), batchesSampled := Some(samples)));
  }

  /** Metric lines of the warm-up (100 batches or fewer) do not change the
      outcome: the log parses as if they were not there. */
  lemma WarmUpLinesIgnored(pre: seq<string>, rest: seq<string>, literal: string -> Option<Value>, numSamples: int)
    requires forall k :: 0 <= k < |pre| ==>
      !MetricLine(pre[k])
      || (Read(pre[k], literal, numSamples).Batch? && Read(pre[k], literal, numSamples).batch <= WARM_UP)
    ensures Scan(Readings(pre + rest, literal, numSamples), WARM_UP, None)
         == Scan(Readings(rest, literal, numSamples), WARM_UP, None)
  {
    BatchSampling.WarmUpLinesIgnored(Reader(literal, numSamples), pre, rest, WARM_UP, None);
  }

  /** There is no stop batch: the scan never breaks off, and it samples at
      most one speed per line. */
  lemma ReadsToTheEnd(lines: seq<string>, literal: string -> Option<Value>, numSamples: int)
    requires Scan(Readings(lines, literal, numSamples), WARM_UP, None).Success?
    ensures var st := Scan(Readings(lines, literal, numSamples), WARM_UP, None).value;
      !st.done && |st.values| <= |lines|
  {
    ScanCount(Readings(lines, literal, numSamples), |lines|, WARM_UP, None);
  }
}
