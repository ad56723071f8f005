/**
  The records results are uploaded as (upload/result_info.py).
 */
module ResultInfo {
  import opened Values

  /** One {result, result_type, result_units} entry of a results list. */
  datatype ResultEntry = ResultEntry(result: real, resultType: string, resultUnits: string)

  const DEFAULT_RESULT_TYPE: string := "total_time"
  const DEFAULT_RESULT_UNITS: string := "ms"
  const DEFAULT_FRAMEWORK: string := "tensorflow"
  const DEFAULT_TEST_FIELD: string := "unknown"

  /** build_result_info: the list with exactly one new entry at its end;
      the earlier entries are untouched. The type and units default to
      total_time and ms. */
  function BuildResultInfo(results: seq<ResultEntry>, result: real,
                           resultType: string := DEFAULT_RESULT_TYPE, resultUnits: string := DEFAULT_RESULT_UNITS)
    : (r: seq<ResultEntry>)
    ensures |r| == |results| + 1
    ensures r[..|results|] == results
    ensures r[|results|] == ResultEntry(result, resultType, resultUnits)
  {
    results + [ResultEntry(result, resultType, resultUnits)]
  }

  /** build_test_result: the test record with exactly test_id, test_harness
      and test_environment (as text), and a results list holding the one
      result. */
  function BuildTestResult(testId: Value, result: real,
                           resultType: string := DEFAULT_RESULT_TYPE, resultUnits: string := DEFAULT_RESULT_UNITS,
                           testHarness: Value := Str(DEFAULT_TEST_FIELD),
                           testEnvironment: Value := Str(DEFAULT_TEST_FIELD))
    : (r: (Config, seq<ResultEntry>))
    ensures r.0.Keys == {"test_id", "test_harness", "test_environment"}
    ensures r.0["test_id"] == Str(Show(testId))
    ensures r.0["test_harness"] == Str(Show(testHarness))
    ensures r.0["test_environment"] == Str(Show(testEnvironment))
    ensures r.1 == [ResultEntry(result, resultType, resultUnits)]
  {
    var testResult := map[
      "test_id" := Str(Show(testId)),
      "test_harness" := Str(Show(testHarness)),
      "test_environment" := Str(Show(testEnvironment))];
    (testResult, BuildResultInfo([], result, resultType, resultUnits))
  }

  /** `d[key] = v` when `v` is truthy. */
  function PutIfTruthy(d: Config, key: string, v: Value, stored: Value): Config {
    if Truthy(v) then d[key := stored] else d
  }

  /** build_system_info: a key for each truthy argument and no other; text
      fields are stored as text, cpu_cores as given. */
  function BuildSystemInfo(platform: Value, platformType: Value, accelType: Value, cpuCores: Value, cpuType: Value)
    : (r: Config)
    ensures "platform" in r <==> Truthy(platform)
    ensures "platform_type" in r <==> Truthy(platformType)
    ensures "accel_type" in r <==> Truthy(accelType)
    ensures "cpu_cores" in r <==> Truthy(cpuCores)
    ensures "cpu_type" in r <==> Truthy(cpuType)
    ensures r.Keys <= {"platform", "platform_type", "accel_type", "cpu_cores", "cpu_type"}
    ensures "platform" in r ==> r["platform"] == Str(Show(platform))
    ensures "platform_type" in r ==> r["platform_type"] == Str(Show(platformType))
    ensures "accel_type" in r ==> r["accel_type"] == Str(Show(accelType))
    ensures "cpu_cores" in r ==> r["cpu_cores"] == cpuCores
    ensures "cpu_type" in r ==> r["cpu_type"] == Str(Show(cpuType))
  {
    var d: Config := map[];
    var d := PutIfTruthy(d, "platform", platform, Str(Show(platform)));
    var d := PutIfTruthy(d, "platform_type", platformType, Str(Show(platformType)));
    var d := PutIfTruthy(d, "accel_type", accelType, Str(Show(accelType)));
    var d := PutIfTruthy(d, "cpu_cores", cpuCores, cpuCores);
    PutIfTruthy(d, "cpu_type", cpuType, Str(Show(cpuType)))
  }

  /** build_test_info: framework, batch_size, model and accel_cnt, each only
      when truthy (a batch size of 0 is left out), stored as given. */
  function BuildTestInfo(framework: Value, batchSize: Value, model: Value, accelCnt: Value): (r: Config)
    ensures "framework" in r <==> Truthy(framework)
    ensures "batch_size" in r <==> Truthy(batchSize)
    ensures "model" in r <==> Truthy(model)
    ensures "accel_cnt" in r <==> Truthy(accelCnt)
    ensures r.Keys <= {"framework", "batch_size", "model", "accel_cnt"}
    ensures forall k :: k in r ==> r[k] == (if k == "framework" then framework
                                           else if k == "batch_size" then batchSize
                                           else if k == "model" then model
                                           else accelCnt)
  {
    var d: Config := map[];
    var d := PutIfTruthy(d, "framework", framework, framework);
    var d := PutIfTruthy(d, "batch_size", batchSize, batchSize);
    var d := PutIfTruthy(d, "model", model, model);
    PutIfTruthy(d, "accel_cnt", accelCnt, accelCnt)
  }

  /** With only the id and the result given, the record's harness and
      environment are "unknown" and the one entry is in ms of total time. */
  lemma TestResultDefaults(testId: Value, result: real)
    ensures BuildTestResult(testId, result).0["test_harness"] == Str("unknown")
    ensures BuildTestResult(testId, result).0["test_environment"] == Str("unknown")
    ensures BuildTestResult(testId, result).1 == [ResultEntry(result, "total_time", "ms")]
  {
  }

  /** The default framework is recorded, and a zero batch size is not. */
  lemma TestInfoDefaults(model: Value)
    ensures BuildTestInfo(Str(DEFAULT_FRAMEWORK), Int(0), model, Null).Keys
         == if Truthy(model) then {"framework", "model"} else {"framework"}
  {
  }
}
