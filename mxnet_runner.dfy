/**
  The ResNet-50 v1 test config of the MXNet runner
  (test_runners/mxnet/runner.py). The runner's `imagenet_dir`, `train_idx`
  and `auto_test_config` are parameters; a missing auto_test_config is the
  empty mapping, which is falsy like None.
 */
module MxnetRunner {
  import opened Wrappers
  import opened Values
  import opened ArgRender

  /** _base_synth_args: exactly num-epochs 1, benchmark 1, disp-batches 5. */
  function BaseSynthArgs(): (args: Config)
    ensures args.Keys == {"num-epochs", "benchmark", "disp-batches"}
    ensures args["num-epochs"] == Int(1) && args["benchmark"] == Int(1) && args["disp-batches"] == Int(5)
  {
    map["num-epochs" := Int(1), "benchmark" := Int(1), "disp-batches" := Int(5)]
  }

  /** _base_imagenet_args: an AssertionError without an ImageNet folder;
      otherwise one epoch, the data and index files, and
      `auto_test_config['data_threads']` reader threads when given, else 4. */
  function BaseImagenetArgs(imagenetDir: Value, trainIdx: Value, autoTestConfig: Config): (r: Result<Config>)
    ensures r.Failure? <==> !Truthy(imagenetDir)
    ensures r.Success? ==>
      && r.value.Keys == {"num-epochs", "disp-batches", "data-train", "data-train-idx", "data-nthreads"}
      && r.value["num-epochs"] == Int(1) && r.value["disp-batches"] == Int(5)
      && r.value["data-train"] == imagenetDir && r.value["data-train-idx"] == trainIdx
      && r.value["data-nthreads"] == GetOr(autoTestConfig, "data_threads", Int(4))
  {
    if !Truthy(imagenetDir) then Failure("AssertionError: self.imagenet_dir is None.")
    else
      var dataThreads := if autoTestConfig != map[] && "data_threads" in autoTestConfig
                         then autoTestConfig["data_threads"] else Int(4);
      Success(map[
        "num-epochs" := Int(1),
        "disp-batches" := Int(5),
        "data-train" := imagenetDir,
        "data-train-idx" := trainIdx,
        "data-nthreads" := dataThreads])
  }

  /** The ResNet-50 v1 settings laid over the base arguments. */
  function ResnetSettings(): (args: Config)
  {
    map["network" := Str("resnet-v1"), "image-shape" := Str("3,224,224"), "num-layers" := Int(50),
        "dtype" := Str("float32")]
  }

  /** _resnetv1_baseargs: the base arguments (ImageNet or synthetic), then
      the ResNet settings, then the caller's arguments, each layer winning
      over the one before. */
  function ResnetV1BaseArgs(args: Config, realData: bool, imagenetDir: Value, trainIdx: Value,
                            autoTestConfig: Config): (r: Result<Config>)
    ensures r.Failure? <==> realData && !Truthy(imagenetDir)
    ensures r.Success? ==>
      var base := if realData then BaseImagenetArgs(imagenetDir, trainIdx, autoTestConfig).value else BaseSynthArgs();
      && r.value.Keys == base.Keys + ResnetSettings().Keys + args.Keys
      && (forall k :: k in args ==> r.value[k] == args[k])
      && (forall k :: k in ResnetSettings() && k !in args ==> r.value[k] == ResnetSettings()[k])
      && (forall k :: k in base && k !in ResnetSettings() && k !in args ==> r.value[k] == base[k])
  {
    var base := if realData then BaseImagenetArgs(imagenetDir, trainIdx, autoTestConfig) else Success(BaseSynthArgs());
    match base
    case Failure(e) => Failure(e)
    case Success(b) => Success(Update(Update(b, ResnetSettings()), args))
  }

  /** The arguments build_test_config sets after the merge: the total batch
      size, the GPU ids and the device kv-store. */
  function FixedArgs(batchSize: int, gpus: int): (args: Config)
    ensures args.Keys == {"batch-size", "gpus", "kv-store"}
    ensures args["batch-size"] == Int(batchSize * gpus) && args["gpus"] == Str(GpuList(gpus))
    ensures args["kv-store"] == Str("device")
  {
    map["batch-size" := Int(batchSize * gpus), "gpus" := Str(GpuList(gpus)), "kv-store" := Str("device")]
  }

  /** build_test_config: the fixed fields and the merged arguments with the
      batch size, GPU list and kv-store written last. */
  function BuildTestConfig(testId: Value, testArgs: Config, batchSize: int, gpus: int, realData: bool,
                           imagenetDir: Value, trainIdx: Value, autoTestConfig: Config): (r: Result<Config>)
    ensures r.Failure? <==> realData && !Truthy(imagenetDir)
    ensures r.Success? ==> r.value.Keys == {"total_batches", "pycmd", "test_id", "repeat", "model", "gpus",
                                            "batch_size", "args"}
  {
    match ResnetV1BaseArgs(testArgs, realData, imagenetDir, trainIdx, autoTestConfig)
    case Failure(e) => Failure(e)
    case Success(args) => Success(ConfigWith(testId, batchSize, gpus, Update(args, FixedArgs(batchSize, gpus))))
  }

  /** The config build_test_config returns around the final arguments. */
  function ConfigWith(testId: Value, batchSize: int, gpus: int, args: Config): (config: Config)
    ensures config.Keys == {"total_batches", "pycmd", "test_id", "repeat", "model", "gpus", "batch_size", "args"}
    ensures config["args"] == Dict(args)
  {
    map[
      "total_batches" := Int(150),
      "pycmd" := Str("train_imagenet.py"),
      "test_id" := testId,
      "repeat" := Int(3),
      "model" := Str("resnet50"),
      "gpus" := Int(gpus),
      "batch_size" := Int(batchSize),
      "args" := Dict(args)]
  }

  /** The fixed fields: 150 batches, three repeats, train_imagenet.py,
      resnet50, and the per-GPU batch size. */
  lemma TestConfigFixed(testId: Value, batchSize: int, gpus: int, args: Config)
    ensures var config := ConfigWith(testId, batchSize, gpus, args);
      && config["total_batches"] == Int(150) && config["repeat"] == Int(3)
      && config["pycmd"] == Str("train_imagenet.py") && config["model"] == Str("resnet50")
      && config["test_id"] == testId && config["gpus"] == Int(gpus) && config["batch_size"] == Int(batchSize)
  {
  }

  /** The batch size, GPU list and kv-store are written after the caller's
      arguments, so the caller cannot override them; every other argument
      the caller gives wins over the defaults. */
  lemma TestConfigArgs(testId: Value, testArgs: Config, batchSize: int, gpus: int, realData: bool,
                       imagenetDir: Value, trainIdx: Value, autoTestConfig: Config)
    requires !realData || Truthy(imagenetDir)
    ensures var config := BuildTestConfig(testId, testArgs, batchSize, gpus, realData, imagenetDir, trainIdx,
                                          autoTestConfig).value;
      && config["args"].Dict?
      && var args := config["args"].entries;
         && args["batch-size"] == Int(batchSize * gpus)
         && args["gpus"] == Str(GpuList(gpus))
         && args["kv-store"] == Str("device")
         && (forall k :: k in testArgs && k !in FixedArgs(batchSize, gpus) ==> args[k] == testArgs[k])
         && (forall k :: k in ResnetSettings() && k !in testArgs && k !in FixedArgs(batchSize, gpus)
               ==> args[k] == ResnetSettings()[k])
  {
    var merged := ResnetV1BaseArgs(testArgs, realData, imagenetDir, trainIdx, autoTestConfig).value;
    var fixed := FixedArgs(batchSize, gpus);
    assert fixed.Keys == {"batch-size", "gpus", "kv-store"};
    var args := Update(merged, fixed);
    assert BuildTestConfig(testId, testArgs, batchSize, gpus, realData, imagenetDir, trainIdx, autoTestConfig)
        == Success(ConfigWith(testId, batchSize, gpus, args));
    forall k | k in testArgs && k !in fixed
      ensures args[k] == testArgs[k]
    {
      assert merged[k] == testArgs[k];
    }
    forall k | k in ResnetSettings() && k !in testArgs && k !in fixed
      ensures args[k] == ResnetSettings()[k]
    {
      assert merged[k] == ResnetSettings()[k];
    }
  }

  /** A caller's dtype of float16 replaces the float32 default. */
  lemma CallerDtypeWins(testId: Value, batchSize: int, gpus: int)
    ensures var config := BuildTestConfig(testId, map["dtype" := Str("float16")], batchSize, gpus, false,
                                          Null, Null, map[]).value;
      config["args"].entries["dtype"] == Str("float16")
  {
    TestConfigArgs(testId, map["dtype" := Str("float16")], batchSize, gpus, false, Null, Null, map[]);
  }
}
