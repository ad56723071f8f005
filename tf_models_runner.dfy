/**
  The ResNet test config of the TensorFlow official models runner
  (test_runners/tf_models/runner.py). The runner's `imagenet_dir` is a
  parameter.
 */
module TfModelsRunner {
  import opened Values

  /** The default arguments of a ResNet-50 run, before the test's own. The
      script takes the total batch size: the per-GPU size times the GPUs. */
  function ResnetArgs(imagenetDir: Value, batchSize: int, gpus: int, dtype: string, version: int, useSynth: bool)
    : (args: Config)
  {
    var data: Config := if useSynth then map["use_synthetic_data" := Str("")] else map["data_dir" := imagenetDir];
    data + map[
      "intra_op_parallelism_threads" := Int(1),
      "resnet_version" := Int(version),
      "resnet_size" := Int(50),
      "batch_size" := Int(batchSize * gpus),
      "num_gpus" := Int(gpus),
      "dtype" := Str(dtype),
      "hooks" := Str("ExamplesPerSecondHook LoggingTensorHook")]
  }

  /** The defaults hold exactly the data source (the ImageNet folder, or
      the synthetic-data flag), one intra-op thread, ResNet-50 of the given
      version and dtype, the total batch size, the GPU count and the two
      logging hooks. */
  lemma ResnetArgsContent(imagenetDir: Value, batchSize: int, gpus: int, dtype: string, version: int, useSynth: bool)
    ensures var args := ResnetArgs(imagenetDir, batchSize, gpus, dtype, version, useSynth);
      && args.Keys == {"intra_op_parallelism_threads", "resnet_version", "resnet_size", "batch_size", "num_gpus",
                       "dtype", "hooks"} + (if useSynth then {"use_synthetic_data"} else {"data_dir"})
      && (useSynth ==> args["use_synthetic_data"] == Str("") && "data_dir" !in args)
      && (!useSynth ==> args["data_dir"] == imagenetDir && "use_synthetic_data" !in args)
      && args["batch_size"] == Int(batchSize * gpus) && args["num_gpus"] == Int(gpus)
      && args["intra_op_parallelism_threads"] == Int(1) && args["resnet_size"] == Int(50)
      && args["resnet_version"] == Int(version) && args["dtype"] == Str(dtype)
      && args["hooks"] == Str("ExamplesPerSecondHook LoggingTensorHook")
  {
  }

  /** build_resnet_test_config: the fixed fields (400 batches, three
      repeats, official/resnet, imagenet_main.py), the model name from the
      version, use_fp16 from the dtype, the per-GPU batch size, and the
      arguments with the test's own laid over the defaults, so each of the
      test's arguments wins. */
  function BuildResnetTestConfig(imagenetDir: Value, testId: Value, testArgs: Config, batchSize: int, gpus: int,
                                 dtype: string, version: int, useSynth: bool): (config: Config)
    ensures config.Keys == {"total_batches", "cmd_path", "pycmd", "test_id", "repeat", "model", "use_fp16",
                            "gpus", "batch_size", "args"}
  {
    map[
      "total_batches" := Int(400),
      "cmd_path" := Str("official/resnet"),
      "pycmd" := Str("imagenet_main.py"),
      "test_id" := testId,
      "repeat" := Int(3),
      "model" := Str(if version == 1 then "resnet50" else "resnet50v2"),
      "use_fp16" := Bool(dtype == "fp16"),
      "gpus" := Int(gpus),
      "batch_size" := Int(batchSize),
      "args" := Dict(Update(ResnetArgs(imagenetDir, batchSize, gpus, dtype, version, useSynth), testArgs))]
  }

  /** The fixed fields of the config. */
  lemma ResnetConfigFixed(imagenetDir: Value, testId: Value, testArgs: Config, batchSize: int, gpus: int,
                          dtype: string, version: int, useSynth: bool)
    ensures var config := BuildResnetTestConfig(imagenetDir, testId, testArgs, batchSize, gpus, dtype, version, useSynth);
      && config["total_batches"] == Int(400) && config["repeat"] == Int(3)
      && config["cmd_path"] == Str("official/resnet") && config["pycmd"] == Str("imagenet_main.py")
      && config["test_id"] == testId
  {
  }

  /** The model name follows the version and use_fp16 the dtype; the config
      keeps the per-GPU batch size. */
  lemma ResnetConfigChoices(imagenetDir: Value, testId: Value, testArgs: Config, batchSize: int, gpus: int,
                            dtype: string, version: int, useSynth: bool)
    ensures var config := BuildResnetTestConfig(imagenetDir, testId, testArgs, batchSize, gpus, dtype, version, useSynth);
      && (config["model"] == Str("resnet50") <==> version == 1)
      && (config["model"] == Str("resnet50v2") <==> version != 1)
      && config["use_fp16"] == Bool(dtype == "fp16")
      && config["gpus"] == Int(gpus) && config["batch_size"] == Int(batchSize)
  {
  }

  /** The test's arguments are laid over the defaults, so each of them wins
      and every other default stays. */
  lemma ResnetConfigArgs(imagenetDir: Value, testId: Value, testArgs: Config, batchSize: int, gpus: int,
                         dtype: string, version: int, useSynth: bool)
    ensures var config := BuildResnetTestConfig(imagenetDir, testId, testArgs, batchSize, gpus, dtype, version, useSynth);
      var defaults := ResnetArgs(imagenetDir, batchSize, gpus, dtype, version, useSynth);
      && config["args"].Dict?
      && config["args"].entries.Keys == defaults.Keys + testArgs.Keys
      && (forall k :: k in testArgs ==> config["args"].entries[k] == testArgs[k])
      && (forall k :: k in defaults && k !in testArgs ==> config["args"].entries[k] == defaults[k])
  {
  }

  /** Unless the test overrides it, the script is given the total batch
      size while the config keeps the per-GPU one. */
  lemma TotalBatchSize(imagenetDir: Value, testId: Value, testArgs: Config, batchSize: int, gpus: int,
                       dtype: string, version: int, useSynth: bool)
    requires "batch_size" !in testArgs
    ensures var config := BuildResnetTestConfig(imagenetDir, testId, testArgs, batchSize, gpus, dtype, version, useSynth);
      config["args"].entries["batch_size"] == Int(batchSize * gpus) && config["batch_size"] == Int(batchSize)
  {
    ResnetArgsContent(imagenetDir, batchSize, gpus, dtype, version, useSynth);
  }
}
