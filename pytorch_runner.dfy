/**
  The ResNet-50 v1.5 test config and command of the PyTorch runner
  (test_runners/pytorch/runner.py). The runner's `imagenet_dir` and
  `auto_test_config` are parameters.
 */
module PytorchRunner {
  import opened Wrappers
  import opened Strs
  import opened Values
  import opened ArgRender

  // ------------------------------------------------------------ distributed flags

  const DIST_URL: string := " --dist-url 'tcp://127.0.0.1:6001'"
  const DIST_BACKEND: string := " --dist-backend "
  const NCCL: string := "'nccl'"
  const MP_FLAG: string := "--multiprocessing-distributed"
  const RANK_FLAGS: string := " --world-size 1 --rank 0 "

  /** The distributed-training flags of a multi-GPU run, with `sep` between
      the backend name and `--multiprocessing-distributed`. */
  function DistFlags(sep: string): (flags: string)
    ensures |flags| == |DIST_URL| + |DIST_BACKEND| + |NCCL| + |sep| + |MP_FLAG| + |RANK_FLAGS|
  {
    DIST_URL + DIST_BACKEND + NCCL + sep + MP_FLAG + RANK_FLAGS
  }

  /** The flags as the source spells them: two literal pieces, the first
      ending in `'nccl'` and the second starting with
      `--multiprocessing-distributed`, with nothing between. */
  const DIST_FLAGS_AS_WRITTEN: string := DistFlags("")

  /** The same flags with the separating space. */
  const DIST_FLAGS: string := DistFlags(" ")

  /** Text the shell reads as one word: not empty, no whitespace. */
  predicate Word(w: string) {
    |w| > 0 && forall j :: 0 <= j < |w| ==> !IsSpace(w[j])
  }

  /** Two words with nothing between them are read as one word. */
  lemma WordsFuse(a: string, b: string, rest: string)
    requires Word(a) && Word(b)
    ensures Word(a + b)
    ensures SplitWs(a + b + " " + rest) == [a + b] + SplitWs(rest)
  {
    assert Word(a + b);
    SplitWsWord(a + b, rest);
  }

  lemma NcclIsWord()
    ensures Word(NCCL)
  {
  }

  lemma MpFlagIsWord()
    ensures Word(MP_FLAG)
  {
  }

  lemma RankFlagsSpaced()
    ensures |RANK_FLAGS| > 0 && RANK_FLAGS[0] == ' '
  {
  }

  /** As written, `--multiprocessing-distributed` directly follows the word
      `'nccl'`, with the next space only after it; by WordsFuse the shell
      reads the single word `'nccl'--multiprocessing-distributed`, so the
      backend is `nccl--multiprocessing-distributed` and the flag is never
      passed. */
  lemma DistFlagsRunTogether()
    ensures DIST_FLAGS_AS_WRITTEN == DIST_URL + DIST_BACKEND + (NCCL + MP_FLAG) + RANK_FLAGS
    ensures Word(NCCL) && Word(MP_FLAG) && Word(NCCL + MP_FLAG)
    ensures |RANK_FLAGS| > 0 && RANK_FLAGS[0] == ' '
  {
    NcclIsWord();
    MpFlagIsWord();
    RankFlagsSpaced();
    WordsFuse(NCCL, MP_FLAG, RANK_FLAGS[1..]);
  }

  /** With the space, `'nccl'` and `--multiprocessing-distributed` are two
      words (ArgRender.TwoWords). */
  lemma DistFlagsSeparate()
    ensures DIST_FLAGS == DIST_URL + DIST_BACKEND + NCCL + " " + MP_FLAG + RANK_FLAGS
    ensures Word(NCCL) && Word(MP_FLAG)
    ensures |RANK_FLAGS| > 0 && RANK_FLAGS[0] == ' '
  {
    NcclIsWord();
    MpFlagIsWord();
    RankFlagsSpaced();
  }

  /** Text without braces stays so when joined. */
  lemma NoBracesConcat(a: string, b: string)
    requires NoBraces(a) && NoBraces(b)
    ensures NoBraces(a + b)
  {
  }

  lemma DistUrlNoBraces() ensures NoBraces(DIST_URL) {}
  lemma DistBackendNoBraces() ensures NoBraces(DIST_BACKEND) {}
  lemma NcclNoBraces() ensures NoBraces(NCCL) {}
  lemma MpFlagNoBraces() ensures NoBraces(MP_FLAG) {}
  lemma RankFlagsNoBraces() ensures NoBraces(RANK_FLAGS) {}

  /** The flags hold no brace, whatever the separator, so they pass through
      the command template unchanged. */
  lemma DistFlagsNoBraces(sep: string)
    requires NoBraces(sep)
    ensures NoBraces(DistFlags(sep))
  {
    DistUrlNoBraces();
    DistBackendNoBraces();
    NcclNoBraces();
    MpFlagNoBraces();
    RankFlagsNoBraces();
    NoBracesConcat(DIST_URL, DIST_BACKEND);
    NoBracesConcat(DIST_URL + DIST_BACKEND, NCCL);
    NoBracesConcat(DIST_URL + DIST_BACKEND + NCCL, sep);
    NoBracesConcat(DIST_URL + DIST_BACKEND + NCCL + sep, MP_FLAG);
    NoBracesConcat(DIST_URL + DIST_BACKEND + NCCL + sep + MP_FLAG, RANK_FLAGS);
  }

  /** The command template: the ids of the visible GPUs, the script, a
      `{}` for the argument string and the data folder; a multi-GPU run
      has no device prefix and the distributed flags instead. */
  function Pycmd(gpus: int, imagenetDir: Value, distFlags: string): (pycmd: string)
    ensures gpus <= 1 ==> StartsWith(pycmd, "CUDA_VISIBLE_DEVICES=" + GpuList(gpus) + " python3 main.py {} ")
    ensures gpus > 1 ==> StartsWith(pycmd, "python3 main.py {} ") && !StartsWith(pycmd, "CUDA_VISIBLE_DEVICES=")
  {
    if gpus > 1 then
      var pycmd := "python3 main.py " + "{}" + " " + distFlags + " " + Show(imagenetDir);
      assert pycmd[..19] == "python3 main.py {} ";
      assert pycmd[0] != "CUDA_VISIBLE_DEVICES="[0];
      pycmd
    else "CUDA_VISIBLE_DEVICES=" + GpuList(gpus) + " python3 main.py " + "{}" + " " + Show(imagenetDir)
  }

  /** The default arguments: print-freq and workers from auto_test_config
      when given (else 1 and 5), one epoch, resnet50, and the total batch
      size. */
  function DefaultArgs(batchSize: int, gpus: int, autoTestConfig: Config): (args: Config)
    ensures args.Keys == {"print-freq", "epochs", "arch", "batch-size", "workers"}
    ensures args["batch-size"] == Int(batchSize * gpus)
  {
    map[
      "print-freq" := GetOr(autoTestConfig, "print_freq", Int(1)),
      "epochs" := Int(1),
      "arch" := Str("resnet50"),
      "batch-size" := Int(batchSize * gpus),
      "workers" := GetOr(autoTestConfig, "input_threads", Int(5))]
  }

  /** build_resnet_test_config with the multi-GPU flags `distFlags`
      (DIST_FLAGS_AS_WRITTEN in the source, DIST_FLAGS once corrected): the
      fields, `repeat` from auto_test_config when given, and the test's
      arguments laid over the defaults. */
  function BuildResnetTestConfig(testId: Value, testArgs: Config, batchSize: int, gpus: int, totalBatches: Value,
                                 repeat: Value, imagenetDir: Value, autoTestConfig: Config, distFlags: string): (config: Config)
  {
    map[
      "total_batches" := totalBatches,
      "cmd_path" := Str("imagenet"),
      "test_id" := testId,
      "repeat" := GetOr(autoTestConfig, "repeat", repeat),
      "model" := Str("resnet50_v1.5"),
      "gpus" := Int(gpus),
      "batch_size" := Int(batchSize),
      "pycmd" := Str(Pycmd(gpus, imagenetDir, distFlags)),
      "args" := Dict(Update(DefaultArgs(batchSize, gpus, autoTestConfig), testArgs))]
  }

  /** The fixed fields of the config, the per-GPU batch size and the
      repeat count from auto_test_config when given. */
  lemma ResnetConfigFields(testId: Value, testArgs: Config, batchSize: int, gpus: int, totalBatches: Value,
                           repeat: Value, imagenetDir: Value, autoTestConfig: Config, distFlags: string)
    ensures var config := BuildResnetTestConfig(testId, testArgs, batchSize, gpus, totalBatches, repeat,
                                                imagenetDir, autoTestConfig, distFlags);
      && config["total_batches"] == totalBatches && config["cmd_path"] == Str("imagenet")
      && config["test_id"] == testId && config["model"] == Str("resnet50_v1.5")
      && config["gpus"] == Int(gpus) && config["batch_size"] == Int(batchSize)
      && config["repeat"] == GetOr(autoTestConfig, "repeat", repeat)
  {
  }

  /** The config holds exactly its nine fields, the command template with
      the given flags and the test's arguments laid over the defaults. */
  lemma ResnetConfigShape(testId: Value, testArgs: Config, batchSize: int, gpus: int, totalBatches: Value,
                          repeat: Value, imagenetDir: Value, autoTestConfig: Config, distFlags: string)
    ensures var config := BuildResnetTestConfig(testId, testArgs, batchSize, gpus, totalBatches, repeat,
                                                imagenetDir, autoTestConfig, distFlags);
      && config.Keys == {"total_batches", "cmd_path", "pycmd", "test_id", "repeat", "model", "gpus",
                         "batch_size", "args"}
      && config["pycmd"] == Str(Pycmd(gpus, imagenetDir, distFlags))
      && config["args"] == Dict(Update(DefaultArgs(batchSize, gpus, autoTestConfig), testArgs))
  {
  }

  /** The test's arguments win over every default; a default the test does
      not give is print-freq and workers from auto_test_config (else 1 and
      5), one epoch, resnet50, or the total batch size. */
  lemma ResnetConfigArgs(testArgs: Config, batchSize: int, gpus: int, autoTestConfig: Config)
    ensures var args := Update(DefaultArgs(batchSize, gpus, autoTestConfig), testArgs);
      && args.Keys == {"print-freq", "epochs", "arch", "batch-size", "workers"} + testArgs.Keys
      && (forall k :: k in testArgs ==> args[k] == testArgs[k])
      && ("print-freq" !in testArgs ==> args["print-freq"] == GetOr(autoTestConfig, "print_freq", Int(1)))
      && ("workers" !in testArgs ==> args["workers"] == GetOr(autoTestConfig, "input_threads", Int(5)))
      && ("epochs" !in testArgs ==> args["epochs"] == Int(1))
      && ("arch" !in testArgs ==> args["arch"] == Str("resnet50"))
      && ("batch-size" !in testArgs ==> args["batch-size"] == Int(batchSize * gpus))
  {
    var defaults := DefaultArgs(batchSize, gpus, autoTestConfig);
    assert defaults.Keys == {"print-freq", "epochs", "arch", "batch-size", "workers"};
  }

  /** _cmd_builder: the argument string put into the `{}` of the template.
      A config without `args` or `pycmd` raises KeyError; `args` that is
      not a dict, or a template that is not text, has no such method. */
  method CmdBuilder(testConfig: Config) returns (r: Result<string>)
    ensures !("args" in testConfig && testConfig["args"].Dict? && "pycmd" in testConfig && testConfig["pycmd"].Str?)
            ==> r.Failure?
    ensures "args" in testConfig && testConfig["args"].Dict? && "pycmd" in testConfig && testConfig["pycmd"].Str?
            ==> r == FormatOne(testConfig["pycmd"].s, RenderArgs(testConfig["args"].entries), false)
  {
    var args := Lookup(testConfig, "args");
    if args.Failure? {
      return Failure(args.error);
    }
    if !args.value.Dict? {
      return Failure("AttributeError: object has no attribute 'items'");
    }
    var argStr := BuildArgString(args.value.entries);
    var pycmd := Lookup(testConfig, "pycmd");
    if pycmd.Failure? {
      return Failure(pycmd.error);
    }
    if !pycmd.value.Str? {
      return Failure("AttributeError: object has no attribute 'format'");
    }
    return FormatOne(pycmd.value.s, argStr, false);
  }

  /** The command of a multi-GPU template with any brace-free flags. */
  lemma MultiGpuCommand(gpus: int, imagenetDir: Value, flags: string, argStr: string)
    requires gpus > 1 && NoBraces(flags) && NoBraces(Show(imagenetDir))
    ensures FormatOne(Pycmd(gpus, imagenetDir, flags), argStr, false)
            == Success("python3 main.py " + argStr + " " + flags + " " + Show(imagenetDir))
  {
    var b := " " + flags + " " + Show(imagenetDir);
    NoBracesConcat(" ", flags);
    NoBracesConcat(" " + flags, " ");
    NoBracesConcat(" " + flags + " ", Show(imagenetDir));
    assert Pycmd(gpus, imagenetDir, flags) == "python3 main.py " + "{}" + b;
    FormatOneHole("python3 main.py ", b, argStr);
    assert "python3 main.py " + argStr + b == "python3 main.py " + argStr + " " + flags + " " + Show(imagenetDir);
  }

  lemma DevicesNoBraces() ensures NoBraces("CUDA_VISIBLE_DEVICES=") {}
  lemma ScriptNoBraces() ensures NoBraces(" python3 main.py ") {}

  /** The one-GPU template with the GPU list and data folder as text. */
  lemma SingleGpuTemplate(g: string, dir: string, argStr: string)
    requires NoBraces(g) && NoBraces(dir)
    ensures FormatOne("CUDA_VISIBLE_DEVICES=" + g + " python3 main.py " + "{}" + " " + dir, argStr, false)
            == Success("CUDA_VISIBLE_DEVICES=" + g + " python3 main.py " + argStr + " " + dir)
  {
    var a := "CUDA_VISIBLE_DEVICES=" + g + " python3 main.py ";
    DevicesNoBraces();
    ScriptNoBraces();
    NoBracesConcat("CUDA_VISIBLE_DEVICES=", g);
    NoBracesConcat("CUDA_VISIBLE_DEVICES=" + g, " python3 main.py ");
    NoBracesConcat(" ", dir);
    assert a + "{}" + " " + dir == a + "{}" + (" " + dir);
    FormatOneHole(a, " " + dir, argStr);
    assert a + argStr + (" " + dir) == a + argStr + " " + dir;
  }

  /** The command of a one-GPU template: the device prefix, the script,
      the argument string and the data folder. */
  lemma SingleGpuCommand(gpus: int, imagenetDir: Value, flags: string, argStr: string)
    requires gpus <= 1 && NoBraces(Show(imagenetDir))
    ensures FormatOne(Pycmd(gpus, imagenetDir, flags), argStr, false)
            == Success("CUDA_VISIBLE_DEVICES=" + GpuList(gpus) + " python3 main.py " + argStr + " " + Show(imagenetDir))
  {
    GpuListNoBraces(gpus);
    SingleGpuTemplate(GpuList(gpus), Show(imagenetDir), argStr);
  }

  /** The command of a built config, with the flags as written (`sep` is
      "") or corrected (`sep` is " "): on one GPU the device prefix, the
      script, the argument string and the data folder; on several the
      script, the argument string, the distributed flags and the folder. A
      data folder whose text holds a brace would upset the template. */
  lemma BuiltCommand(gpus: int, imagenetDir: Value, sep: string, argStr: string)
    requires NoBraces(sep) && NoBraces(Show(imagenetDir))
    ensures gpus <= 1 ==>
              FormatOne(Pycmd(gpus, imagenetDir, DistFlags(sep)), argStr, false)
              == Success("CUDA_VISIBLE_DEVICES=" + GpuList(gpus) + " python3 main.py " + argStr + " " + Show(imagenetDir))
    ensures gpus > 1 ==>
              FormatOne(Pycmd(gpus, imagenetDir, DistFlags(sep)), argStr, false)
              == Success("python3 main.py " + argStr + " " + DistFlags(sep) + " " + Show(imagenetDir))
  {
    if gpus <= 1 {
      SingleGpuCommand(gpus, imagenetDir, DistFlags(sep), argStr);
    } else {
      DistFlagsNoBraces(sep);
      MultiGpuCommand(gpus, imagenetDir, DistFlags(sep), argStr);
    }
  }

  /** As written, the multi-GPU command that _cmd_builder makes of the
      template carries the flags in which `'nccl'--multiprocessing-distributed`
      is one shell word: the backend is misnamed and the flag is lost. */
  lemma AsWrittenMultiGpuCommand(gpus: int, imagenetDir: Value, argStr: string)
    requires gpus > 1 && NoBraces(Show(imagenetDir))
    ensures FormatOne(Pycmd(gpus, imagenetDir, DIST_FLAGS_AS_WRITTEN), argStr, false)
            == Success("python3 main.py " + argStr + " " + DIST_FLAGS_AS_WRITTEN + " " + Show(imagenetDir))
    ensures DIST_FLAGS_AS_WRITTEN == DIST_URL + DIST_BACKEND + (NCCL + MP_FLAG) + RANK_FLAGS
    ensures Word(NCCL + MP_FLAG)
  {
    BuiltCommand(gpus, imagenetDir, "", argStr);
    DistFlagsRunTogether();
  }

  /** Corrected, the same command passes `'nccl'` and
      `--multiprocessing-distributed` as two words. */
  lemma CorrectedMultiGpuCommand(gpus: int, imagenetDir: Value, argStr: string)
    requires gpus > 1 && NoBraces(Show(imagenetDir))
    ensures FormatOne(Pycmd(gpus, imagenetDir, DIST_FLAGS), argStr, false)
            == Success("python3 main.py " + argStr + " " + DIST_FLAGS + " " + Show(imagenetDir))
    ensures DIST_FLAGS == DIST_URL + DIST_BACKEND + NCCL + " " + MP_FLAG + RANK_FLAGS
    ensures Word(NCCL) && Word(MP_FLAG)
  {
    BuiltCommand(gpus, imagenetDir, " ", argStr);
    DistFlagsSeparate();
  }
}
