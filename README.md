# oss_bench core, modelled in Dafny

This project models the core of the oss_bench benchmark harness. The harness
builds the command lines of TensorFlow, MXNet, PyTorch and Keras benchmark
runs. It reads their logs back into result records, and aggregates repeated
runs. It also searches for the largest batch size that fits in GPU memory,
keeps track of which builds have been tested, and bootstraps the run inside a
docker image. Along the way it reads the system's CPUs and GPUs, and creates
and decodes Google Compute Engine instance descriptions.

The model keeps the source's own form:

- Pure builders and parsers become functions on values.
- Python dictionaries become `Values.Value` / `Values.Config`.
- The harness's own result records become `Records.ResultRecord`.
- Each loop the source writes becomes a method with its invariants, proved
  against a specification function:
  - the argument-string loop of `_cmd_builder`;
  - the pass-through flags;
  - the settings overlay;
  - the OOM batch-size search;
  - the log sampling loops;
  - the disk and mount loops;
  - the GPU watch;
  - the nvidia-smi process table.
- The two objects that change in place become classes: the test tracker,
  whose state is a map, and the docker bootstrap, which records the shell
  commands it issues.

A Python exception is a `Failure` carrying the exception's name. Each module's
header comment names the source file it models.

Some of the world is passed in as parameters:

- Shell commands become their return code and output.
- Files become an optional list of lines, with `None` meaning the file could
  not be opened. Each line keeps its trailing `\n`, as iterating a Python
  file yields it. `TokenNumber`'s rstrip and `MetricText`'s missing-`}` case
  depend on that.
- YAML documents become already-parsed values.
- `float()` and `literal_eval` of log text become a parsing function.

Modules:

- `Wrappers`, `Strs`, `KeyOrder`: the Python built-ins the core relies on.
  These are `split`, `split()`, `splitlines`, `strip`, `find`, slicing,
  `int()` and `str()` of integers, and the ordering `sorted()` puts keys in.
- `Values`, `Records`: dictionaries and the result record.
- `CommandBuilder`, `RunBenchmark`, `TfCnnReporting`: the tf_cnn_benchmarks
  runner.
- `ArgRender`, `TfModelsRunner`, `MxnetRunner`, `PytorchRunner`: the other
  runners' configs and command lines.
- `BatchSampling`, `MxnetReporting`, `PytorchReporting`, `KerasReporting`:
  the log reporters.
- `Util`, `ResultInfo`: aggregation and upload records.
- `Tracker`, `DockerBootstrap`, `Gce`, `Nvidia`, `Cpu`, `NvidiaTools`: tools.

## Model

| member | source | states |
|---|---|---|
| Values.ToInt | oss_bench/test_runners/tf_cnn_bench/reporting.py:55-56 | int() of a value: an int is itself, text converts exactly when it parses as an integer, and None, lists and dicts are a TypeError |
| Values.Lookup | oss_bench/test_runners/tf_cnn_bench/reporting.py:57 | `d[key]` is the stored value exactly when the key is present, a KeyError otherwise |
| Values.In | oss_bench/test_runners/mxnet/reporting.py:67 | `key in v` is dict membership, substring or list membership; None and numbers are a TypeError |
| Values.GetOr | oss_bench/test_runners/pytorch/runner.py:190 | `d.get(key, default)`: the stored value when present, the default otherwise |
| Values.Update | oss_bench/test_runners/pytorch/runner.py:205 | `args.update(test_args)` on a copy: the keys of both, and the update's value wherever it has one |
| Values.UpdateIdempotent | oss_bench/test_runners/pytorch/runner.py:205 | laying the same arguments over twice is laying them over once |
| Values.UpdateAssociative | oss_bench/test_runners/mxnet/runner.py:176-197 | a chain of overlays applies the later dictionary last |
| Values.ShowIntParses | oss_bench/test_runners/mxnet/runner.py:230 | `int(str(i)) == i` for every integer the harness prints |
| Values.OverlaySettings | oss_bench/test_runners/tf_cnn_bench/run_benchmark.py:192-196 | the loop copying every shared setting except `run_configs` yields the destination overlaid with those settings; keys it does not set keep their values |
| Values.OverlayStep | oss_bench/test_runners/tf_cnn_bench/run_benchmark.py:194-196 | copying one more setting, or skipping `run_configs`, keeps the loop's invariant |
| Values.OverlayComplete | oss_bench/test_runners/tf_cnn_bench/run_benchmark.py:194-196 | once every key has been visited, the loop's result is the overlay |
| Values.FormatPlain | oss_bench/test_runners/pytorch/runner.py:225 | `str.format` of a template without braces returns the template |
| Values.FormatOneHole | oss_bench/test_runners/pytorch/runner.py:225 | a template with one `{}` and no other brace has the argument put in place of the `{}` |
| Records.GpuOf | oss_bench/test_runners/tf_cnn_bench/reporting.py:55-56 | `gpu` is `int(config['gpus'])` when the key is present, absent otherwise, and the int() error when it does not convert |
| Records.ExtraOf | oss_bench/test_runners/tf_cnn_bench/reporting.py:71-78 | the parsed extra_results.yaml as the record stores it: a list becomes one entry per item, item k being the loaded form of the k-th list element, and anything else is kept as it is |
| KeyOrder.LeastExists | oss_bench/test_runners/mxnet/runner.py:249 | every non-empty key set has a least key under the order `sorted()` uses |
| KeyOrder.SortedKeysAscending | oss_bench/test_runners/mxnet/runner.py:249 | the keys taken least-first are strictly ascending |
| ArgRender.BuildArgString | oss_bench/test_runners/mxnet/runner.py:248-250 | the accumulation loop yields `--key value ` for every key in ascending order, that is, the rendering of `sorted(args)` |
| ArgRender.RenderKeysWords | oss_bench/test_runners/mxnet/runner.py:248-250 | splitting the argument string on whitespace gives back each `--key` followed by its value, in ascending key order |
| ArgRender.PythonCommand | oss_bench/test_runners/mxnet/runner.py:235-251 | `python {pycmd} {args}` when the config has a dict `args` and a `pycmd`; a KeyError or AttributeError otherwise |
| ArgRender.PythonCommandWords | oss_bench/test_runners/tf_models/runner.py:222-238 | with a one-word script and plain arguments the command reads back as `python`, the script, then each key and value in ascending order |
| ArgRender.GpuListRoundTrip | oss_bench/test_runners/mxnet/runner.py:230 | the GPU list `','.join(str(x) for x in xrange(gpus))` splits back into one id per GPU, and id k reads back as k |
| ArgRender.GpuListNoBraces | oss_bench/test_runners/pytorch/runner.py:177-178 | the GPU list holds no brace, so the format template leaves it intact |
| CommandBuilder.CollectPassThrough | oss_bench/test_runners/tf_cnn_bench/command_builder.py:18-29 | the pass-through loop emits `--name=value` for each listed name the config holds, in list order |
| CommandBuilder.PassThroughFlagsExactly | oss_bench/test_runners/tf_cnn_bench/command_builder.py:18-29 | a pass-through flag appears exactly for the listed names present in the config, and carries the config's value |
| CommandBuilder.WorkerFlags | oss_bench/test_runners/tf_cnn_bench/command_builder.py:15-53 | the worker takes the pass-through flags plus two, and one more for each of `ps_server`, `gpus` and `trace_file` that is set |
| CommandBuilder.BuildDistributedCommandWorker | oss_bench/test_runners/tf_cnn_bench/command_builder.py:5-57 | the command is the script followed by the flags joined by spaces; a `trace_file` without a `model` is a KeyError |
| CommandBuilder.CommandStartsWithScript | oss_bench/test_runners/tf_cnn_bench/command_builder.py:8-12 | `env_vars`, when set, come first, then one space, then the script |
| CommandBuilder.WorkerFlagsFixed | oss_bench/test_runners/tf_cnn_bench/command_builder.py:38-44 | `--nodistortions` is always passed; exactly one flag starts with `--display_every=`, and its value is the configured one or 10 |
| CommandBuilder.TraceFlag | oss_bench/test_runners/tf_cnn_bench/command_builder.py:46-53 | with `trace_file` set the last flag is `--trace_file=` with the name `{trace_file}_{model}_{gpus}.txt` or `{trace_file}_{model}.txt`; without it no flag starts with `--trace_file=` |
| CommandBuilder.GpuDecode | oss_bench/test_runners/tf_cnn_bench/command_builder.py:60-65 | an int becomes its decimal text, a string is split on commas, and anything else is an AttributeError |
| CommandBuilder.GpuDecodeInverse | oss_bench/test_runners/tf_cnn_bench/command_builder.py:60-65 | the decoded parts are comma-free and join back to the original string; a decoded int reads back as itself |
| CommandBuilder.RunEntries | oss_bench/test_runners/tf_cnn_bench/command_builder.py:87-90 | succeeds exactly when `run_configs` is a list of dicts, with one config per entry; otherwise the KeyError, or a failure for a non-list `run_configs` or a non-dict entry |
| CommandBuilder.ExpandGroup | oss_bench/test_runners/tf_cnn_bench/command_builder.py:105-113 | `repeat` numbered copies when `repeat` is set, otherwise the config alone; a bad `repeat` fails int() |
| CommandBuilder.GroupCopies | oss_bench/test_runners/tf_cnn_bench/command_builder.py:105-113 | with `repeat = n` the group holds n copies, copy j carries `copy = j` and is otherwise the config |
| CommandBuilder.LoadYamlRunConfig | oss_bench/test_runners/tf_cnn_bench/command_builder.py:68-116 | one group per run_configs entry, in order; at a positive debug level a config without `test_id` is a KeyError |
| CommandBuilder.MergedEntry | oss_bench/test_runners/tf_cnn_bench/command_builder.py:91-103 | entry i holds exactly the keys of the first entry, the shared settings and, for a later entry, its own keys |
| CommandBuilder.Group | oss_bench/test_runners/tf_cnn_bench/command_builder.py:105-113 | a config without a `repeat` (or with `repeat: None`) is its own group; with one, the group exists exactly when int() of `repeat` succeeds |
| CommandBuilder.LaterEntryWins | oss_bench/test_runners/tf_cnn_bench/command_builder.py:91-103 | a later entry's own keys win over the first entry and over the shared settings; its other keys come from the first entry with the settings written in |
| CommandBuilder.FirstEntryTakesSettings | oss_bench/test_runners/tf_cnn_bench/command_builder.py:99-103 | the first entry receives every shared setting, over its own value |
| RunBenchmark.MergeGlobalConfig | oss_bench/test_runners/tf_cnn_bench/run_benchmark.py:187-196 | the run config is a copy of the sub-config with every global setting except `run_configs` written over it, and is unchanged when the global config is empty |
| RunBenchmark.MinOom | oss_bench/test_runners/tf_cnn_bench/run_benchmark.py:128-137 | the recorded lowest OOM size is at most `oom_high`, is `oom_high` or an OOM size tried, and lies below every OOM size tried |
| RunBenchmark.OomSearch | oss_bench/test_runners/tf_cnn_bench/run_benchmark.py:124-140 | the search terminates; the first size tried is `oom_high` and all tried sizes lie within the bounds; the lowest OOM size is the minimum of `oom_high` and the OOM sizes; at the end it is within one of `oom_low` or of a size that fit; the search succeeds exactly when 0 <= `oom_low` <= `oom_high` |
| RunBenchmark.SearchStep | oss_bench/test_runners/tf_cnn_bench/reporting.py:151-163 | one `oom_batch_size_search` step keeps the search invariant: bounds inside the configured ones, `high` the lowest OOM recorded, and `low` a size that fit |
| RunBenchmark.RunTestConfig | oss_bench/test_runners/tf_cnn_bench/run_benchmark.py:121-148 | a config without a truthy `oom_test` runs once as it is; a missing bound is a KeyError with no run; with int bounds the runs are the config with `batch_size` set to each size the search tries, in order, and the search's facts hold; a non-int bound runs once at `oom_high` and then fails with a TypeError unless that run fits with an int `oom_high` |
| TfCnnReporting.OomStepBounds | oss_bench/test_runners/tf_cnn_bench/reporting.py:151-163 | `OomBatchSizeSearch`: an OOM moves `high` down to the current size and a fit moves `low` up to it; -1 is returned exactly when the next size would repeat the current one |
| TfCnnReporting.OomStepNarrows | oss_bench/test_runners/tf_cnn_bench/reporting.py:151-163 | `OomBatchSizeSearch`: within ordered non-negative bounds a step that continues narrows the interval, with the next size strictly inside; a step that stops leaves at most one size |
| TfCnnReporting.OomInvertedBoundsCycle | oss_bench/test_runners/tf_cnn_bench/reporting.py:151-163 | as written, with `low = h + 1` and `high = h` the step alternates between h and h + 1 forever |
| TfCnnReporting.CheckOom | oss_bench/test_runners/tf_cnn_bench/reporting.py:143-149 | true iff some line contains "OOM when allocating tensor"; a missing file is an IOError |
| TfCnnReporting.TokenNumber | oss_bench/test_runners/tf_cnn_bench/reporting.py:92-93 | float() of the chosen space-separated token after rstrip; a short line is an IndexError, a non-number a ValueError |
| TfCnnReporting.ParseResultFile | oss_bench/test_runners/tf_cnn_bench/reporting.py:81-96 | `imgs_sec` comes from the first line starting with "total images/sec"; a missing file, or one with no such line, leaves the record unchanged |
| TfCnnReporting.FirstSummaryWins | oss_bench/test_runners/tf_cnn_bench/reporting.py:94-95 | the lines after the first summary line never change the result |
| TfCnnReporting.EvalScan | oss_bench/test_runners/tf_cnn_bench/reporting.py:107-125 | a successful scan holds no entries or exactly one top_1/top_5 accuracy pair |
| TfCnnReporting.EvalScanShape | oss_bench/test_runners/tf_cnn_bench/reporting.py:107-125 | after a good scan the entries are empty iff no line starts with "Accuracy @", and are otherwise one top_1/top_5 pair; with no summary line the rate stays 0 |
| TfCnnReporting.EvalScanLastAccuracy | oss_bench/test_runners/tf_cnn_bench/reporting.py:110-122 | a scan ending in an accuracy line has that line's entries, whatever preceded it |
| TfCnnReporting.LastAccuracyWins | oss_bench/test_runners/tf_cnn_bench/reporting.py:108-122 | the entries of a successful scan are the top_1 (fifth token) and top_5 (tenth token) values of the last line starting with "Accuracy @", whatever lines precede or follow it |
| TfCnnReporting.LastTotalWins | oss_bench/test_runners/tf_cnn_bench/reporting.py:108-125 | the rate of a successful scan is the third token of the last line starting with "total images/sec", whatever lines precede or follow it |
| TfCnnReporting.EvalScanFailureSticks | oss_bench/test_runners/tf_cnn_bench/reporting.py:108-125 | an unreadable line ends the scan with its error, whatever follows |
| TfCnnReporting.EvalEntries | oss_bench/test_runners/tf_cnn_bench/reporting.py:127-131 | the scanned entries, followed by `eval_exp_per_sec` exactly when the rate is nonzero |
| TfCnnReporting.FinishEval | oss_bench/test_runners/tf_cnn_bench/reporting.py:133-140 | `imgs_sec` is set only when absent and the rate is nonzero; the entries extend an existing list or become the list; a non-list is an AttributeError |
| TfCnnReporting.ParseEvalResultFile | oss_bench/test_runners/tf_cnn_bench/reporting.py:98-141 | a missing file leaves the record unchanged; otherwise the record is the scan's outcome laid onto it, so the last accuracy line and the last rate line decide the entries |
| TfCnnReporting.ProcessBaseResultFiles | oss_bench/test_runners/tf_cnn_bench/reporting.py:46-79 | the record holds the config, `gpu` when given, `test_id` (KeyError when missing), `data_type` real iff the config has `data_dir`, the folder, and the extra results |
| BatchSampling.SampleLog | oss_bench/test_runners/mxnet/reporting.py:77-89 | the reporters' loop returns the sum and count of the values that the scan specification samples past the warm-up and up to the stop batch, or the scan's error |
| BatchSampling.WarmUpIgnored | oss_bench/test_runners/mxnet/reporting.py:82-85 | readings of the warm-up leave the outcome as if they were not there |
| BatchSampling.StopLine | oss_bench/test_runners/mxnet/reporting.py:87-89 | a readable line past the stop batch ends the loop, and nothing after it is read |
| BatchSampling.ScanCount | oss_bench/test_runners/keras_tf_models/reporting.py:92-106 | with no stop batch every reading is read, and at most one value is sampled per reading |
| BatchSampling.Mean | oss_bench/test_runners/mxnet/reporting.py:90 | `sum_speed / samples`: the mean, or a ZeroDivisionError when nothing was sampled |
| BatchSampling.MeanWithin | oss_bench/test_runners/mxnet/reporting.py:90 | the mean lies between the smallest and largest sampled value |
| MxnetReporting.BaseRecord | oss_bench/test_runners/mxnet/reporting.py:60-74 | succeeds iff `test_id` and `args` are present and `gpus` converts; `data_type` is real iff `data-train` is in the args |
| MxnetReporting.Read | oss_bench/test_runners/mxnet/reporting.py:79-85 | a line is skipped iff it is not a speed line; otherwise it gives the batch number from the third token and the speed from the fifth |
| BatchSampling.MeanRecord | oss_bench/test_runners/mxnet/reporting.py:90-91 | the MXNet and Keras record gets the mean speed and the sample count; a ZeroDivisionError iff nothing was sampled |
| MxnetReporting.ParseResultFile | oss_bench/test_runners/mxnet/reporting.py:39-92 | IOError for a missing file, the base error, or the base record with the mean of batches 11 and later up to the first batch past 100 |
| MxnetReporting.WarmUpLinesIgnored | oss_bench/test_runners/mxnet/reporting.py:82-85 | speed lines of batches up to 10 do not change the result |
| BatchSampling.StopLineEndsLog | oss_bench/test_runners/mxnet/reporting.py:87-89 | a line read as a batch past the stop batch (100 for MXNet, 200 for PyTorch) is the last line read: whatever follows it leaves the scan unchanged |
| BatchSampling.SpeedWithinSamples | oss_bench/test_runners/mxnet/reporting.py:90 | the reported mean speed lies between the slowest and fastest sampled speed |
| PytorchReporting.ResultFiles | oss_bench/test_runners/pytorch/reporting.py:26-34 | at most as many names as given, each kept name among the given ones and a result-file name |
| PytorchReporting.ResultFilesKeep | oss_bench/test_runners/pytorch/reporting.py:30-31 | a name is kept iff it is given and is worker 0's `.log` or `.txt` stdout |
| PytorchReporting.CollectResultFiles | oss_bench/test_runners/pytorch/reporting.py:30-31 | the loop keeps exactly the result-file names, in order |
| PytorchReporting.BaseRecord | oss_bench/test_runners/pytorch/reporting.py:56-65 | succeeds iff `test_id` is present and `gpus` converts; `data_type` is always real |
| PytorchReporting.Read | oss_bench/test_runners/pytorch/reporting.py:70-77 | a line is skipped iff it lacks "Epoch"; otherwise it gives the batch number before the `/` and the step time from the fifth token |
| PytorchReporting.TotalBatchSize | oss_bench/test_runners/pytorch/reporting.py:82 | `batch_size * gpus`, or a KeyError when either is missing |
| PytorchReporting.Finish | oss_bench/test_runners/pytorch/reporting.py:82-84 | succeeds iff the batch size exists, something was sampled and the total time is nonzero; the value is steps times batch size over total time |
| PytorchReporting.Throughput | oss_bench/test_runners/pytorch/reporting.py:83 | `(1 / (total / n)) * tb` equals `n * tb / total` |
| PytorchReporting.ParseResultFile | oss_bench/test_runners/pytorch/reporting.py:37-85 | IOError, the base error, or the base record with the throughput over batches 21 and later up to the first batch past 200 |
| PytorchReporting.WarmUpLinesIgnored | oss_bench/test_runners/pytorch/reporting.py:74-77 | step lines of batches up to 20 do not change the result |
| PytorchReporting.ThroughputIsBatchOverMeanTime | oss_bench/test_runners/pytorch/reporting.py:82-84 | the throughput is the total batch size over the mean step time |
| PytorchReporting.ThroughputWithin | oss_bench/test_runners/pytorch/reporting.py:82-84 | with step times in [lo, hi] and lo > 0, the throughput lies in [tb/hi, tb/lo] |
| KerasReporting.ProcessBaseResultFiles | oss_bench/test_runners/keras_tf_models/reporting.py:43-75 | the config, `gpu` when given, `test_id` (KeyError), `data_type` synth iff `use_synthetic_data` is in the args, the folder and the extra results |
| KerasReporting.MetricText | oss_bench/test_runners/keras_tf_models/reporting.py:96-98 | the text between the braces plus `}` when both are present in order; just `}` when `{` is missing or follows `}`; from `{` up to the last character (excluded) plus `}` when `}` is missing |
| KerasReporting.NumSamples | oss_bench/test_runners/keras_tf_models/reporting.py:89 | `gpus * batch_size * 100`; no test config is a TypeError and a missing key a KeyError |
| KerasReporting.SpeedOf | oss_bench/test_runners/keras_tf_models/reporting.py:104 | the speed exists exactly when `time_taken` is present, numeric and nonzero, and is then the samples over the time |
| KerasReporting.Read | oss_bench/test_runners/keras_tf_models/reporting.py:94-104 | a line is skipped iff it lacks either marker; otherwise the parsed dict gives the batch count and, past the warm-up, the speed |
| KerasReporting.ParseResultFile | oss_bench/test_runners/keras_tf_models/reporting.py:78-110 | a missing file leaves the result as it was; otherwise it gets the mean speed of the metrics past batch 100, read to the end |
| KerasReporting.WarmUpLinesIgnored | oss_bench/test_runners/keras_tf_models/reporting.py:103 | metric lines of 100 batches or fewer do not change the result |
| KerasReporting.ReadsToTheEnd | oss_bench/test_runners/keras_tf_models/reporting.py:92-106 | the scan never breaks off and samples at most one speed per line |
| TfModelsRunner.ResnetArgsContent | oss_bench/test_runners/tf_models/runner.py:201-215 | `ResnetArgs`: the defaults hold exactly the data source, one intra-op thread, the ResNet version, size and dtype, the total batch size, the GPU count and the hooks |
| TfModelsRunner.BuildResnetTestConfig | oss_bench/test_runners/tf_models/runner.py:160-220 | the config holds exactly its fields, with the test's arguments laid over the defaults |
| TfModelsRunner.ResnetConfigFixed | oss_bench/test_runners/tf_models/runner.py:180-186 | 400 batches, three repeats, official/resnet, imagenet_main.py and the test id |
| TfModelsRunner.ResnetConfigChoices | oss_bench/test_runners/tf_models/runner.py:188-200 | the model name follows the version and use_fp16 the dtype; the config keeps the per-GPU batch size |
| TfModelsRunner.ResnetConfigArgs | oss_bench/test_runners/tf_models/runner.py:218 | every test argument wins, and every other default stays |
| TfModelsRunner.TotalBatchSize | oss_bench/test_runners/tf_models/runner.py:200-212 | unless overridden the script gets `batch_size * gpus` while the config keeps the per-GPU size |
| MxnetRunner.BaseSynthArgs | oss_bench/test_runners/mxnet/runner.py:152-158 | exactly one epoch, benchmark mode and a display every 5 batches |
| MxnetRunner.BaseImagenetArgs | oss_bench/test_runners/mxnet/runner.py:160-174 | an AssertionError without an ImageNet folder; otherwise one epoch, the data files, and `data_threads` or 4 reader threads |
| MxnetRunner.ResnetV1BaseArgs | oss_bench/test_runners/mxnet/runner.py:176-197 | the base arguments, then the ResNet settings, then the caller's, each layer winning over the one before |
| MxnetRunner.BuildTestConfig | oss_bench/test_runners/mxnet/runner.py:199-233 | the fixed fields, and the merged arguments with batch size, GPU list and kv-store written last |
| MxnetRunner.FixedArgs | oss_bench/test_runners/mxnet/runner.py:228-231 | exactly the total batch size (per-GPU size times GPUs), the GPU id list and the device kv-store |
| MxnetRunner.ConfigWith | oss_bench/test_runners/mxnet/runner.py:216-227 | exactly the eight config fields, with the given arguments under `args` |
| MxnetRunner.TestConfigFixed | oss_bench/test_runners/mxnet/runner.py:212-223 | 150 batches, three repeats, train_imagenet.py, resnet50 and the per-GPU batch size |
| MxnetRunner.TestConfigArgs | oss_bench/test_runners/mxnet/runner.py:225-232 | batch size, GPU list and kv-store override the caller; every other caller argument wins over the defaults |
| MxnetRunner.CallerDtypeWins | oss_bench/test_runners/mxnet/runner.py:176-197 | a caller's float16 dtype replaces the float32 default |
| PytorchRunner.DistFlagsRunTogether | oss_bench/test_runners/pytorch/runner.py:180-181 | as written, `'nccl'` and `--multiprocessing-distributed` form a single shell word |
| PytorchRunner.DistFlagsSeparate | oss_bench/test_runners/pytorch/runner.py:180-181 | with the space they are two words |
| PytorchRunner.DistFlagsNoBraces | oss_bench/test_runners/pytorch/runner.py:180-184 | the flags hold no brace, so the template leaves them intact |
| PytorchRunner.Pycmd | oss_bench/test_runners/pytorch/runner.py:177-188 | on one GPU the template starts with the device list and `python3 main.py {} `; on several it starts with `python3 main.py {} ` and has no device prefix |
| PytorchRunner.DefaultArgs | oss_bench/test_runners/pytorch/runner.py:195-202 | exactly print-freq, epochs, arch, batch-size and workers, with the batch size the per-GPU size times the GPUs |
| PytorchRunner.ResnetConfigFields | oss_bench/test_runners/pytorch/runner.py:171-194 | `BuildResnetTestConfig`: the fixed fields, the per-GPU batch size, and `repeat` from auto_test_config when given |
| PytorchRunner.ResnetConfigShape | oss_bench/test_runners/pytorch/runner.py:159-207 | `BuildResnetTestConfig`: the config holds exactly its nine fields, the template for the given distributed flags, and the overlaid arguments |
| PytorchRunner.ResnetConfigArgs | oss_bench/test_runners/pytorch/runner.py:195-205 | test arguments win; other defaults are print-freq or 1, workers or 5, one epoch, resnet50 and the total batch size |
| PytorchRunner.CmdBuilder | oss_bench/test_runners/pytorch/runner.py:209-225 | the sorted argument string put into the template; a KeyError or AttributeError otherwise |
| PytorchRunner.SingleGpuCommand | oss_bench/test_runners/pytorch/runner.py:186-188 | on one GPU: the device prefix, the script, the arguments and the data folder |
| PytorchRunner.MultiGpuCommand | oss_bench/test_runners/pytorch/runner.py:179-184 | on several GPUs: the script, the arguments, the flags and the data folder |
| PytorchRunner.BuiltCommand | oss_bench/test_runners/pytorch/runner.py:177-188 | the full command for either GPU count and for any brace-free flag separator, provided the data folder has no brace |
| PytorchRunner.AsWrittenMultiGpuCommand | oss_bench/test_runners/pytorch/runner.py:179-184 | as written, the multi-GPU command carries `'nccl'--multiprocessing-distributed` as one shell word |
| PytorchRunner.CorrectedMultiGpuCommand | oss_bench/test_runners/pytorch/runner.py:179-184 | with the space the multi-GPU command carries `'nccl'` and `--multiprocessing-distributed` as two words |
| Util.ReportConfigDefaults | oss_bench/test_runners/common/util.py:6-22 | every report setting is present; given ones keep their values, missing ones take the default, and other keys are copied |
| Util.ReportConfigDefaultsIdempotent | oss_bench/test_runners/common/util.py:6-22 | filling in the defaults twice changes nothing |
| Util.Sort | oss_bench/test_runners/common/util.py:46 | ascending and the same multiset |
| Util.SumPermutation | oss_bench/test_runners/common/util.py:46-48 | sorting does not change the sum |
| Util.MeanBetween | oss_bench/test_runners/common/util.py:48 | the mean of a non-empty list lies between its minimum and maximum |
| Util.ReportAggregateResults | oss_bench/test_runners/common/util.py:25-53 | the first result with the sample count, the mean of the `imgs_sec` values, and min and max values that occur and bound every value and the mean; an empty list is an IndexError and a missing key a KeyError |
| ResultInfo.BuildTestResult | oss_bench/upload/result_info.py:4-35 | exactly test_id, test_harness and test_environment, plus a one-result list |
| ResultInfo.BuildResultInfo | oss_bench/upload/result_info.py:37-61 | exactly one new entry at the end; earlier entries are untouched |
| ResultInfo.TestResultDefaults | oss_bench/upload/result_info.py:4-9 | with only the id and the result given, harness and environment are "unknown" and the entry is total_time in ms |
| ResultInfo.BuildSystemInfo | oss_bench/upload/result_info.py:63-93 | a key for each truthy argument and no other |
| ResultInfo.BuildTestInfo | oss_bench/upload/result_info.py:95-120 | framework, batch_size, model and accel_cnt, each only when truthy |
| ResultInfo.TestInfoDefaults | oss_bench/upload/result_info.py:95-120 | the default framework is recorded, and a zero batch size is not |
| Tracker.TestTracker.CheckState | oss_bench/tools/tracker.py:10-17 | true iff the build's key has an entry listing the test |
| Tracker.TestTracker.UpdateState | oss_bench/tools/tracker.py:20-39 | the state becomes the specification's update: find or create the entry and add the test once |
| Tracker.UpdateThenCheck | oss_bench/tools/tracker.py:20-39 | after an update the check for that build and test succeeds |
| Tracker.UpdateIdempotent | oss_bench/tools/tracker.py:36-37 | updating twice is updating once |
| Tracker.UpdateNewKey | oss_bench/tools/tracker.py:27-34 | a new build gets an entry with its four fields and the one test |
| Tracker.UpdateFrame | oss_bench/tools/tracker.py:20-39 | other keys' entries are untouched, and no key disappears |
| Tracker.UpdateNoDuplicates | oss_bench/tools/tracker.py:36-37 | a repeat-free test list stays repeat-free |
| Tracker.ConcatenationShared | oss_bench/tools/tracker.py:62-65 | fields are concatenated without a separator, so ("ab","c") and ("a","bc") share an entry |
| DockerBootstrap.BuildDockerMounts | oss_bench/bootstrap/docker_bootstrap.py:146-152 | the loop returns `Mounts`: ` -v folder:docker` for each mount point in order, or the first bad mount's error |
| DockerBootstrap.MountsConcat | oss_bench/bootstrap/docker_bootstrap.py:149-151 | `Mounts`: the flags of joined lists are the flags of each, in order |
| DockerBootstrap.MountsFailurePersists | oss_bench/bootstrap/docker_bootstrap.py:149-151 | a bad mount point stays the error, whatever follows |
| DockerBootstrap.WithHarnessMounts | oss_bench/bootstrap/docker_bootstrap.py:196-202 | auth-token then workspace mounts are appended; a missing `mount_point` is a KeyError and a non-list an AttributeError |
| DockerBootstrap.HarnessMountsLast | oss_bench/bootstrap/docker_bootstrap.py:196-202 | the harness mounts come after the configured ones, auth tokens first |
| DockerBootstrap.NoBootstrapConfig | oss_bench/bootstrap/docker_bootstrap.py:136-144 | with no config path there are no mount points of its own |
| DockerBootstrap.BuildDockerCmd | oss_bench/bootstrap/docker_bootstrap.py:154-172 | the command, or the mount error |
| DockerBootstrap.BinaryChoice | oss_bench/bootstrap/docker_bootstrap.py:157-159 | `DockerCommand` starts with `docker` iff pure docker is requested, otherwise `nvidia-docker`, then ` run ` |
| DockerBootstrap.IpcHostForPytorch | oss_bench/bootstrap/docker_bootstrap.py:162-164 | `--ipc=host` follows `run ` exactly for PyTorch; other frameworks get an empty argument |
| DockerBootstrap.ExistingProcessCheck | oss_bench/bootstrap/docker_bootstrap.py:84-108 | true iff every check up to past 300 seconds finds the GPUs free |
| DockerBootstrap.HarnessMountsKeepOutcome | oss_bench/bootstrap/docker_bootstrap.py:196-202 | appending harness mounts fails exactly when the configured ones fail |
| DockerBootstrap.RunCommandMounts | oss_bench/bootstrap/docker_bootstrap.py:174-206 | `RunCommand`: a command results iff the loaded config has a list of good mount points; it holds the configured mounts, then the harness mounts, and the tagged image |
| DockerBootstrap.DefaultRunCommand | oss_bench/bootstrap/docker_bootstrap_test.py:15-36 | the exact command of a config-less TensorFlow run |
| DockerBootstrap.Bootstrap.RunLocalCommand | oss_bench/bootstrap/docker_bootstrap.py:54-72 | the command is appended to those issued |
| DockerBootstrap.Bootstrap.GitClone | oss_bench/bootstrap/docker_bootstrap.py:110-134 | a pull if the folder exists, otherwise a clone, then the checkout and reset when asked |
| DockerBootstrap.Bootstrap.RunTests | oss_bench/bootstrap/docker_bootstrap.py:174-206 | nothing runs when the check is on and the GPUs are busy; otherwise setup, then the docker command unless building it fails |
| Gce.ParseInstanceType | oss_bench/clusters/gce_instance.py:394-419 | three parts give all three, one part gives no accelerator, and any other count is a ValueError |
| Gce.ParseJoined | oss_bench/clusters/gce_instance.py:410-411 | three `\|`-free parts joined by `\|` parse back to themselves |
| Gce.ParseBare | oss_bench/clusters/gce_instance.py:412-413 | a `\|`-free type parses to itself with no accelerator |
| Gce.ParseMissingCount | oss_bench/clusters/gce_instance.py:414-417 | two parts are a ValueError |
| Gce.ParseThenJoin | oss_bench/clusters/gce_instance.py:394-419 | whatever parses joins back to the original string |
| Gce.Region | oss_bench/clusters/gce_instance.py:454 | a zone without `-` has the empty region; otherwise the zone is the region, a `-` and the last part |
| Gce.RegionOfZone | oss_bench/clusters/gce_instance.py:454 | the region of `{region}-{letter}` is `{region}` |
| Gce.CreateConfigFields | oss_bench/clusters/gce_instance.py:439-498 | `CreateInstanceConfig`: name, tags, machine type, subnetwork region, image, and disk size 100 (25 in cluster_gce) |
| Gce.CreateConfigOptional | oss_bench/clusters/gce_instance.py:500-520 | `CreateInstanceConfig`: service accounts iff given (always in cluster_gce, with its default), and accelerators iff given, with the count as passed |
| Gce.CollectSources | oss_bench/clusters/gce_instance.py:258-262 | the disk loop yields each disk's `source` in order, or a KeyError |
| Gce.SourcesInOrder | oss_bench/clusters/gce_instance.py:260-261 | source k is the source of disk k |
| Gce.SourcesFailurePersists | oss_bench/clusters/gce_instance.py:260-261 | a disk with no source stays the error |
| Gce.DecodeInstanceData | oss_bench/clusters/gce_instance.py:244-270 | the method's result is the decoded summary, or the lookup error |
| Gce.DecodedFields | oss_bench/clusters/gce_instance.py:250-267 | name, status, tag items (none when absent), disk sources, the first access config's `natIP` (None when absent), and the internal IP |
| Gce.FilterChoice | oss_bench/test_runners/tf_cnn_bench/cluster_gce.py:222-227 | the tag wins over the name; the filter is a name prefix or an exact name, and absent iff neither is given |
| Gce.QueryFilterUnbound | oss_bench/clusters/gce_instance.py:228-235 | agrees with cluster_gce whenever it succeeds; fails (UnboundLocalError) exactly when neither is given |
| Nvidia.GetGpuInfo | oss_bench/tools/nvidia.py:7-29 | a failed command, or output without a line break and so without a data line, gives ('', '') |
| Nvidia.DriverAndName | oss_bench/tools/nvidia.py:21-26 | the stripped first two comma fields, or an IndexError when there is no comma |
| Nvidia.GpuInfoOfLines | oss_bench/tools/nvidia.py:19-29 | the second line, or the third when the second names a Quadro and a third exists; ('','') on failure or when there is no data line |
| Nvidia.CsvOutputLines | oss_bench/tools/nvidia.py:17-19 | csv output splits into its header and rows, and each row into driver and name |
| Nvidia.FirstGpuRead | oss_bench/tools/nvidia_test.py:11-16 | a non-Quadro first GPU gives its stripped driver and name |
| Nvidia.QuadroPassedOver | oss_bench/tools/nvidia_test.py:18-26 | a first Quadro is passed over when a second GPU exists; a lone Quadro is reported |
| Nvidia.SearchBinaryDigit | oss_bench/tools/nvidia.py:47-49 | the first `0` or `1`, or -1 |
| Nvidia.Row | oss_bench/tools/nvidia.py:50 | the stripped line without `\|`, split on whitespace; no token contains `\|` |
| Nvidia.WatchedFromFirstHeader | oss_bench/tools/nvidia.py:43-46 | watched lines start at the first "Processes" header; with no header there are none |
| Nvidia.CollectedFromHeader | oss_bench/tools/nvidia.py:41-51 | the loop collects exactly the process rows from the first header on |
| Nvidia.GetRunningProcesses | oss_bench/tools/nvidia.py:32-57 | the rows of the watched lines, or the ('','') tuple on failure |
| Nvidia.OkUnlessPython | oss_bench/tools/nvidia.py:71-76 | when every row has a fourth token, the answer is true iff no row names python |
| Nvidia.IsOkToRun | oss_bench/tools/nvidia.py:60-76 | the loop's answer is the specification's, including the IndexError from the ('','') tuple or a short row |
| NvidiaTools.GetGpuInfo | oss_bench/upload/nvidia_tools.py:6-23 | ('','') on failure or when there is no data line; otherwise the first two fields of the second line |
| NvidiaTools.FirstGpuAlways | oss_bench/upload/nvidia_tools.py:18-20 | the first GPU is reported even when it is a Quadro, and later fields are ignored |
| Cpu.ValueField | oss_bench/tools/cpu.py:29-30 | the text after the first `:` of the first line, or an IndexError |
| Cpu.ModelName | oss_bench/tools/cpu.py:24-33 | the stripped value, or '' when the command failed or printed nothing |
| Cpu.SocketCount | oss_bench/tools/cpu.py:51-59 | int() of the first line, -1 on failure, or a ValueError |
| Cpu.CoreCount | oss_bench/tools/cpu.py:36-48 | cores per socket times sockets, -1 on failure, with errors in source order |
| Cpu.CpuInfo | oss_bench/tools/cpu.py:62-69 | the output when retcode is 0, otherwise '' |
| Cpu.GetCpuInfo | oss_bench/tools/cpu.py:6-21 | (model, sockets, cores, info), with the first failure in call order |
| Cpu.ModelNameRead | oss_bench/tools/cpu_test.py:10-17 | `key:name` reads back the stripped name |
| Cpu.SocketCountRead | oss_bench/tools/cpu_test.py:19-24 | a count printed on its own line reads back as that count |
| Cpu.CoreCountProduct | oss_bench/tools/cpu_test.py:26-33 | `key:n` with s sockets gives n * s, e.g. 6 and 2 give 12 |
| Cpu.FailedSocketsNegateCores | oss_bench/tools/cpu.py:44 | a failing socket command gives the negated cores per socket |

## Left out

- The shell and subprocesses: each command becomes its return code and
  output. The streaming loop of nvidia_tools' `_run_local_command` is not
  part of this model.
- Sleeping, clocks and threads: the GPU watch takes the answer of the k-th
  check as a parameter.
- Logging and printing.
- File I/O: files are line lists, and YAML, `float()` and `literal_eval` are
  parameters. `splitlines` is modelled on `\n` only.
- Python's `str()` of dicts is opaque, and float formatting is not modelled.
- GCE API calls and instance lifecycle: only the request and the decoding are
  modelled.
- The `_hash_key` SHA-1 digest is modelled as plain concatenation. This
  preserves the collision of fields run together, but not the digest.
- The load and save of the tracker's file are left out.
- `numpy.std` is not modelled.
- Cpu.CoreCount: `_socket_count` runs its command again. The model passes the
  same command output to both calls.
- RunBenchmark.OomSearch: rejects negative or inverted bounds. With a
  negative size the -1 that ends the source's loop can also be a real size.
  With inverted bounds the source cycles when size h runs out of memory and
  h + 1 does not (see Findings); with other outcomes it may stop.
- RunBenchmark.RunTestConfig: a float or bool bound is treated like any
  non-int bound, a TypeError after the first run, whereas Python goes on
  bisecting with it. Bounds OomSearch rejects give no runs, whereas the
  source runs them as far as its loop goes.
- KerasReporting.NumSamples: only int factors are multiplied. A float or
  string factor is a TypeError here, whereas Python multiplies it (or
  repeats the string).
- KerasReporting.SpeedOf: divides as reals. Python 2 floors
  `num_samples / time_taken` when `time_taken` is an int.
- KerasReporting.ParseResultFile: the mean divides as reals. Python 2 floors
  `sum_speed / samples` when every sampled speed was an int.
- KerasReporting.Read: a non-int `num_batches` is a TypeError. Python 2
  compares any value with 100 without raising.
- Values.FormatOne: only `{}` holes are modelled. A template with `{0}` or a
  named field fails, whereas Python fills it.
- CommandBuilder.RunEntries: a `run_configs` that is not a list fails. For an
  empty string or dict Python iterates nothing and returns an empty suite; a
  non-empty one fails in Python too, on its first character or key. Any
  entry that is not a dict fails here. From the second entry on, Python
  merges the entry with `dict.update`, which also accepts `[]`, `""` and a
  list of key/value pairs. Pairs are not modelled because a value can hold
  keys that are not text. A first entry that is not a dict fails in Python
  too.
- CommandBuilder.LoadYamlRunConfig: inherits the RunEntries gap. A later
  entry that `dict.update` accepts without being a dict (`[]`, `""`, a list
  of key/value pairs) gives a failure here, whereas Python merges it into
  its group.
- Floats are exact reals throughout: the means, the throughputs and the
  bounds on them (BatchSampling.Mean and MeanWithin, PytorchReporting.Finish
  and Throughput, Util.MeanBetween) hold over reals. Python's rounding is not
  modelled.
- Gce.EmailOf: `None` stands both for an omitted service account and for an
  explicit `service_account=None`. When cluster_gce is passed None
  explicitly, Python stores `'email': None`, while the model stores the
  default account. Its only caller omits the argument, so no modelled path
  differs.
- ResultInfo.BuildResultInfo: returns a new list, whereas Python appends to
  the caller's list in place and returns it. The reporting callers use the
  list they passed in, which now holds the same entries, so the result is
  the same.
- Gce.DecodeHead: `disks` that are not a list fail. For an empty string or
  dict Python iterates nothing and records no disks.
- PytorchReporting.TotalBatchSize: only integer batch sizes and GPU counts
  are modelled.

## Findings

| source | as written | input that shows it | evidently intended | confidence | as-written member | corrected member |
|---|---|---|---|---|---|---|
| oss_bench/test_runners/tf_cnn_bench/reporting.py:151-163 | the OOM search loops forever on inverted bounds | `oom_low = h + 1`, `oom_high = h`, size h runs out of memory and size h + 1 does not | reject bounds with low > high | not executed | TfCnnReporting.OomInvertedBoundsCycle | RunBenchmark.OomSearch |
| oss_bench/test_runners/pytorch/runner.py:180-181 | `'nccl'--multiprocessing-distributed` forms one word | any run with gpus > 1 | a space between the two flags | not executed | PytorchRunner.AsWrittenMultiGpuCommand | PytorchRunner.CorrectedMultiGpuCommand |
| oss_bench/clusters/gce_instance.py:228-235 | `query_filter` is unbound when neither tag nor name is given | tag=None, name=None | an unfiltered list, as in cluster_gce | not executed | Gce.QueryFilterUnbound | Gce.FilterChoice |
