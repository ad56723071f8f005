/**
  tf_cnn_benchmarks command line and suite expansion
  (test_runners/tf_cnn_bench/command_builder.py).
 */
module CommandBuilder {
  import opened Wrappers
  import opened Strs
  import opened Values

  // ------------------------------------------------------------ worker command

  const RUN_SCRIPT: string := "python tf_cnn_benchmarks.py"

  /** The config keys passed to tf_cnn_benchmarks under their own name. */
  const PASS_THROUGH: seq<string> := [
    "data_format", "batch_size", "num_batches", "model", "data_dir",
    "optimizer", "learning_rate", "sync_on_finish", "weight_decay",
    "data_name", "variable_update", "num_intra_threads", "num_inter_threads",
    "mkl", "num_warmup_batches", "forward_only", "kmp_blocktime", "device",
    "staged_vars", "staged_grads", "cross_replica_sync", "all_reduce_spec",
    "use_datasets", "batch_group_size", "use_nccl", "use_fp16"
  ]

  /** `--name=value` for a config entry. */
  function Flag(name: string, v: Value): string {
    "--" + name + "=" + Show(v)
  }

  /** The flags for those of `names` the config holds, in the order of `names`. */
  function PassThroughFlags(cfg: Config, names: seq<string>): seq<string> {
    if names == [] then []
    else (if names[0] in cfg then [Flag(names[0], cfg[names[0]])] else []) + PassThroughFlags(cfg, names[1..])
  }

  /** The script with the environment prefix when `env_vars` is set. */
  function WorkerScript(cfg: Config): string {
    if "env_vars" in cfg then Show(cfg["env_vars"]) + " " + RUN_SCRIPT else RUN_SCRIPT
  }

  /** The trace file name, `{trace_file}_{model}[_{gpus}].txt`. */
  function TraceName(cfg: Config): string
    requires "trace_file" in cfg && "model" in cfg
  {
    var stem := Show(cfg["trace_file"]) + "_" + Show(cfg["model"]);
    if "gpus" in cfg then stem + "_" + Show(cfg["gpus"]) + ".txt" else stem + ".txt"
  }

  /** The flags after the pass-through ones, in order. */
  function FixedFlags(cfg: Config): seq<string>
    requires "trace_file" in cfg ==> "model" in cfg
  {
    (if "ps_server" in cfg then ["--local_parameter_device=" + Show(cfg["ps_server"])] else [])
    + (if "gpus" in cfg then ["--num_gpus=" + Show(cfg["gpus"])] else [])
    + ["--nodistortions"]
    + [if "display_every" in cfg then "--display_every=" + Show(cfg["display_every"]) else "--display_every=10"]
    + (if "trace_file" in cfg then ["--trace_file=" + TraceName(cfg)] else [])
  }

  /** Every flag of the worker command, in order: the pass-through flags,
      then one flag for each of `ps_server`, `gpus` and `trace_file` that is
      set, and always `--nodistortions` and `--display_every`. */
  function WorkerFlags(cfg: Config): (flags: seq<string>)
    requires "trace_file" in cfg ==> "model" in cfg
    ensures |flags| == |PassThroughFlags(cfg, PASS_THROUGH)| + 2 + (if "ps_server" in cfg then 1 else 0)
                       + (if "gpus" in cfg then 1 else 0) + (if "trace_file" in cfg then 1 else 0)
  {
    PassThroughFlags(cfg, PASS_THROUGH) + FixedFlags(cfg)
  }

  /** The loop over the pass-through names: `--name=value` for each name
      the config holds, in the order of the names. */
  method CollectPassThrough(cfg: Config, names: seq<string>) returns (flags: seq<string>)
    ensures flags == PassThroughFlags(cfg, names)
  {
    flags := [];
    for n := 0 to |names|
      invariant flags == PassThroughFlags(cfg, names[..n])
    {
      PassThroughSnoc(cfg, names[..n], names[n]);
      assert names[..n + 1] == names[..n] + [names[n]];
      var arg := names[n];
      if arg in cfg {
        flags := flags + [Flag(arg, cfg[arg])];
      }
    }
    assert names[..|names|] == names;
  }

  /** BuildDistributedCommandWorker: the script, a space, and the flags
      joined by spaces. A `trace_file` without a `model` raises KeyError. */
  method BuildDistributedCommandWorker(cfg: Config) returns (r: Result<string>)
    ensures r.Failure? <==> "trace_file" in cfg && "model" !in cfg
    ensures r.Success? ==> r.value == WorkerScript(cfg) + " " + Join(WorkerFlags(cfg), " ")
  {
    var runScript := RUN_SCRIPT;
    if "env_vars" in cfg {
      runScript := Show(cfg["env_vars"]) + " " + runScript;
    }
    var cmdList := CollectPassThrough(cfg, PASS_THROUGH);
    ghost var pt := cmdList;
    ghost var ps := if "ps_server" in cfg then ["--local_parameter_device=" + Show(cfg["ps_server"])] else [];
    ghost var gp := if "gpus" in cfg then ["--num_gpus=" + Show(cfg["gpus"])] else [];
    ghost var de := [if "display_every" in cfg then "--display_every=" + Show(cfg["display_every"]) else "--display_every=10"];
    if "ps_server" in cfg {
      cmdList := cmdList + ["--local_parameter_device=" + Show(cfg["ps_server"])];
    }
    assert cmdList == pt + ps;
    if "gpus" in cfg {
      cmdList := cmdList + ["--num_gpus=" + Show(cfg["gpus"])];
    }
    AppendAssoc(pt, ps, gp);
    cmdList := cmdList + ["--nodistortions"];
    AppendAssoc(pt, ps + gp, ["--nodistortions"]);
    if "display_every" in cfg {
      cmdList := cmdList + ["--display_every=" + Show(cfg["display_every"])];
    } else {
      cmdList := cmdList + ["--display_every=10"];
    }
    AppendAssoc(pt, ps + gp + ["--nodistortions"], de);
    if "trace_file" in cfg {
      if "model" !in cfg {
        return Failure("KeyError: model");
      }
      var traceFile := Show(cfg["trace_file"]) + "_" + Show(cfg["model"]);
      if "gpus" in cfg {
        traceFile := traceFile + "_" + Show(cfg["gpus"]) + ".txt";
      } else {
        traceFile := traceFile + ".txt";
      }
      assert traceFile == TraceName(cfg);
      cmdList := cmdList + ["--trace_file=" + traceFile];
    }
    ghost var tr := if "trace_file" in cfg then ["--trace_file=" + TraceName(cfg)] else [];
    AppendAssoc(pt, ps + gp + ["--nodistortions"] + de, tr);
    assert cmdList == pt + (ps + gp + ["--nodistortions"] + de + tr);
    assert FixedFlags(cfg) == ps + gp + ["--nodistortions"] + de + tr;
    r := Success(runScript + " " + Join(cmdList, " "));
  }

  lemma AppendAssoc(a: seq<string>, b: seq<string>, c: seq<string>)
    ensures (a + b) + c == a + (b + c)
  {
  }

  lemma {:induction false} PassThroughSnoc(cfg: Config, names: seq<string>, n: string)
    ensures PassThroughFlags(cfg, names + [n])
         == PassThroughFlags(cfg, names) + (if n in cfg then [Flag(n, cfg[n])] else [])
  {
    if names != [] {
      assert (names + [n])[1..] == names[1..] + [n];
      PassThroughSnoc(cfg, names[1..], n);
    }
  }

  /** A pass-through flag is emitted exactly for the listed names the
      config holds, carrying the config's value. */
  lemma {:induction false} PassThroughFlagsExactly(cfg: Config, names: seq<string>, f: string)
    ensures f in PassThroughFlags(cfg, names)
        <==> exists k :: 0 <= k < |names| && names[k] in cfg && f == Flag(names[k], cfg[names[k]])
  {
    if names != [] {
      PassThroughFlagsExactly(cfg, names[1..], f);
      if f in PassThroughFlags(cfg, names[1..]) {
        var k :| 0 <= k < |names[1..]| && names[1..][k] in cfg && f == Flag(names[1..][k], cfg[names[1..][k]]);
        assert names[k + 1] == names[1..][k];
      }
      if exists k :: 0 <= k < |names| && names[k] in cfg && f == Flag(names[k], cfg[names[k]]) {
        var k :| 0 <= k < |names| && names[k] in cfg && f == Flag(names[k], cfg[names[k]]);
        if k > 0 {
          assert names[1..][k - 1] == names[k];
        }
      }
    }
  }

  /** `env_vars`, when set, comes first, then one space, then the script. */
  lemma CommandStartsWithScript(cfg: Config, cmd: string)
    requires "trace_file" in cfg ==> "model" in cfg
    requires cmd == WorkerScript(cfg) + " " + Join(WorkerFlags(cfg), " ")
    ensures "env_vars" in cfg ==> cmd[..|Show(cfg["env_vars"])| + 1 + |RUN_SCRIPT|] == Show(cfg["env_vars"]) + " " + RUN_SCRIPT
    ensures "env_vars" !in cfg ==> cmd[..|RUN_SCRIPT|] == RUN_SCRIPT
  {
  }

  /** A flag `--name=value` starts with the two characters of `name` after
      its dashes. */
  lemma FlagHead(name: string, v: Value)
    requires |name| >= 2
    ensures Flag(name, v)[2..4] == name[..2]
  {
  }

  /** A string that starts with `p` shares its third and fourth characters. */
  lemma PrefixHead(s: string, p: string)
    requires |p| >= 4
    ensures StartsWith(s, p) ==> s[2..4] == p[2..4] && s[2] == p[2]
  {
    if StartsWith(s, p) {
      assert s[2..4] == s[..|p|][2..4];
    }
  }

  /** Every pass-through name has at least two characters, and none begins
      with "di" or "tr". */
  lemma PassThroughHeads()
    ensures forall k :: 0 <= k < |PASS_THROUGH| ==>
      |PASS_THROUGH[k]| >= 2 && PASS_THROUGH[k][..2] != "di" && PASS_THROUGH[k][..2] != "tr"
  {
    forall k | 0 <= k < |PASS_THROUGH|
      ensures |PASS_THROUGH[k]| >= 2 && PASS_THROUGH[k][..2] != "di" && PASS_THROUGH[k][..2] != "tr"
    {
      var n := PASS_THROUGH[k];
      assert n[0] != 'd' || n[1] != 'i';
    }
  }

  /** No pass-through flag starts with `p` when no listed name starts with
      the two characters that follow the dashes of `p`. */
  lemma {:induction false} PassThroughNotStarting(cfg: Config, names: seq<string>, p: string)
    requires |p| >= 4
    requires forall k :: 0 <= k < |names| ==> |names[k]| >= 2 && names[k][..2] != p[2..4]
    ensures forall j :: 0 <= j < |PassThroughFlags(cfg, names)| ==> !StartsWith(PassThroughFlags(cfg, names)[j], p)
  {
    if names != [] {
      var n := names[0];
      var head := if n in cfg then [Flag(n, cfg[n])] else [];
      PassThroughNotStarting(cfg, names[1..], p);
      if n in cfg {
        FlagHead(n, cfg[n]);
        PrefixHead(Flag(n, cfg[n]), p);
      }
      var fs := PassThroughFlags(cfg, names);
      assert fs == head + PassThroughFlags(cfg, names[1..]);
      forall j | 0 <= j < |fs|
        ensures !StartsWith(fs[j], p)
      {
        if j >= |head| {
          assert fs[j] == PassThroughFlags(cfg, names[1..])[j - |head|];
        }
      }
    }
  }

  /** Appending keeps the third and fourth characters. */
  lemma ConcatHead(a: string, b: string)
    requires |a| >= 4
    ensures (a + b)[2..4] == a[2..4] && (a + b)[2] == a[2]
  {
  }

  /** One flag after the pass-through ones: only the display flag has 'd'
      after its dashes, and only the trace flag has 't'. */
  lemma FixedFlagAt(cfg: Config, j: int)
    requires "trace_file" in cfg ==> "model" in cfg
    requires 0 <= j < |FixedFlags(cfg)|
    ensures var fs := FixedFlags(cfg);
      && |fs| >= 2
      && |fs[j]| >= 4
      && (fs[j][2] == 'd' ==> j == (if "trace_file" in cfg then |fs| - 2 else |fs| - 1))
      && (fs[j][2] == 't' ==> "trace_file" in cfg)
  {
    var ps := if "ps_server" in cfg then ["--local_parameter_device=" + Show(cfg["ps_server"])] else [];
    var gp := if "gpus" in cfg then ["--num_gpus=" + Show(cfg["gpus"])] else [];
    var de := if "display_every" in cfg then "--display_every=" + Show(cfg["display_every"]) else "--display_every=10";
    var tr := if "trace_file" in cfg then ["--trace_file=" + TraceName(cfg)] else [];
    var fs := FixedFlags(cfg);
    assert fs == ps + gp + ["--nodistortions"] + [de] + tr;
    if j < |ps| {
      ConcatHead("--local_parameter_device=", Show(cfg["ps_server"]));
      assert fs[j] == ps[0];
    } else if j < |ps| + |gp| {
      ConcatHead("--num_gpus=", Show(cfg["gpus"]));
      assert fs[j] == gp[0];
    } else if j == |ps| + |gp| {
      assert fs[j] == "--nodistortions";
    } else if j == |ps| + |gp| + 1 {
      if "display_every" in cfg {
        ConcatHead("--display_every=", Show(cfg["display_every"]));
      }
      assert fs[j] == de;
    } else {
      ConcatHead("--trace_file=", TraceName(cfg));
      assert fs[j] == tr[0];
    }
  }

  /** `--nodistortions` is always passed, and exactly one flag starts with
      `--display_every=`: the configured value, or 10. It is the last flag,
      or the one before the trace file. */
  lemma WorkerFlagsFixed(cfg: Config)
    requires "trace_file" in cfg ==> "model" in cfg
    ensures "--nodistortions" in WorkerFlags(cfg)
    ensures var fs := WorkerFlags(cfg);
      var i := if "trace_file" in cfg then |fs| - 2 else |fs| - 1;
      && 0 <= i < |fs|
      && fs[i] == (if "display_every" in cfg then "--display_every=" + Show(cfg["display_every"]) else "--display_every=10")
      && forall j :: 0 <= j < |fs| && j != i ==> !StartsWith(fs[j], "--display_every=")
  {
    var p := "--display_every=";
    PassThroughHeads();
    PassThroughNotStarting(cfg, PASS_THROUGH, p);
    var pt := PassThroughFlags(cfg, PASS_THROUGH);
    var ff := FixedFlags(cfg);
    var fs := WorkerFlags(cfg);
    FixedFlagAt(cfg, |ff| - 1);
    var i := if "trace_file" in cfg then |fs| - 2 else |fs| - 1;
    forall j | 0 <= j < |fs| && j != i
      ensures !StartsWith(fs[j], p)
    {
      if j < |pt| {
        assert fs[j] == pt[j];
      } else {
        FixedFlagAt(cfg, j - |pt|);
        assert fs[j] == ff[j - |pt|];
        PrefixHead(fs[j], p);
      }
    }
  }

  /** The trace file flag is present exactly when `trace_file` is set: it is
      then the last flag, and its name ends in `_{gpus}.txt` or `.txt`;
      without it no flag starts with `--trace_file=`. */
  lemma TraceFlag(cfg: Config)
    requires "trace_file" in cfg ==> "model" in cfg
    ensures "trace_file" in cfg ==> WorkerFlags(cfg)[|WorkerFlags(cfg)| - 1] == "--trace_file=" + TraceName(cfg)
    ensures "trace_file" in cfg && "gpus" in cfg ==>
      TraceName(cfg) == Show(cfg["trace_file"]) + "_" + Show(cfg["model"]) + "_" + Show(cfg["gpus"]) + ".txt"
    ensures "trace_file" in cfg && "gpus" !in cfg ==>
      TraceName(cfg) == Show(cfg["trace_file"]) + "_" + Show(cfg["model"]) + ".txt"
    ensures "trace_file" !in cfg ==>
      forall j :: 0 <= j < |WorkerFlags(cfg)| ==> !StartsWith(WorkerFlags(cfg)[j], "--trace_file=")
  {
    var p := "--trace_file=";
    PassThroughHeads();
    PassThroughNotStarting(cfg, PASS_THROUGH, p);
    var pt := PassThroughFlags(cfg, PASS_THROUGH);
    var ff := FixedFlags(cfg);
    var fs := WorkerFlags(cfg);
    if "trace_file" !in cfg {
      forall j | 0 <= j < |fs|
        ensures !StartsWith(fs[j], p)
      {
        if j < |pt| {
          assert fs[j] == pt[j];
        } else {
          FixedFlagAt(cfg, j - |pt|);
          assert fs[j] == ff[j - |pt|];
          PrefixHead(fs[j], p);
        }
      }
    }
  }

  // ------------------------------------------------------------ GPU lists

  /** GpuDecode: an int becomes its decimal text; a string is split on
      commas. Anything else has no split() and raises AttributeError. */
  function GpuDecode(raw: Value): (r: Result<Value>)
    ensures raw.Int? ==> r == Success(Str(IntToString(raw.i)))
    ensures raw.Str? ==> r.Success? && r.value.List?
    ensures !raw.Int? && !raw.Str? ==> r.Failure?
  {
    match raw
    case Int(i) => Success(Str(IntToString(i)))
    case Str(s) =>
      var parts := Split(s, ',');
      Success(List(seq(|parts|, k requires 0 <= k < |parts| => Str(parts[k]))))
    case _ => Failure("AttributeError: object has no attribute 'split'")
  }

  /** The decoded parts are the comma-free pieces that join back to the
      original string; an int decodes to text that int() reads back. */
  lemma GpuDecodeInverse(raw: Value)
    ensures raw.Str? ==> var items := GpuDecode(raw).value.items;
      |items| >= 1
      && (forall k :: 0 <= k < |items| ==> items[k].Str? && ',' !in items[k].s)
      && Join(seq(|items|, k requires 0 <= k < |items| => items[k].s), ",") == raw.s
    ensures raw.Int? ==> ParseInt(GpuDecode(raw).value.s) == Some(raw.i)
  {
    if raw.Str? {
      var parts := Split(raw.s, ',');
      var items := GpuDecode(raw).value.items;
      assert seq(|items|, k requires 0 <= k < |items| => items[k].s) == parts;
    }
    if raw.Int? {
      IntToStringRoundTrip(raw.i);
    }
  }

  // ------------------------------------------------------------ suite loading

  /** The run_configs entries as dictionaries; a missing list raises
      KeyError, anything that is not a list of dicts fails when it is used. */
  function RunEntries(full: Config): (r: Result<seq<Config>>)
    ensures r.Success? <==> "run_configs" in full && full["run_configs"].List?
                            && forall k :: 0 <= k < |full["run_configs"].items| ==> full["run_configs"].items[k].Dict?
    ensures r.Success? ==> |r.value| == |full["run_configs"].items|
  {
    if "run_configs" !in full then Failure("KeyError: run_configs")
    else match full["run_configs"]
      case List(items) =>
        if forall k :: 0 <= k < |items| ==> items[k].Dict? then
          Success(seq(|items|, k requires 0 <= k < |items| => items[k].entries))
        else Failure("AttributeError: run_configs entry is not a dict")
      case _ => Failure("TypeError: run_configs is not a list")
  }

  /** The test config entry `i` becomes: the first entry with the shared
      settings written into it, and every later entry laid over that. */
  function MergedEntry(entries: seq<Config>, settings: Config, i: nat): (merged: Config)
    requires i < |entries|
    ensures merged.Keys == entries[0].Keys + settings.Keys + (if i == 0 then {} else entries[i].Keys)
  {
    if i == 0 then Update(entries[0], settings)
    else Update(Update(entries[0], settings), entries[i])
  }

  /** `repeat` is set and not None. */
  predicate HasRepeat(cfg: Config) {
    "repeat" in cfg && !cfg["repeat"].Null?
  }

  /** The group a config expands to: `repeat` copies numbered by `copy`, or
      the config itself. */
  function Group(cfg: Config): (r: Result<seq<Config>>)
    ensures !HasRepeat(cfg) ==> r == Success([cfg])
    ensures HasRepeat(cfg) ==> (r.Success? <==> ToInt(cfg["repeat"]).Success?)
  {
    if HasRepeat(cfg) then
      match ToInt(cfg["repeat"])
      case Success(n) => Success(Copies(cfg, n))
      case Failure(e) => Failure(e)
    else Success([cfg])
  }

  function Copies(cfg: Config, n: int): (r: seq<Config>)
    ensures |r| == if n < 0 then 0 else n
  {
    seq(if n < 0 then 0 else n, j => cfg["copy" := Int(j)])
  }

  /** The expansion of one merged config: `repeat` numbered copies when
      `repeat` is set, else the config alone; int() of a bad `repeat`
      fails. */
  method ExpandGroup(config: Config) returns (r: Result<seq<Config>>)
    ensures r == Group(config)
  {
    if "repeat" in config && !config["repeat"].Null? {
      var repeat := ToInt(config["repeat"]);
      if repeat.Failure? {
        return Failure(repeat.error);
      }
      var testConfigs: seq<Config> := [];
      for c := 0 to if repeat.value < 0 then 0 else repeat.value
        invariant testConfigs == Copies(config, c)
      {
        testConfigs := testConfigs + [config["copy" := Int(c)]];
      }
      r := Success(testConfigs);
    } else {
      r := Success([config]);
    }
  }

  /** LoadYamlRunConfig: one group per run_configs entry. With a positive
      debug level a config without `test_id` raises KeyError. */
  method LoadYamlRunConfig(full: Config, debugLevel: int) returns (r: Result<seq<seq<Config>>>)
    ensures RunEntries(full).Failure? ==> r.Failure?
    ensures RunEntries(full).Success? ==>
      var entries := RunEntries(full).value;
      (r.Success? <==> forall i :: 0 <= i < |entries| ==>
          Group(MergedEntry(entries, Settings(full), i)).Success?
          && (debugLevel > 0 ==> "test_id" in MergedEntry(entries, Settings(full), i)))
      && (r.Success? ==>
            |r.value| == |entries|
            && forall i :: 0 <= i < |entries| ==> r.value[i] == Group(MergedEntry(entries, Settings(full), i)).value)
  {
    var entriesR := RunEntries(full);
    if entriesR.Failure? {
      return Failure(entriesR.error);
    }
    var entries := entriesR.value;
    ghost var settings := Settings(full);
    var baseConfig: Option<Config> := None;
    var suite: seq<seq<Config>> := [];
    for i := 0 to |entries|
      invariant |suite| == i
      invariant i == 0 <==> baseConfig.None?
      invariant i > 0 ==> baseConfig == Some(Update(entries[0], settings))
      invariant forall j :: 0 <= j < i ==> Group(MergedEntry(entries, settings, j)) == Success(suite[j])
      invariant forall j :: 0 <= j < i ==> debugLevel > 0 ==> "test_id" in MergedEntry(entries, settings, j)
    {
      var config := entries[i];
      if baseConfig.None? {
        baseConfig := Some(config);
      } else {
        config := Update(baseConfig.value, config);
      }
      var merged := OverlaySettings(baseConfig.value, full);
      UpdateIdempotent(entries[0], settings);
      baseConfig := Some(merged);
      if i == 0 {
        // the first entry is the base object itself, so it sees the settings
        config := merged;
      }
      assert config == MergedEntry(entries, settings, i);
      var group := ExpandGroup(config);
      if group.Failure? {
        return Failure(group.error);
      }
      var testConfigs := group.value;
      if debugLevel > 0 && "test_id" !in config {
        return Failure("KeyError: test_id");
      }
      suite := suite + [testConfigs];
    }
    r := Success(suite);
  }

  /** A later entry's own keys win over both the first entry and the
      shared settings; its other keys come from the first entry with the
      settings written in. */
  lemma LaterEntryWins(entries: seq<Config>, settings: Config, i: nat, k: string)
    requires 0 < i < |entries|
    ensures k in entries[i] ==> MergedEntry(entries, settings, i)[k] == entries[i][k]
    ensures k !in entries[i] && k in settings ==> MergedEntry(entries, settings, i)[k] == settings[k]
    ensures k !in entries[i] && k !in settings && k in entries[0] ==> MergedEntry(entries, settings, i)[k] == entries[0][k]
    ensures MergedEntry(entries, settings, i).Keys == entries[0].Keys + settings.Keys + entries[i].Keys
  {
  }

  /** The first entry receives every shared setting, over its own value. */
  lemma FirstEntryTakesSettings(entries: seq<Config>, settings: Config, k: string)
    requires 0 < |entries|
    ensures k in settings ==> MergedEntry(entries, settings, 0)[k] == settings[k]
    ensures k !in settings && k in entries[0] ==> MergedEntry(entries, settings, 0)[k] == entries[0][k]
  {
  }

  /** With `repeat = n` the group holds n copies, copy j carrying `copy = j`
      and otherwise equal to the config; without it the config itself. */
  lemma GroupCopies(cfg: Config, n: int)
    requires HasRepeat(cfg) && ToInt(cfg["repeat"]) == Success(n)
    ensures |Group(cfg).value| == if n < 0 then 0 else n
    ensures forall j :: 0 <= j < |Group(cfg).value| ==>
      Group(cfg).value[j]["copy"] == Int(j)
      && Group(cfg).value[j].Keys == cfg.Keys + {"copy"}
      && forall k :: k in cfg && k != "copy" ==> Group(cfg).value[j][k] == cfg[k]
  {
  }
}
