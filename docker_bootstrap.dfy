/**
  The bootstrap that builds the benchmark docker image and starts the
  harness inside it (bootstrap/docker_bootstrap.py). The shell is left out:
  a `Bootstrap` records the commands it hands to the shell, in order, and
  the answers the GPU check and the file system would give are parameters.
 */
module DockerBootstrap {
  import opened Wrappers
  import opened Values

  /** How long the GPU check watches, and how often it looks, in seconds. */
  const MAX_TIME: int := 300
  const POLL_INTERVAL: int := 20

  const HARNESS_REPO: string := "https://github.com/tfboyd/benchmark_harness.git"
  const CONTROLLER: string := "/workspace/git/benchmark_harness/oss_bench/harness/controller.py"

  /** The constructor's arguments; none of them changes afterwards. */
  datatype Options = Options(
    dockerFolder: string,
    workspace: string,
    testConfig: string,
    bootstrapConfig: Option<string>,
    dockerTag: string,
    authTokenDir: string,
    harnessBranch: Option<string>,
    framework: string,
    gpuProcessCheck: bool,
    pureDocker: bool)

  /** os.path.join(a, b) for a relative `b`. */
  function PathJoin(a: string, b: string): string {
    if a == "" || a[|a| - 1] == '/' then a + b else a + "/" + b
  }

  // ------------------------------------------------------------ mounts

  /** load_config: the parsed file when a path is given, otherwise a config
      with an empty list of mount points. */
  function LoadConfig(path: Option<string>, parsed: Config): Config {
    if path.Some? && path.value != "" then parsed else map["mount_point" := List([])]
  }

  /** The docker flag of one mount point, a dict with `folder_path` and
      `docker_path`. */
  function MountText(m: Value): (r: Result<string>)
    ensures r.Success? <==> m.Dict? && "folder_path" in m.entries && "docker_path" in m.entries
    ensures r.Success? ==> r.value == " -v " + Show(m.entries["folder_path"]) + ":" + Show(m.entries["docker_path"])
  {
    if !m.Dict? then Failure("TypeError: string indices must be integers")
    else
      match Lookup(m.entries, "folder_path")
      case Failure(e) => Failure(e)
      case Success(folder) =>
        match Lookup(m.entries, "docker_path")
        case Failure(e) => Failure(e)
        case Success(docker) => Success(" -v " + Show(folder) + ":" + Show(docker))
  }

  /** The flags of a list of mount points, in order; the first bad mount
      point is the error. */
  function Mounts(items: seq<Value>): Result<string> {
    if |items| == 0 then Success("")
    else
      match Mounts(items[..|items| - 1])
      case Failure(e) => Failure(e)
      case Success(prefix) =>
        match MountText(items[|items| - 1])
        case Failure(e) => Failure(e)
        case Success(text) => Success(prefix + text)
  }

  /** What build_docker_mounts returns for a config: a KeyError without
      `mount_point`; iterating an empty string or dict gives nothing, and
      anything else that is not a list fails on its first item. */
  function DockerMounts(config: Config): Result<string> {
    match Lookup(config, "mount_point")
    case Failure(e) => Failure(e)
    case Success(v) =>
      match v
      case List(items) => Mounts(items)
      case Str(s) => if s == "" then Success("") else Failure("TypeError: string indices must be integers")
      case Dict(d) => if d == map[] then Success("") else Failure("TypeError: string indices must be integers")
      case _ => Failure("TypeError: object is not iterable")
  }

  /** build_docker_mounts: the loop that adds one ` -v folder:docker` per
      mount point. */
  method BuildDockerMounts(config: Config) returns (r: Result<string>)
    ensures r == DockerMounts(config)
  {
    if "mount_point" !in config || !config["mount_point"].List? {
      return DockerMounts(config);
    }
    var items := config["mount_point"].items;
    var mountStr := "";
    for i := 0 to |items|
      invariant Mounts(items[..i]) == Success(mountStr)
    {
      var text := MountText(items[i]);
      assert items[..i + 1][..i] == items[..i];
      if text.Failure? {
        MountsFailurePersists(items[..i + 1], items[i + 1..]);
        assert items[..i + 1] + items[i + 1..] == items;
        return Failure(text.error);
      }
      mountStr := mountStr + text.value;
    }
    assert items[..|items|] == items;
    r := Success(mountStr);
  }

  /** The flags of two lists of mount points, one after the other, are
      the flags of the joined list. */
  lemma {:induction false} MountsConcat(a: seq<Value>, b: seq<Value>)
    requires Mounts(a).Success? && Mounts(b).Success?
    ensures Mounts(a + b) == Success(Mounts(a).value + Mounts(b).value)
  {
    if |b| == 0 {
      assert a + b == a;
      assert Mounts(a).value + Mounts(b).value == Mounts(a).value;
    } else {
      var b', m := b[..|b| - 1], b[|b| - 1];
      assert b == b' + [m];
      assert Mounts(b').Success? && MountText(m).Success?;
      MountsConcat(a, b');
      MountsSnoc(a + b', m);
      MountsSnoc(b', m);
      assert a + b == (a + b') + [m];
      Assoc(Mounts(a).value, Mounts(b').value, MountText(m).value);
    }
  }

  /** A bad mount point stays the error whatever follows it. */
  lemma {:induction false} MountsFailurePersists(a: seq<Value>, b: seq<Value>)
    requires Mounts(a).Failure?
    ensures Mounts(a + b) == Failure(Mounts(a).error)
  {
    if |b| == 0 {
      assert a + b == a;
    } else {
      var b' := b[..|b| - 1];
      assert (a + b)[..|a + b| - 1] == a + b';
      MountsFailurePersists(a, b');
    }
  }

  /** The docker flag mounting `folder` at `docker`. */
  function MountFlag(folder: string, docker: string): string {
    " -v " + folder + ":" + docker
  }

  /** A mount point made of two folder names. */
  function Mount(folder: string, docker: string): (m: Value)
    ensures MountText(m) == Success(MountFlag(folder, docker))
  {
    Dict(map["folder_path" := Str(folder), "docker_path" := Str(docker)])
  }

  /** The config run_tests hands to build_docker_cmd: the mount points with
      the auth-token folder and then the workspace appended (a KeyError
      without `mount_point`, an AttributeError when it is not a list). */
  function WithHarnessMounts(opts: Options, config: Config): (r: Result<Config>)
    ensures r.Success? <==> "mount_point" in config && config["mount_point"].List?
    ensures r.Success? ==>
      r.value == config["mount_point" := List(config["mount_point"].items
                          + [Mount(opts.authTokenDir, "/auth_tokens"), Mount(opts.workspace, "/workspace")])]
  {
    match Lookup(config, "mount_point")
    case Failure(e) => Failure(e)
    case Success(v) =>
      if !v.List? then Failure("AttributeError: object has no attribute 'append'")
      else
        Success(config["mount_point" := List(v.items
                                               + [Mount(opts.authTokenDir, "/auth_tokens"), Mount(opts.workspace, "/workspace")])])
  }

  /** One more mount point adds its flag at the end. */
  lemma MountsSnoc(items: seq<Value>, m: Value)
    requires Mounts(items).Success? && MountText(m).Success?
    ensures Mounts(items + [m]) == Success(Mounts(items).value + MountText(m).value)
  {
    assert (items + [m])[..|items|] == items;
  }

  /** The flags of the two mounts run_tests adds. */
  function HarnessMountFlags(opts: Options): string {
    MountFlag(opts.authTokenDir, "/auth_tokens") + MountFlag(opts.workspace, "/workspace")
  }

  /** The harness mounts come after the configured ones, auth tokens
      first. */
  lemma HarnessMountsLast(opts: Options, config: Config)
    requires "mount_point" in config && config["mount_point"].List?
    requires DockerMounts(config).Success?
    ensures DockerMounts(WithHarnessMounts(opts, config).value) == Success(DockerMounts(config).value + HarnessMountFlags(opts))
  {
    var items := config["mount_point"].items;
    var m1, m2 := Mount(opts.authTokenDir, "/auth_tokens"), Mount(opts.workspace, "/workspace");
    var updated := WithHarnessMounts(opts, config).value;
    assert updated["mount_point"] == List(items + [m1, m2]);
    assert DockerMounts(updated) == Mounts(items + [m1, m2]);
    assert DockerMounts(config) == Mounts(items);
    MountsSnoc(items, m1);
    MountsSnoc(items + [m1], m2);
    assert items + [m1] + [m2] == items + [m1, m2];
    var v := DockerMounts(config).value;
    assert v + MountFlag(opts.authTokenDir, "/auth_tokens") + MountFlag(opts.workspace, "/workspace")
        == v + HarnessMountFlags(opts);
  }

  /** Without a bootstrap config there are no mount points of its own. */
  lemma NoBootstrapConfig(parsed: Config)
    ensures LoadConfig(None, parsed) == map["mount_point" := List([])]
    ensures DockerMounts(LoadConfig(None, parsed)) == Success("")
  {
  }

  // ------------------------------------------------------------ the command

  function DockerBinary(opts: Options): string {
    if opts.pureDocker then "docker" else "nvidia-docker"
  }

  /** PyTorch needs the host's shared memory. */
  function ExtraArgs(opts: Options): string {
    if opts.framework == "pytorch" then "--ipc=host" else ""
  }

  /** What follows the extra argument: the mounts, the image and the
      controller with its flags. */
  function RunTail(opts: Options, mounts: string, image: string): string {
    " --rm " + (mounts + " " + image + " python " + CONTROLLER + " --workspace=/workspace --test-config="
                + opts.testConfig + " --framework=" + opts.framework)
  }

  /** The command build_docker_cmd formats around the mounts. */
  function DockerCommand(opts: Options, mounts: string, image: string): string {
    DockerBinary(opts) + (" run " + (ExtraArgs(opts) + RunTail(opts, mounts, image)))
  }

  lemma Assoc(x: string, y: string, z: string)
    ensures x + y + z == x + (y + z)
  {
  }

  lemma PrefixOfConcat(a: string, b: string)
    ensures |a + b| >= |a| && (a + b)[..|a|] == a && (a + b)[|a|..] == b
  {
  }

  /** build_docker_cmd: the command, or the error building the mounts. */
  method BuildDockerCmd(opts: Options, config: Config, image: string) returns (r: Result<string>)
    ensures DockerMounts(config).Failure? ==> r == Failure(DockerMounts(config).error)
    ensures DockerMounts(config).Success? ==> r == Success(DockerCommand(opts, DockerMounts(config).value, image))
  {
    var mounts := BuildDockerMounts(config);
    if mounts.Failure? {
      return Failure(mounts.error);
    }
    r := Success(DockerCommand(opts, mounts.value, image));
  }

  /** The command starts with `docker` exactly when pure docker is asked
      for, and with `nvidia-docker` otherwise; ` run ` follows. */
  lemma BinaryChoice(opts: Options, mounts: string, image: string)
    ensures var cmd := DockerCommand(opts, mounts, image);
      && (opts.pureDocker <==> cmd[..6] == "docker")
      && (!opts.pureDocker <==> |cmd| >= 13 && cmd[..13] == "nvidia-docker")
      && var n := |DockerBinary(opts)|;
         |cmd| >= n + 5 && cmd[n..n + 5] == " run "
  {
    var bin := DockerBinary(opts);
    var args := " run " + (ExtraArgs(opts) + RunTail(opts, mounts, image));
    var cmd := DockerCommand(opts, mounts, image);
    PrefixOfConcat(bin, args);
    PrefixOfConcat(" run ", ExtraArgs(opts) + RunTail(opts, mounts, image));
    assert cmd[|bin|..|bin| + 5] == args[..5];
    if opts.pureDocker {
      assert cmd[..6] == bin;
      assert cmd[0] == 'd';
    } else {
      assert cmd[..13] == bin;
      assert cmd[..6][0] == 'n';
    }
  }

  /** What follows `run `: the extra argument and the rest. */
  lemma AfterRun(opts: Options, mounts: string, image: string)
    ensures var cmd := DockerCommand(opts, mounts, image);
      var at := |DockerBinary(opts)| + 5;
      |cmd| >= at && cmd[at..] == ExtraArgs(opts) + RunTail(opts, mounts, image)
  {
    var bin := DockerBinary(opts);
    var middle := ExtraArgs(opts) + RunTail(opts, mounts, image);
    var args := " run " + middle;
    var cmd := DockerCommand(opts, mounts, image);
    PrefixOfConcat(bin, args);
    PrefixOfConcat(" run ", middle);
    assert cmd[|bin| + 5..] == cmd[|bin|..][5..];
  }

  lemma RunTailStart(opts: Options, mounts: string, image: string)
    ensures var tail := RunTail(opts, mounts, image);
      |tail| >= 6 && tail[..6] == " --rm "
  {
    var rest := mounts + " " + image + " python " + CONTROLLER + " --workspace=/workspace --test-config="
                + opts.testConfig + " --framework=" + opts.framework;
    PrefixOfConcat(" --rm ", rest);
  }

  lemma PytorchExtra(opts: Options, mounts: string, image: string)
    requires opts.framework == "pytorch"
    ensures var middle := ExtraArgs(opts) + RunTail(opts, mounts, image);
      && |middle| >= 16 && middle[..16] == "--ipc=host --rm "
      && !(middle[..6] == " --rm ")
  {
    var tail := RunTail(opts, mounts, image);
    RunTailStart(opts, mounts, image);
    var middle := "--ipc=host" + tail;
    PrefixOfConcat("--ipc=host", tail);
    assert middle[10..16] == tail[..6];
    assert middle[..16] == middle[..10] + middle[10..16];
    assert middle[0] == '-';
  }

  lemma OtherExtra(opts: Options, mounts: string, image: string)
    requires opts.framework != "pytorch"
    ensures var middle := ExtraArgs(opts) + RunTail(opts, mounts, image);
      && |middle| >= 6 && middle[..6] == " --rm "
      && !(|middle| >= 16 && middle[..16] == "--ipc=host --rm ")
  {
    var tail := RunTail(opts, mounts, image);
    RunTailStart(opts, mounts, image);
    assert ExtraArgs(opts) + tail == tail;
    assert tail[0] == ' ';
  }

  /** Right after `run ` comes `--ipc=host` exactly for PyTorch; every
      other framework gets an empty argument there. */
  lemma IpcHostForPytorch(opts: Options, mounts: string, image: string)
    ensures var cmd := DockerCommand(opts, mounts, image);
      var at := |DockerBinary(opts)| + 5;
      && |cmd| >= at
      && var rest := cmd[at..];
         && (opts.framework == "pytorch" <==> |rest| >= 16 && rest[..16] == "--ipc=host --rm ")
         && (opts.framework != "pytorch" <==> |rest| >= 6 && rest[..6] == " --rm ")
  {
    AfterRun(opts, mounts, image);
    if opts.framework == "pytorch" {
      PytorchExtra(opts, mounts, image);
    } else {
      OtherExtra(opts, mounts, image);
    }
  }

  // ------------------------------------------------------------ run_tests

  /** The answers nvidia.is_ok_to_run gives at the checks made while the
      GPUs are watched: one every 20 seconds up to past 300 seconds. */
  predicate GpusFree(isOk: nat -> bool) {
    forall k: nat :: k <= MAX_TIME / POLL_INTERVAL + 1 ==> isOk(k)
  }

  /** existing_process_check: false as soon as a check finds a python
      process on a GPU, true once the watch has run past 300 seconds. The
      k-th check's answer is `isOk(k)`; the sleeping is left out. */
  method ExistingProcessCheck(isOk: nat -> bool) returns (ok: bool)
    ensures ok <==> GpusFree(isOk)
  {
    var totalTime := 0;
    var k: nat := 0;
    while true
      invariant totalTime == POLL_INTERVAL * k && totalTime <= MAX_TIME + POLL_INTERVAL
      invariant forall j: nat :: j < k ==> isOk(j)
      decreases MAX_TIME + POLL_INTERVAL - totalTime
    {
      if !isOk(k) {
        return false;
      }
      if totalTime > MAX_TIME {
        return true;
      }
      totalTime := totalTime + POLL_INTERVAL;
      k := k + 1;
    }
  }

  /** The commands git_clone runs: a pull when the folder exists, a clone
      otherwise, then the branch checkout and the hard reset when asked. */
  function GitCloneCommands(repo: string, folder: string, branch: Option<string>, shaHash: Option<string>,
                            folderExists: bool): seq<string>
  {
    [if folderExists then "git -C " + folder + " pull" else "git clone " + repo + " " + folder]
    + (if branch.Some? then ["git -C " + folder + " checkout " + branch.value] else [])
    + (if shaHash.Some? then ["git -C " + folder + " reset --hard " + shaHash.value] else [])
  }

  /** The harness checkout inside the workspace. */
  function HarnessFolder(opts: Options): string {
    PathJoin(PathJoin(opts.workspace, "git"), "benchmark_harness")
  }

  /** What run_tests runs before the docker command: the harness checkout
      and the image build. */
  function SetupCommands(opts: Options, folderExists: bool): seq<string> {
    GitCloneCommands(HARNESS_REPO, HarnessFolder(opts), opts.harnessBranch, None, folderExists)
    + ["docker build --no-cache --pull -t " + opts.dockerTag + " " + opts.dockerFolder]
  }

  /** The docker command run_tests ends with, from the bootstrap config
      file's contents `parsed`. */
  function RunCommand(opts: Options, parsed: Config): Result<string> {
    match WithHarnessMounts(opts, LoadConfig(opts.bootstrapConfig, parsed))
    case Failure(e) => Failure(e)
    case Success(config) =>
      match DockerMounts(config)
      case Failure(e) => Failure(e)
      case Success(mounts) => Success(DockerCommand(opts, mounts, opts.dockerTag))
  }

  /** With the harness mounts appended the mount flags fail exactly when
      the configured ones do. */
  lemma HarnessMountsKeepOutcome(opts: Options, config: Config)
    requires WithHarnessMounts(opts, config).Success?
    ensures DockerMounts(WithHarnessMounts(opts, config).value).Success? <==> DockerMounts(config).Success?
  {
    var items := config["mount_point"].items;
    var extra := [Mount(opts.authTokenDir, "/auth_tokens"), Mount(opts.workspace, "/workspace")];
    if DockerMounts(config).Success? {
      HarnessMountsLast(opts, config);
    } else {
      MountsFailurePersists(items, extra);
    }
  }

  /** A run gets its docker command exactly when the loaded config has a
      list of mount points that all format; the command then holds the
      configured mounts, then the auth tokens and the workspace, and runs
      the image named by the docker tag. */
  lemma RunCommandMounts(opts: Options, parsed: Config)
    ensures var config := LoadConfig(opts.bootstrapConfig, parsed);
      && (RunCommand(opts, parsed).Success? <==>
            "mount_point" in config && config["mount_point"].List? && DockerMounts(config).Success?)
      && (RunCommand(opts, parsed).Success? ==>
            RunCommand(opts, parsed).value
            == DockerCommand(opts, DockerMounts(config).value + HarnessMountFlags(opts), opts.dockerTag))
  {
    var config := LoadConfig(opts.bootstrapConfig, parsed);
    if WithHarnessMounts(opts, config).Success? {
      HarnessMountsKeepOutcome(opts, config);
      if DockerMounts(config).Success? {
        HarnessMountsLast(opts, config);
      }
    }
  }

  /** The command of the boot-config-less runs: nvidia-docker, no extra
      argument, only the auth-token and workspace mounts. */
  lemma DefaultRunCommand(opts: Options, parsed: Config)
    requires opts.bootstrapConfig.None? && !opts.pureDocker && opts.framework == "tensorflow"
    requires opts.workspace == "/workspace" && opts.testConfig == "test_config.yaml"
    requires opts.dockerTag == "tf_test/framework" && opts.authTokenDir == "/test/auth_token"
    ensures RunCommand(opts, parsed) == Success(
      "nvidia-docker" + (" run " + ("" + (" --rm " + ((MountFlag("/test/auth_token", "/auth_tokens")
        + MountFlag("/workspace", "/workspace")) + " " + "tf_test/framework" + " python " + CONTROLLER
        + " --workspace=/workspace --test-config=" + "test_config.yaml" + " --framework=" + "tensorflow")))))
  {
    NoBootstrapConfig(parsed);
    RunCommandMounts(opts, parsed);
    var flags := HarnessMountFlags(opts);
    assert "" + flags == flags;
  }

  class Bootstrap {
    const opts: Options
    /** The commands handed to the shell so far, in order. */
    var commands: seq<string>

    constructor (opts: Options)
      ensures this.opts == opts && commands == []
    {
      this.opts := opts;
      commands := [];
    }

    /** run_local_command: the command is run (and logged). */
    method RunLocalCommand(cmd: string)
      modifies this
      ensures commands == old(commands) + [cmd]
    {
      commands := commands + [cmd];
    }

    /** git_clone. */
    method GitClone(repo: string, folder: string, branch: Option<string>, shaHash: Option<string>, folderExists: bool)
      modifies this
      ensures commands == old(commands) + GitCloneCommands(repo, folder, branch, shaHash, folderExists)
    {
      if folderExists {
        RunLocalCommand("git -C " + folder + " pull");
      } else {
        RunLocalCommand("git clone " + repo + " " + folder);
      }
      if branch.Some? {
        RunLocalCommand("git -C " + folder + " checkout " + branch.value);
      }
      if shaHash.Some? {
        RunLocalCommand("git -C " + folder + " reset --hard " + shaHash.value);
      }
    }

    /** run_tests: nothing runs when the GPU check is on and finds the GPUs
        busy; the check is not made when it is off. Otherwise the harness is
        checked out, the image built, and the docker command run, unless
        building it raises. `Success(false)` is the aborted run. */
    method RunTests(isOk: nat -> bool, folderExists: bool, parsed: Config) returns (r: Result<bool>)
      modifies this
      ensures opts.gpuProcessCheck && !GpusFree(isOk) ==> commands == old(commands) && r == Success(false)
      ensures !opts.gpuProcessCheck || GpusFree(isOk) ==>
        var run := RunCommand(opts, parsed);
        && (run.Failure? ==> commands == old(commands) + SetupCommands(opts, folderExists) && r == Failure(run.error))
        && (run.Success? ==>
              commands == old(commands) + SetupCommands(opts, folderExists) + [run.value] && r == Success(true))
    {
      if opts.gpuProcessCheck {
        var ok := ExistingProcessCheck(isOk);
        if !ok {
          return Success(false);
        }
      }
      GitClone(HARNESS_REPO, HarnessFolder(opts), opts.harnessBranch, None, folderExists);
      RunLocalCommand("docker build --no-cache --pull -t " + opts.dockerTag + " " + opts.dockerFolder);
      assert commands == old(commands) + SetupCommands(opts, folderExists);
      var config := LoadConfig(opts.bootstrapConfig, parsed);
      var withMounts := WithHarnessMounts(opts, config);
      if withMounts.Failure? {
        return Failure(withMounts.error);
      }
      var cmd := BuildDockerCmd(opts, withMounts.value, opts.dockerTag);
      if cmd.Failure? {
        return Failure(cmd.error);
      }
      RunLocalCommand(cmd.value);
      r := Success(true);
    }
  }
}
