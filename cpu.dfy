/**
  What tools/cpu.py reads about the CPU from /proc/cpuinfo: the model
  name, the number of sockets, the number of cores and the raw text. Each
  shell pipeline is left out and becomes its return code and output.
 */
module Cpu {
  import opened Wrappers
  import opened Strs

  /** The return code and output of one shell command. */
  datatype Command = Command(retcode: int, output: string)

  /** The command succeeded and printed at least one line. */
  predicate Answered(c: Command) {
    c.retcode == 0 && |SplitLines(c.output)| > 0
  }

  /** The text after the first `:` of the first line, up to a second `:`;
      a line without `:` is an IndexError. */
  function ValueField(c: Command): (r: Result<string>)
    requires Answered(c)
    ensures r.Success? <==> ':' in SplitLines(c.output)[0]
    ensures r.Success? ==> r.value == Split(SplitLines(c.output)[0], ':')[1]
  {
    var parts := Split(SplitLines(c.output)[0], ':');
    if |parts| < 2 then
      assert parts == [SplitLines(c.output)[0]];
      Failure("IndexError: list index out of range")
    else Success(parts[1])
  }

  /** _model_name on the output of `grep 'model name'`: the value of the
      first line, stripped; '' when the command failed or printed nothing. */
  function ModelName(c: Command): (r: Result<string>)
    ensures !Answered(c) ==> r == Success("")
    ensures Answered(c) ==> r.Success? == ValueField(c).Success?
    ensures Answered(c) && r.Success? ==> r.value == Strip(ValueField(c).value)
  {
    if Answered(c) then
      match ValueField(c)
      case Failure(e) => Failure(e)
      case Success(v) => Success(Strip(v))
    else Success("")
  }

  /** _socket_count on the output of `... | wc -l`: the integer on the first
      line (a ValueError when it is not one); -1 when the command failed or
      printed nothing. */
  function SocketCount(c: Command): (r: Result<int>)
    ensures !Answered(c) ==> r == Success(-1)
    ensures Answered(c) ==> (r.Success? <==> ParseInt(SplitLines(c.output)[0]).Some?)
    ensures Answered(c) && r.Success? ==> r.value == ParseInt(SplitLines(c.output)[0]).value
  {
    if Answered(c) then
      match ParseInt(SplitLines(c.output)[0])
      case None => Failure("ValueError: invalid literal for int()")
      case Some(n) => Success(n)
    else Success(-1)
  }

  /** _core_count on the output of `grep 'cpu cores'` and of the socket
      count command it runs in turn: the cores per socket times the socket
      count; -1 when its own command failed or printed nothing. */
  function CoreCount(c: Command, sockets: Command): (r: Result<int>)
    ensures !Answered(c) ==> r == Success(-1)
    ensures Answered(c) ==>
      (r.Success? <==>
        ValueField(c).Success? && ParseInt(Strip(ValueField(c).value)).Some? && SocketCount(sockets).Success?)
    ensures Answered(c) && r.Success? ==>
      r.value == ParseInt(Strip(ValueField(c).value)).value * SocketCount(sockets).value
  {
    if Answered(c) then
      match ValueField(c)
      case Failure(e) => Failure(e)
      case Success(v) =>
        match ParseInt(Strip(v))
        case None => Failure("ValueError: invalid literal for int()")
        case Some(perSocket) =>
          match SocketCount(sockets)
          case Failure(e) => Failure(e)
          case Success(n) => Success(perSocket * n)
    else Success(-1)
  }

  /** _cpu_info: the whole of /proc/cpuinfo, or '' when the command
      failed. */
  function CpuInfo(c: Command): (r: string)
    ensures c.retcode == 0 ==> r == c.output
    ensures c.retcode != 0 ==> r == ""
  {
    if c.retcode == 0 then c.output else ""
  }

  /** get_cpu_info: (model name, socket count, core count, cpu info), the
      first failure in the order the source asks (model name, core count,
      socket count) being the error. */
  function GetCpuInfo(model: Command, cores: Command, sockets: Command, info: Command)
    : (r: Result<(string, int, int, string)>)
    ensures r.Success? <==> ModelName(model).Success? && CoreCount(cores, sockets).Success?
                            && SocketCount(sockets).Success?
    ensures r.Success? ==>
      r.value == (ModelName(model).value, SocketCount(sockets).value, CoreCount(cores, sockets).value, CpuInfo(info))
    ensures ModelName(model).Failure? ==> r == Failure(ModelName(model).error)
  {
    match ModelName(model)
    case Failure(e) => Failure(e)
    case Success(modelName) =>
      match CoreCount(cores, sockets)
      case Failure(e) => Failure(e)
      case Success(coreCount) =>
        match SocketCount(sockets)
        case Failure(e) => Failure(e)
        case Success(socketCount) => Success((modelName, socketCount, coreCount, CpuInfo(info)))
  }

  /** One line ended by a line break is the only line. */
  lemma OneLine(line: string)
    requires '\n' !in line
    ensures SplitLines(line + "\n") == [line]
  {
    SplitLinesJoin([line]);
  }

  /** The decimal text of a count holds neither `:` nor a line break. */
  lemma CountText(n: nat)
    ensures ':' !in NatToString(n) && '\n' !in NatToString(n)
  {
    IntToStringHasNo(n, ':');
    IntToStringHasNo(n, '\n');
  }

  /** `key: value` on one line gives back `value`, stripped. */
  lemma ModelNameRead(key: string, name: string)
    requires ':' !in key && ':' !in name && '\n' !in key && '\n' !in name
    ensures ModelName(Command(0, key + ":" + name + "\n")) == Success(Strip(name))
  {
    OneLine(key + ":" + name);
    SplitPair(key, name, ':');
  }

  /** The decimal text of a count, on its own line, reads back as that
      count. */
  lemma SocketCountRead(n: nat)
    ensures SocketCount(Command(0, NatToString(n) + "\n")) == Success(n)
  {
    CountText(n);
    OneLine(NatToString(n));
    ParseNat(n);
  }

  /** `key:n` on one line makes the core count n times the socket count. */
  lemma CoreCountOf(key: string, perSocket: nat, sockets: Command)
    requires ':' !in key && '\n' !in key
    requires SocketCount(sockets).Success?
    ensures CoreCount(Command(0, key + ":" + NatToString(perSocket) + "\n"), sockets)
         == Success(perSocket * SocketCount(sockets).value)
  {
    var v := NatToString(perSocket);
    CountText(perSocket);
    OneLine(key + ":" + v);
    SplitPair(key, v, ':');
    StripUntrimmed(v);
    ParseNat(perSocket);
  }

  /** The core count is the cores per socket times the sockets, e.g. 6 and
      2 give 12. */
  lemma CoreCountProduct(key: string, perSocket: nat, sockets: nat)
    requires ':' !in key && '\n' !in key
    ensures CoreCount(Command(0, key + ":" + NatToString(perSocket) + "\n"), Command(0, NatToString(sockets) + "\n"))
         == Success(perSocket * sockets)
  {
    SocketCountRead(sockets);
    CoreCountOf(key, perSocket, Command(0, NatToString(sockets) + "\n"));
  }

  /** When the socket command fails, its -1 makes the core count the
      negated cores per socket. */
  lemma FailedSocketsNegateCores(key: string, perSocket: nat, sockets: Command)
    requires ':' !in key && '\n' !in key
    requires sockets.retcode != 0
    ensures CoreCount(Command(0, key + ":" + NatToString(perSocket) + "\n"), sockets) == Success(-(perSocket as int))
  {
    CoreCountOf(key, perSocket, sockets);
  }
}
