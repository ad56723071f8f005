/**
  get_gpu_info of upload/nvidia_tools.py: the driver version and name of
  the first GPU nvidia-smi lists, with no Quadro rule. The command becomes
  its return code and output.
 */
module NvidiaTools {
  import opened Wrappers
  import opened Strs
  import Nvidia

  /** get_gpu_info: the stripped first two comma fields of the second line
      whatever it names, further fields ignored; ('', '') when the command
      failed or printed no data line. */
  function GetGpuInfo(retcode: int, output: string): (r: Result<(string, string)>)
    ensures var lines := SplitLines(output);
      && (retcode != 0 || |lines| <= 1 ==> r == Success(("", "")))
      && (retcode == 0 && |lines| > 1 ==> r == Nvidia.DriverAndName(lines[1]))
  {
    var lines := SplitLines(output);
    if retcode == 0 && |lines| > 1 then
      var fields := Split(lines[1], ',');
      if |fields| < 2 then
        assert fields == [lines[1]];
        Failure("IndexError: list index out of range")
      else Success((Strip(fields[0]), Strip(fields[1])))
    else Success(("", ""))
  }

  /** The first GPU is reported even when it is a Quadro, and the fields
      after its name are ignored. */
  lemma FirstGpuAlways(header: string, fields: seq<string>)
    requires '\n' !in header && |fields| >= 2
    requires forall k :: 0 <= k < |fields| ==> Nvidia.Field(fields[k])
    ensures GetGpuInfo(0, Join([header, Join(fields, ",")], "\n") + "\n")
         == Success((Strip(fields[0]), Strip(fields[1])))
  {
    var line := Join(fields, ",");
    SplitJoin(fields, ',');
    JoinFree(fields, ",", '\n');
    SplitLinesJoin([header, line]);
  }
}
