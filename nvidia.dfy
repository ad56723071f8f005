/**
  What tools/nvidia.py reads from nvidia-smi: the driver version and GPU
  name, the process table, and whether the GPUs are free for a test. The
  command itself is left out: each operation takes its return code and its
  output text.
 */
module Nvidia {
  import opened Wrappers
  import opened Strs

  // ------------------------------------------------------------ gpu info

  /** The stripped first two comma fields of a csv line; a line without a
      comma has no second field (IndexError). */
  function DriverAndName(line: string): (r: Result<(string, string)>)
    ensures r.Success? <==> ',' in line
    ensures r.Success? ==> r.value == (Strip(Split(line, ',')[0]), Strip(Split(line, ',')[1]))
  {
    var fields := Split(line, ',');
    if |fields| < 2 then
      assert fields == [line];
      Failure("IndexError: list index out of range")
    else Success((Strip(fields[0]), Strip(fields[1])))
  }

  /** get_gpu_info on the lines of `nvidia-smi --query-gpu=...`: the second
      line (the first after the csv header), or the third when the second
      names a Quadro and a third exists; ('', '') when the command failed or
      printed no data line. */
  function GpuInfoOfLines(retcode: int, lines: seq<string>): (r: Result<(string, string)>)
    ensures retcode != 0 || |lines| <= 1 ==> r == Success(("", ""))
    ensures retcode == 0 && |lines| > 1 && ',' !in lines[1] ==> r.Failure?
    ensures retcode == 0 && |lines| > 1 && ',' in lines[1] ==>
      var quadro := Contains(Split(lines[1], ',')[1], "Quadro") && |lines| > 2;
      r == DriverAndName(if quadro then lines[2] else lines[1])
  {
    if retcode == 0 && |lines| > 1 then
      var fields := Split(lines[1], ',');
      if |fields| < 2 then
        assert fields == [lines[1]];
        Failure("IndexError: list index out of range")
      else if Contains(fields[1], "Quadro") && |lines| > 2 then DriverAndName(lines[2])
      else Success((Strip(fields[0]), Strip(fields[1])))
    else Success(("", ""))
  }

  /** get_gpu_info on the command's return code and output: a failed
      command, or output without a data line, gives ('', ''). */
  function GetGpuInfo(retcode: int, output: string): (r: Result<(string, string)>)
    ensures retcode != 0 ==> r == Success(("", ""))
    ensures '\n' !in output ==> r == Success(("", ""))
  {
    assert '\n' !in output ==> |SplitLines(output)| <= 1 by {
      if '\n' !in output && output != "" {
        assert Split(output, '\n') == [output];
      }
    }
    GpuInfoOfLines(retcode, SplitLines(output))
  }

  /** The output of a csv header and `driver,name` lines, each ended by a
      line break. */
  function CsvOutput(header: string, rows: seq<(string, string)>): string {
    Join([header] + CsvLines(rows), "\n") + "\n"
  }

  function CsvLines(rows: seq<(string, string)>): (lines: seq<string>)
    ensures |lines| == |rows|
    ensures forall k :: 0 <= k < |rows| ==> lines[k] == rows[k].0 + [','] + rows[k].1
  {
    if |rows| == 0 then [] else CsvLines(rows[..|rows| - 1]) + [rows[|rows| - 1].0 + [','] + rows[|rows| - 1].1]
  }

  /** A csv field: no comma and no line break. */
  predicate Field(s: string) {
    ',' !in s && '\n' !in s
  }

  /** No line of the output holds a line break. */
  lemma CsvLinesUnbroken(header: string, rows: seq<(string, string)>)
    requires '\n' !in header
    requires forall k :: 0 <= k < |rows| ==> Field(rows[k].0) && Field(rows[k].1)
    ensures forall k :: 0 <= k < |[header] + CsvLines(rows)| ==> '\n' !in ([header] + CsvLines(rows))[k]
  {
    var lines := [header] + CsvLines(rows);
    forall k | 0 <= k < |lines|
      ensures '\n' !in lines[k]
    {
      if k > 0 {
        assert lines[k] == rows[k - 1].0 + [','] + rows[k - 1].1;
      }
    }
  }

  /** The output's lines are the header and the rows, and each row splits
      into its driver and name. */
  lemma CsvOutputLines(header: string, rows: seq<(string, string)>)
    requires '\n' !in header
    requires forall k :: 0 <= k < |rows| ==> Field(rows[k].0) && Field(rows[k].1)
    ensures SplitLines(CsvOutput(header, rows)) == [header] + CsvLines(rows)
    ensures forall k :: 0 <= k < |rows| ==> Split(CsvLines(rows)[k], ',') == [rows[k].0, rows[k].1]
  {
    CsvLinesUnbroken(header, rows);
    SplitLinesJoin([header] + CsvLines(rows));
    forall k | 0 <= k < |rows|
      ensures Split(CsvLines(rows)[k], ',') == [rows[k].0, rows[k].1]
    {
      SplitPair(rows[k].0, rows[k].1, ',');
    }
  }

  /** A first GPU that is not a Quadro gives its driver and name, stripped. */
  lemma FirstGpuRead(header: string, rows: seq<(string, string)>)
    requires '\n' !in header && |rows| >= 1
    requires forall k :: 0 <= k < |rows| ==> Field(rows[k].0) && Field(rows[k].1)
    requires !Contains(rows[0].1, "Quadro")
    ensures GetGpuInfo(0, CsvOutput(header, rows)) == Success((Strip(rows[0].0), Strip(rows[0].1)))
  {
    CsvOutputLines(header, rows);
  }

  /** A first GPU that is a Quadro is passed over for the second one, when
      there is one; a lone Quadro is reported. */
  lemma QuadroPassedOver(header: string, rows: seq<(string, string)>)
    requires '\n' !in header && |rows| >= 1
    requires forall k :: 0 <= k < |rows| ==> Field(rows[k].0) && Field(rows[k].1)
    requires Contains(rows[0].1, "Quadro")
    ensures |rows| >= 2 ==> GetGpuInfo(0, CsvOutput(header, rows)) == Success((Strip(rows[1].0), Strip(rows[1].1)))
    ensures |rows| == 1 ==> GetGpuInfo(0, CsvOutput(header, rows)) == Success((Strip(rows[0].0), Strip(rows[0].1)))
  {
    CsvOutputLines(header, rows);
  }

  // ------------------------------------------------------------ processes

  /** `re.search('[0-1]+', line)`: where the first `0` or `1` is, or -1. */
  function SearchBinaryDigit(line: string): (i: int)
    ensures -1 <= i < |line|
    ensures i >= 0 ==> line[i] in "01" && forall k :: 0 <= k < i ==> line[k] !in "01"
    ensures i == -1 ==> forall k :: 0 <= k < |line| ==> line[k] !in "01"
  {
    if |line| == 0 then -1
    else if line[0] in "01" then 0
    else
      var i := SearchBinaryDigit(line[1..]);
      if i == -1 then -1 else i + 1
  }

  /** A row of the process table: its leftmost `0` or `1` is the sixth
      character, where the GPU index stands. */
  predicate ProcessLine(line: string) {
    SearchBinaryDigit(line) == 5
  }

  /** The same condition, stated on the characters. */
  lemma ProcessLineChars(line: string)
    ensures ProcessLine(line) <==>
      |line| > 5 && line[5] in "01" && forall k :: 0 <= k < 5 ==> line[k] !in "01"
  {
  }

  /** The line that opens the process table: "Processes" occurs in it, but
      not at its start. */
  predicate TableHeader(line: string) {
    Find(line, "Processes") > 0
  }

  /** A process row: the line stripped, its `|` removed, split on
      whitespace. */
  function Row(line: string): (row: seq<string>)
    ensures forall k :: 0 <= k < |row| ==> '|' !in row[k]
  {
    var tokens := SplitWs(RemoveChar(Strip(line), '|'));
    NoCharInTokens(RemoveChar(Strip(line), '|'), '|');
    tokens
  }

  /** A character not in the text is in none of its tokens. */
  lemma {:induction false} NoCharInTokens(s: string, c: char)
    requires c !in s
    decreases |s|
    ensures forall k :: 0 <= k < |SplitWs(s)| ==> c !in SplitWs(s)[k]
  {
    if |s| > 0 {
      if IsSpace(s[0]) {
        NoCharInTokens(s[1..], c);
      } else {
        var n := TokenLength(s);
        NoCharInTokens(s[n..], c);
        assert SplitWs(s) == [s[..n]] + SplitWs(s[n..]);
      }
    }
  }

  /** The rows of the process lines among `lines`, in order. */
  function RowsOf(lines: seq<string>): (rows: seq<seq<string>>)
    ensures |rows| <= |lines|
  {
    if |lines| == 0 then []
    else RowsOf(lines[..|lines| - 1]) + (if ProcessLine(lines[|lines| - 1]) then [Row(lines[|lines| - 1])] else [])
  }

  /** The lines from the first table header on; none without a header. */
  function Watched(lines: seq<string>): (w: seq<string>)
    ensures |w| <= |lines|
  {
    if |lines| == 0 then []
    else if TableHeader(lines[0]) then lines
    else Watched(lines[1..])
  }

  /** Watched lines start at the first table header; without one there
      are none. */
  lemma {:induction false} WatchedFromFirstHeader(lines: seq<string>, j: int)
    requires 0 <= j <= |lines|
    requires forall k :: 0 <= k < j ==> !TableHeader(lines[k])
    requires j < |lines| ==> TableHeader(lines[j])
    decreases j
    ensures Watched(lines) == lines[j..]
  {
    if j > 0 {
      assert !TableHeader(lines[0]);
      WatchedFromFirstHeader(lines[1..], j - 1);
      assert lines[1..][j - 1..] == lines[j..];
    }
  }

  /** What the loop collects from `lines` when it has (`look`) or has not
      yet seen the table header. */
  function Collected(lines: seq<string>, look: bool): seq<seq<string>> {
    if |lines| == 0 then []
    else
      var look' := look || TableHeader(lines[0]);
      (if look' && ProcessLine(lines[0]) then [Row(lines[0])] else []) + Collected(lines[1..], look')
  }

  /** Rows are collected from `x + y` as from `x` and then `y`. */
  lemma {:induction false} RowsOfConcat(x: seq<string>, y: seq<string>)
    decreases |y|
    ensures RowsOf(x + y) == RowsOf(x) + RowsOf(y)
  {
    if |y| == 0 {
      assert x + y == x;
    } else {
      var y' := y[..|y| - 1];
      assert (x + y)[..|x + y| - 1] == x + y';
      RowsOfConcat(x, y');
    }
  }

  /** The rows of one line: its row when it is a process line. */
  lemma RowsOfOne(line: string)
    ensures RowsOf([line]) == if ProcessLine(line) then [Row(line)] else []
  {
    assert [line][..0] == [];
  }

  /** Once the header has been seen, every process line counts. */
  lemma {:induction false} CollectedLooking(lines: seq<string>)
    decreases |lines|
    ensures Collected(lines, true) == RowsOf(lines)
  {
    if |lines| > 0 {
      CollectedLooking(lines[1..]);
      RowsOfConcat([lines[0]], lines[1..]);
      RowsOfOne(lines[0]);
      assert [lines[0]] + lines[1..] == lines;
    }
  }

  /** The loop collects exactly the process rows from the first header on:
      lines before it are ignored, and no header means no rows. */
  lemma {:induction false} CollectedFromHeader(lines: seq<string>)
    decreases |lines|
    ensures Collected(lines, false) == RowsOf(Watched(lines))
  {
    if |lines| > 0 {
      if TableHeader(lines[0]) {
        CollectedLooking(lines);
      } else {
        CollectedFromHeader(lines[1..]);
      }
    }
  }

  /** One step of the loop: line `i` is looked at, then the rest. */
  lemma CollectedStep(lines: seq<string>, i: int, look: bool)
    requires 0 <= i < |lines|
    ensures var look' := look || TableHeader(lines[i]);
      Collected(lines[i..], look)
      == (if look' && ProcessLine(lines[i]) then [Row(lines[i])] else []) + Collected(lines[i + 1..], look')
  {
    assert lines[i..][0] == lines[i] && lines[i..][1..] == lines[i + 1..];
  }

  lemma SeqAssoc<T>(a: seq<T>, b: seq<T>, c: seq<T>)
    ensures a + (b + c) == (a + b) + c
  {
  }

  /** What get_running_processes returns: the process rows, or, when
      nvidia-smi failed or printed at most one line, the pair ('', ''). */
  datatype Processes = Rows(rows: seq<seq<string>>) | NotExpected

  /** get_running_processes on the command's return code and output. */
  function RunningProcesses(retcode: int, output: string): Processes {
    var lines := SplitLines(output);
    if retcode == 0 && |lines| > 1 then Rows(Collected(lines, false)) else NotExpected
  }

  /** get_running_processes as the source writes it: a flag set at the
      first table header and a list the process rows are appended to. */
  method GetRunningProcesses(retcode: int, output: string) returns (p: Processes)
    ensures p == RunningProcesses(retcode, output)
    ensures p.Rows? ==> p.rows == RowsOf(Watched(SplitLines(output)))
  {
    var lines := SplitLines(output);
    if !(retcode == 0 && |lines| > 1) {
      return NotExpected;
    }
    var look := false;
    var processes := [];
    for i := 0 to |lines|
      invariant Collected(lines, false) == processes + Collected(lines[i..], look)
    {
      CollectedStep(lines, i, look);
      if TableHeader(lines[i]) {
        look := true;
      }
      if look && ProcessLine(lines[i]) {
        SeqAssoc(processes, [Row(lines[i])], Collected(lines[i + 1..], look));
        processes := processes + [Row(lines[i])];
      }
    }
    assert lines[|lines|..] == [];
    CollectedFromHeader(lines);
    return Rows(processes);
  }

  // ------------------------------------------------------------ ok to run

  /** is_ok_to_run over the rows, in order: the first row naming `python` as
      its fourth token says no; a row of three tokens or fewer before it is
      an IndexError; no such row says yes. */
  function OkToRun(rows: seq<seq<string>>): Result<bool> {
    if |rows| == 0 then Success(true)
    else if |rows[0]| <= 3 then Failure("IndexError: list index out of range")
    else if rows[0][3] == "python" then Success(false)
    else OkToRun(rows[1..])
  }

  /** The answer for what get_running_processes returned; the ('', '') of a
      failed command is iterated as two empty strings, and indexing the
      first is an IndexError. */
  function OkToRunOn(p: Processes): Result<bool> {
    if p.NotExpected? then Failure("IndexError: string index out of range") else OkToRun(p.rows)
  }

  /** When every row has a fourth token, the GPUs are free exactly when no
      row names a python process. */
  lemma {:induction false} OkUnlessPython(rows: seq<seq<string>>)
    requires forall k :: 0 <= k < |rows| ==> |rows[k]| > 3
    ensures OkToRun(rows) == Success(!exists k :: 0 <= k < |rows| && rows[k][3] == "python")
  {
    if |rows| > 0 && rows[0][3] != "python" {
      OkUnlessPython(rows[1..]);
      if exists k :: 0 <= k < |rows| && rows[k][3] == "python" {
        var k :| 0 <= k < |rows| && rows[k][3] == "python";
        assert rows[1..][k - 1][3] == "python";
      }
    }
  }

  /** is_ok_to_run as the source writes it: a loop over the processes that
      returns at the first python process. */
  method IsOkToRun(retcode: int, output: string) returns (r: Result<bool>)
    ensures r == OkToRunOn(RunningProcesses(retcode, output))
  {
    var processes := GetRunningProcesses(retcode, output);
    if processes.NotExpected? {
      return Failure("IndexError: string index out of range");
    }
    var rows := processes.rows;
    for i := 0 to |rows|
      invariant OkToRun(rows) == OkToRun(rows[i..])
    {
      assert rows[i..][1..] == rows[i + 1..];
      if |rows[i]| <= 3 {
        return Failure("IndexError: list index out of range");
      }
      if rows[i][3] == "python" {
        return Success(false);
      }
    }
    return Success(true);
  }
}
