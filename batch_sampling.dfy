/**
  The sampling loop the MXNet, PyTorch and Keras reporters share: each log
  line is read as nothing, as an error, or as a batch number with the speed
  (or step time) it reports; lines past the warm-up are sampled, and a line
  past the stop batch ends the scan (the loop's `break`).
 */
module BatchSampling {
  import opened Wrappers
  import opened Util
  import opened Records

  /** What one log line says. The speed is only looked at when the batch is
      past the warm-up, so an error in it only counts then. */
  datatype Reading =
    | Skip
    | Unreadable(error: string)
    | Batch(batch: int, speed: Result<real>)

  /** The readings of the lines of a log, in order, by the reporter's
      `read`. */
  function ReadAll<L>(read: L -> Reading, lines: seq<L>): (rds: seq<Reading>)
    ensures |rds| == |lines|
  {
    if lines == [] then [] else ReadAll(read, lines[..|lines| - 1]) + [read(lines[|lines| - 1])]
  }

  /** Reading i is the reading of line i. */
  lemma {:induction false} ReadAllAt<L>(read: L -> Reading, lines: seq<L>, i: nat)
    requires i < |lines|
    ensures ReadAll(read, lines)[i] == read(lines[i])
  {
    if i < |lines| - 1 {
      ReadAllAt(read, lines[..|lines| - 1], i);
    }
  }

  /** The readings of two logs one after the other are the readings of
      each. */
  lemma {:induction false} ReadAllAppend<L>(read: L -> Reading, a: seq<L>, b: seq<L>)
    ensures ReadAll(read, a + b) == ReadAll(read, a) + ReadAll(read, b)
  {
    if b == [] {
      assert a + b == a;
    } else {
      ReadAllAppend(read, a, b[..|b| - 1]);
      assert (a + b)[..|a + b| - 1] == a + b[..|b| - 1];
    }
  }

  /** The values sampled so far and whether the loop has stopped. */
  datatype Sampling = Sampling(values: seq<real>, done: bool)

  const START: Sampling := Sampling([], false)

  /** The loop body: a line past `warm` adds its value; a line past `stop`
      ends the loop (no stop batch: the loop reads every line). */
  function Step(st: Sampling, rd: Reading, warm: int, stop: Option<int>): (r: Result<Sampling>)
    ensures st.done ==> r == Success(st)
    ensures !st.done && rd.Skip? ==> r == Success(st)
    ensures !st.done && rd.Unreadable? ==> r == Failure(rd.error)
    ensures !st.done && rd.Batch? && rd.batch <= warm ==> r == Success(st.(done := stop.Some? && rd.batch > stop.value))
    ensures !st.done && rd.Batch? && rd.batch > warm ==>
      (r.Success? <==> rd.speed.Success?)
      && (r.Success? ==> r.value == Sampling(st.values + [rd.speed.value], stop.Some? && rd.batch > stop.value))
  {
    if st.done then Success(st)
    else
      match rd
      case Skip => Success(st)
      case Unreadable(e) => Failure(e)
      case Batch(b, speed) =>
        var stops := stop.Some? && b > stop.value;
        if b > warm then
          match speed
          case Failure(e) => Failure(e)
          case Success(v) => Success(Sampling(st.values + [v], stops))
        else Success(st.(done := stops))
  }

  /** The state after the loop has read `rds` in order; the first error
      ends it. */
  function Scan(rds: seq<Reading>, warm: int, stop: Option<int>): Result<Sampling> {
    ScanUpTo(rds, |rds|, warm, stop)
  }

  /** The state after the loop has read the first n readings. */
  function ScanUpTo(rds: seq<Reading>, n: nat, warm: int, stop: Option<int>): Result<Sampling>
    requires n <= |rds|
  {
    if n == 0 then Success(START)
    else
      match ScanUpTo(rds, n - 1, warm, stop)
      case Failure(e) => Failure(e)
      case Success(st) => Step(st, rds[n - 1], warm, stop)
  }

  /** The first n readings are all the scan looks at. */
  lemma {:induction false} ScanUpToPrefix(a: seq<Reading>, b: seq<Reading>, n: nat, warm: int, stop: Option<int>)
    requires n <= |a|
    ensures ScanUpTo(a + b, n, warm, stop) == ScanUpTo(a, n, warm, stop)
  {
    if n > 0 {
      ScanUpToPrefix(a, b, n - 1, warm, stop);
      assert (a + b)[n - 1] == a[n - 1];
    }
  }

  /** A reading that adds nothing: not a batch, or a batch of the warm-up
      that does not stop the loop. */
  predicate WarmUp(rd: Reading, warm: int, stop: Option<int>) {
    rd.Skip? || (rd.Batch? && rd.batch <= warm && !(stop.Some? && rd.batch > stop.value))
  }

  /** Lines of the warm-up leave the loop where it started. */
  lemma {:induction false} WarmUpNothing(pre: seq<Reading>, n: nat, warm: int, stop: Option<int>)
    requires n <= |pre|
    requires forall k :: 0 <= k < |pre| ==> WarmUp(pre[k], warm, stop)
    ensures ScanUpTo(pre, n, warm, stop) == Success(START)
  {
    if n > 0 {
      WarmUpNothing(pre, n - 1, warm, stop);
    }
  }

  /** After a prefix that leaves the loop where it started, the scan goes
      on as if the prefix were not there. */
  lemma {:induction false} ScanAfterStart(pre: seq<Reading>, rest: seq<Reading>, n: nat, warm: int, stop: Option<int>)
    requires n <= |rest|
    requires Scan(pre, warm, stop) == Success(START)
    ensures ScanUpTo(pre + rest, |pre| + n, warm, stop) == ScanUpTo(rest, n, warm, stop)
  {
    if n == 0 {
      ScanUpToPrefix(pre, rest, |pre|, warm, stop);
    } else {
      ScanAfterStart(pre, rest, n - 1, warm, stop);
      assert (pre + rest)[|pre| + n - 1] == rest[n - 1];
    }
  }

  /** The warm-up is ignored: a run's figures come only from the lines
      after it. */
  lemma WarmUpIgnored(pre: seq<Reading>, rest: seq<Reading>, warm: int, stop: Option<int>)
    requires forall k :: 0 <= k < |pre| ==> WarmUp(pre[k], warm, stop)
    ensures Scan(pre + rest, warm, stop) == Scan(rest, warm, stop)
  {
    WarmUpNothing(pre, |pre|, warm, stop);
    ScanAfterStart(pre, rest, |rest|, warm, stop);
  }

  /** Once the loop has stopped, or failed, later readings change nothing. */
  lemma {:induction false} StopSticks(rds: seq<Reading>, n: nat, m: nat, warm: int, stop: Option<int>)
    requires n <= m <= |rds|
    requires ScanUpTo(rds, n, warm, stop).Failure? || ScanUpTo(rds, n, warm, stop).value.done
    ensures ScanUpTo(rds, m, warm, stop) == ScanUpTo(rds, n, warm, stop)
  {
    if n < m {
      StopSticks(rds, n, m - 1, warm, stop);
    }
  }

  /** When the loop ends at reading i, by an error or a break, the scan of
      all readings is the scan up to and including reading i. */
  lemma EndsAt(rds: seq<Reading>, i: nat, warm: int, stop: Option<int>)
    requires i < |rds|
    requires ScanUpTo(rds, i + 1, warm, stop).Failure? || ScanUpTo(rds, i + 1, warm, stop).value.done
    ensures Scan(rds, warm, stop) == ScanUpTo(rds, i + 1, warm, stop)
  {
    StopSticks(rds, i + 1, |rds|, warm, stop);
  }

  /** A line past the stop batch whose value (if it is sampled) reads ends
      the loop: nothing after it is read. */
  lemma StopLine(pre: seq<Reading>, line: Reading, post: seq<Reading>, warm: int, stop: Option<int>)
    requires Scan(pre, warm, stop).Success?
    requires stop.Some? && line.Batch? && line.batch > stop.value
    requires line.batch > warm ==> line.speed.Success?
    ensures Scan(pre + [line] + post, warm, stop) == Scan(pre + [line], warm, stop)
    ensures Scan(pre + [line], warm, stop).Success?
  {
    var all := pre + [line] + post;
    assert all == (pre + [line]) + post;
    ScanUpToPrefix(pre, [line] + post, |pre|, warm, stop);
    assert all == pre + ([line] + post);
    ScanUpToPrefix(pre, [line], |pre|, warm, stop);
    assert all[|pre|] == line && (pre + [line])[|pre|] == line;
    ScanUpToPrefix(pre + [line], post, |pre| + 1, warm, stop);
    StopSticks(all, |pre| + 1, |all|, warm, stop);
  }

  /** Without a stop batch every reading is read, and at most one value is
      sampled per reading. */
  lemma {:induction false} ScanCount(rds: seq<Reading>, n: nat, warm: int, stop: Option<int>)
    requires n <= |rds|
    requires ScanUpTo(rds, n, warm, stop).Success?
    ensures |ScanUpTo(rds, n, warm, stop).value.values| <= n
    ensures stop.None? ==> !ScanUpTo(rds, n, warm, stop).value.done
  {
    if n > 0 {
      ScanCount(rds, n - 1, warm, stop);
    }
  }

  /** The reading of line i. The loop takes its readings through this
      method, so that its proof sees the reading and not how it is read. */
  method ReadAt<L>(read: L -> Reading, lines: seq<L>, i: nat) returns (rd: Reading)
    requires i < |lines|
    ensures rd == ReadAll(read, lines)[i]
  {
    rd := read(lines[i]);
    ReadAllAt(read, lines, i);
  }

  /** Lines that read as warm-up readings do not change the outcome: the log
      scans as if they were not there. */
  lemma WarmUpLinesIgnored<L>(read: L -> Reading, pre: seq<L>, rest: seq<L>, warm: int, stop: Option<int>)
    requires forall k :: 0 <= k < |pre| ==> WarmUp(read(pre[k]), warm, stop)
    ensures Scan(ReadAll(read, pre + rest), warm, stop) == Scan(ReadAll(read, rest), warm, stop)
  {
    ReadAllAppend(read, pre, rest);
    var p := ReadAll(read, pre);
    forall k | 0 <= k < |p|
      ensures WarmUp(p[k], warm, stop)
    {
      ReadAllAt(read, pre, k);
    }
    WarmUpIgnored(p, ReadAll(read, rest), warm, stop);
  }

  /** A line that reads as a batch past the stop batch (with a value that
      reads, if it is sampled) is the last line the loop reads. */
  lemma StopLineEndsLog<L>(read: L -> Reading, pre: seq<L>, line: L, post: seq<L>, warm: int, stop: Option<int>)
    requires Scan(ReadAll(read, pre), warm, stop).Success?
    requires stop.Some? && read(line).Batch? && read(line).batch > stop.value
    requires read(line).batch > warm ==> read(line).speed.Success?
    ensures Scan(ReadAll(read, pre + [line] + post), warm, stop) == Scan(ReadAll(read, pre + [line]), warm, stop)
  {
    ReadAllAppend(read, pre + [line], post);
    ReadAllAppend(read, pre, [line]);
    assert [line][..0] == [];
    assert ReadAll(read, [line]) == [read(line)];
    StopLine(ReadAll(read, pre), read(line), ReadAll(read, post), warm, stop);
  }

  /** The reporters' loop over the lines of a log: `read` each line, add the
      value of each batch past `warm` to a running sum and count, and
      `break` after the first batch past `stop`. Its outcome is the sum and
      count of the values the scan samples, or the error that ended it. */
  method SampleLog<L>(lines: seq<L>, read: L -> Reading, warm: int, stop: Option<int>)
    returns (r: Result<(real, int)>)
    ensures var scan := Scan(ReadAll(read, lines), warm, stop);
      && (scan.Failure? ==> r == Failure(scan.error))
      && (scan.Success? ==> r == Success((Sum(scan.value.values), |scan.value.values|)))
  {
    ghost var rds := ReadAll(read, lines);
    var samples := 0;
    var sum := 0.0;
    ghost var st := START;
    var i := 0;
    while i < |lines|
      invariant 0 <= i <= |lines|
      invariant ScanUpTo(rds, i, warm, stop) == Success(st) && !st.done
      invariant sum == Sum(st.values) && samples == |st.values|
    {
      var rd := ReadAt(read, lines, i);
      match rd {
        case Skip =>
        case Unreadable(e) =>
          EndsAt(rds, i, warm, stop);
          return Failure(e);
        case Batch(batch, value) =>
          if batch > warm {
            if value.Failure? {
              EndsAt(rds, i, warm, stop);
              return Failure(value.error);
            }
            sum := sum + value.value;
            samples := samples + 1;
            st := st.(values := st.values + [value.value]);
          }
          if stop.Some? && batch > stop.value {
            st := st.(done := true);
            EndsAt(rds, i, warm, stop);
            break;
          }
      }
      i := i + 1;
    }
    if i == |lines| {
      assert ScanUpTo(rds, i, warm, stop) == Scan(rds, warm, stop);
    }
    return Success((sum, samples));
  }

  /** `sum_speed / samples` over the sampled values: the mean, and a
      ZeroDivisionError when nothing was sampled. */
  function Mean(values: seq<real>): (r: Result<real>)
    ensures r.Failure? <==> values == []
    ensures r.Success? ==> r.value == Sum(values) / |values| as real
  {
    if values == [] then Failure("ZeroDivisionError: integer division or modulo by zero")
    else Success(Sum(values) / |values| as real)
  }

  /** The mean lies between the smallest and the largest sampled value. */
  lemma MeanWithin(values: seq<real>, lo: real, hi: real)
    requires values != []
    requires forall k :: 0 <= k < |values| ==> lo <= values[k] <= hi
    ensures lo <= Mean(values).value <= hi
  {
    MeanBetween(values, lo, hi);
  }

  /** The record once the log has been sampled, as the MXNet and Keras
      reporters finish it: the mean speed and the number of samples, or a
      ZeroDivisionError when nothing was sampled. */
  function MeanRecord(base: ResultRecord, st: Sampling): (r: Result<ResultRecord>)
    ensures r.Failure? <==> st.values == []
    ensures r.Success? ==>
      r.value == base.(imgsSec := Some(Mean(st.values).value), batchesSampled := Some(|st.values|))
  {
    match Mean(st.values)
    case Failure(e) => Failure(e)
    case Success(m) => Success(base.(imgsSec := Some(m), batchesSampled := Some(|st.values|)))
  }

  /** The reported speed lies between the slowest and the fastest sampled
      speed. */
  lemma SpeedWithinSamples(base: ResultRecord, st: Sampling, lo: real, hi: real)
    requires forall k :: 0 <= k < |st.values| ==> lo <= st.values[k] <= hi
    requires MeanRecord(base, st).Success?
    ensures lo <= MeanRecord(base, st).value.imgsSec.value <= hi
  {
    MeanWithin(st.values, lo, hi);
  }
}
