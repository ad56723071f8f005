/**
  The argument string the tf_models, mxnet and pytorch runners build in
  their `_cmd_builder`: for each (key, value) of the args dict in sorted
  key order, `'--{} {} '.format(key, value)` is appended to an accumulator.
 */
module ArgRender {
  import opened Wrappers
  import opened Strs
  import opened Values
  import opened KeyOrder

  /** The text one argument contributes: `--key value ` (trailing space). */
  function ArgText(key: string, v: Value): (t: string)
    ensures t == "--" + key + " " + Show(v) + " "
    ensures |t| == |key| + |Show(v)| + 4
  {
    "--" + key + " " + Show(v) + " "
  }

  /** The arguments named by `keys`, rendered one after the other. */
  ghost function RenderKeys(args: Config, keys: seq<string>): string
    requires forall k :: k in keys ==> k in args
  {
    if keys == [] then "" else ArgText(keys[0], args[keys[0]]) + RenderKeys(args, keys[1..])
  }

  lemma RenderKeysCons(args: Config, k: string, rest: seq<string>)
    requires k in args && forall r :: r in rest ==> r in args
    ensures RenderKeys(args, [k] + rest) == ArgText(k, args[k]) + RenderKeys(args, rest)
  {
    assert ([k] + rest)[1..] == rest;
  }

  /** The whole argument string: every key once, in ascending order. */
  ghost function RenderArgs(args: Config): string {
    RenderKeys(args, SortedKeys(args.Keys))
  }

  /** Rendering a set of keys starts with its least key. */
  lemma RenderLeastFirst(args: Config, keys: set<string>, k: string)
    requires (forall j :: j in keys ==> j in args) && IsLeast(k, keys)
    ensures RenderKeys(args, SortedKeys(keys)) == ArgText(k, args[k]) + RenderKeys(args, SortedKeys(keys - {k}))
  {
    SortedKeysUnfold(k, keys);
    RenderKeysCons(args, k, SortedKeys(keys - {k}));
  }

  /** Appending the least key's argument to the accumulator leaves the
      rest of the keys to render. */
  lemma AppendLeast(args: Config, remaining: set<string>, k: string, acc: string)
    requires (forall j :: j in remaining ==> j in args) && IsLeast(k, remaining)
    ensures (acc + ArgText(k, args[k])) + RenderKeys(args, SortedKeys(remaining - {k}))
         == acc + RenderKeys(args, SortedKeys(remaining))
  {
    RenderLeastFirst(args, remaining, k);
    Regroup(acc, ArgText(k, args[k]), RenderKeys(args, SortedKeys(remaining - {k})));
  }

  lemma Regroup(a: string, b: string, c: string)
    ensures (a + b) + c == a + (b + c)
  {
  }

  /** The accumulation loop of `_cmd_builder`: the keys are taken smallest
      first, each appending `--key value `. */
  method BuildArgString(args: Config) returns (argStr: string)
    ensures argStr == RenderArgs(args)
  {
    argStr := "";
    var remaining := args.Keys;
    while remaining != {}
      invariant forall k :: k in remaining ==> k in args
      invariant argStr + RenderKeys(args, SortedKeys(remaining)) == RenderArgs(args)
      decreases |remaining|
    {
      LeastExists(remaining);
      var k :| IsLeast(k, remaining);
      AppendLeast(args, remaining, k, argStr);
      argStr := argStr + ArgText(k, args[k]);
      remaining := remaining - {k};
    }
    assert argStr + "" == argStr;
  }

  // ------------------------------------------------------------ reading back

  /** The whitespace-separated words of the rendered arguments: `--key`
      then the value's text, for each key in ascending order. */
  ghost function WordsOf(args: Config, keys: seq<string>): seq<string>
    requires forall k :: k in keys ==> k in args
  {
    if keys == [] then [] else ["--" + keys[0], Show(args[keys[0]])] + WordsOf(args, keys[1..])
  }

  /** Neither the key nor the printed value is empty or holds whitespace,
      so the rendered argument reads back as two words. */
  predicate PlainArg(key: string, v: Value) {
    (forall j :: 0 <= j < |key| ==> !IsSpace(key[j]))
    && |Show(v)| > 0 && (forall j :: 0 <= j < |Show(v)| ==> !IsSpace(Show(v)[j]))
  }

  /** Splitting a word followed by a space and more text. */
  lemma SplitWsWord(w: string, rest: string)
    requires |w| > 0 && forall j :: 0 <= j < |w| ==> !IsSpace(w[j])
    ensures SplitWs(w + " " + rest) == [w] + SplitWs(rest)
  {
    var s := w + (" " + rest);
    assert s == w + " " + rest;
    TokenLengthWord(w, " " + rest);
    assert s[0] == w[0];
    assert s[..|w|] == w && s[|w|..] == " " + rest;
    assert SplitWs(s) == [w] + SplitWs(" " + rest);
    assert (" " + rest)[1..] == rest;
  }

  lemma {:induction false} TokenLengthWord(w: string, rest: string)
    requires forall j :: 0 <= j < |w| ==> !IsSpace(w[j])
    requires |rest| > 0 && IsSpace(rest[0])
    ensures TokenLength(w + rest) == |w|
  {
    if |w| > 0 {
      assert (w + rest)[1..] == w[1..] + rest;
      TokenLengthWord(w[1..], rest);
    }
  }

  /** A key without whitespace gives a `--key` flag without whitespace. */
  lemma FlagIsWord(key: string)
    requires forall j :: 0 <= j < |key| ==> !IsSpace(key[j])
    ensures var flag := "--" + key; |flag| > 0 && forall j :: 0 <= j < |flag| ==> !IsSpace(flag[j])
  {
    var flag := "--" + key;
    forall j | 0 <= j < |flag|
      ensures !IsSpace(flag[j])
    {
      if j >= 2 {
        assert flag[j] == key[j - 2];
      }
    }
  }

  /** Two words, each followed by a space, then more text. */
  lemma TwoWords(a: string, b: string, tail: string)
    requires |a| > 0 && forall j :: 0 <= j < |a| ==> !IsSpace(a[j])
    requires |b| > 0 && forall j :: 0 <= j < |b| ==> !IsSpace(b[j])
    ensures SplitWs(a + " " + b + " " + tail) == [a, b] + SplitWs(tail)
  {
    var bt := b + " " + tail;
    assert a + " " + b + " " + tail == a + " " + bt;
    SplitWsWord(a, bt);
    SplitWsWord(b, tail);
    var words := SplitWs(tail);
    assert [a] + ([b] + words) == [a, b] + words;
  }

  /** One rendered argument reads back as its `--key` and its value. */
  lemma ArgTextWords(key: string, v: Value, tail: string)
    requires PlainArg(key, v)
    ensures SplitWs(ArgText(key, v) + tail) == ["--" + key, Show(v)] + SplitWs(tail)
  {
    FlagIsWord(key);
    TwoWords("--" + key, Show(v), tail);
  }

  /** Splitting the argument string on whitespace gives back every key
      (with its `--`) followed by its value, in ascending key order. */
  lemma {:induction false} RenderKeysWords(args: Config, keys: seq<string>)
    requires forall k :: k in keys ==> k in args
    requires forall j :: 0 <= j < |keys| ==> PlainArg(keys[j], args[keys[j]])
    ensures SplitWs(RenderKeys(args, keys)) == WordsOf(args, keys)
  {
    if keys != [] {
      var rest := keys[1..];
      assert forall j :: 0 <= j < |rest| ==> rest[j] == keys[j + 1];
      RenderKeysWords(args, rest);
      ArgTextWords(keys[0], args[keys[0]], RenderKeys(args, rest));
    }
  }

  lemma RenderArgsWords(args: Config)
    requires forall k :: k in args ==> PlainArg(k, args[k])
    ensures SplitWs(RenderArgs(args)) == WordsOf(args, SortedKeys(args.Keys))
  {
    RenderKeysWords(args, SortedKeys(args.Keys));
  }

  // ------------------------------------------------------------ commands

  /** The `_cmd_builder` of the tf_models and mxnet runners (the two are
      the same code): `python {pycmd} ` followed by the argument string.
      A config without `args` or `pycmd` raises KeyError, and `args` that
      is not a dict has no iteritems(). */
  method PythonCommand(testConfig: Config) returns (r: Result<string>)
    ensures r.Success? <==> "args" in testConfig && testConfig["args"].Dict? && "pycmd" in testConfig
    ensures r.Success? ==>
      r.value == "python " + Show(testConfig["pycmd"]) + " " + RenderArgs(testConfig["args"].entries)
  {
    var args := Lookup(testConfig, "args");
    if args.Failure? {
      return Failure(args.error);
    }
    if !args.value.Dict? {
      return Failure("AttributeError: object has no attribute 'iteritems'");
    }
    var argStr := BuildArgString(args.value.entries);
    var pycmd := Lookup(testConfig, "pycmd");
    if pycmd.Failure? {
      return Failure(pycmd.error);
    }
    return Success("python " + Show(pycmd.value) + " " + argStr);
  }

  /** With a one-word script and plain arguments, the command reads back as
      `python`, the script, then `--key` and value for each key in
      ascending order. */
  lemma PythonCommandWords(pycmd: string, args: Config)
    requires |pycmd| > 0 && forall j :: 0 <= j < |pycmd| ==> !IsSpace(pycmd[j])
    requires forall k :: k in args ==> PlainArg(k, args[k])
    ensures SplitWs("python " + pycmd + " " + RenderArgs(args))
         == ["python", pycmd] + WordsOf(args, SortedKeys(args.Keys))
  {
    assert "python " == "python" + " ";
    TwoWords("python", pycmd, RenderArgs(args));
    RenderArgsWords(args);
  }

  // ------------------------------------------------------------ GPU lists

  /** str(0), str(1), ..., str(n - 1); nothing for n <= 0. */
  function GpuIds(n: int): (ids: seq<string>)
    ensures |ids| == if n <= 0 then 0 else n
    ensures forall k :: 0 <= k < |ids| ==> ids[k] == IntToString(k)
  {
    if n <= 0 then [] else seq(n, k requires 0 <= k < n => IntToString(k))
  }

  /** `','.join(str(x) for x in range(gpus))`. */
  function GpuList(n: int): string {
    Join(GpuIds(n), ",")
  }

  /** Splitting the GPU list on commas gives back one id per GPU, and each
      reads back as its own index. */
  lemma GpuListRoundTrip(n: int)
    requires n >= 1
    ensures Split(GpuList(n), ',') == GpuIds(n)
    ensures forall k :: 0 <= k < n ==> ParseInt(Split(GpuList(n), ',')[k]) == Some(k)
  {
    var ids := GpuIds(n);
    forall k | 0 <= k < |ids|
      ensures ',' !in ids[k]
    {
      IntToStringHasNo(k, ',');
    }
    assert [','] == ",";
    SplitJoin(ids, ',');
    forall k | 0 <= k < n
      ensures ParseInt(ids[k]) == Some(k)
    {
      IntToStringRoundTrip(k);
    }
  }

  /** The GPU list holds no brace, so it is safe inside a format template. */
  lemma GpuListNoBraces(n: int)
    ensures NoBraces(GpuList(n))
  {
    var ids := GpuIds(n);
    forall k | 0 <= k < |ids|
      ensures '{' !in ids[k] && '}' !in ids[k]
    {
      IntToStringHasNo(k, '{');
      IntToStringHasNo(k, '}');
    }
    JoinFree(ids, ",", '{');
    JoinFree(ids, ",", '}');
  }
}
