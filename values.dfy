/**
  The dynamically typed values that flow through the harness: what
  yaml.safe_load produces for a config file and what the builders put into
  dictionaries, with the few Python built-ins the harness applies to them
  (str(), truthiness, int(), dict.get and dict.update).
 */
module Values {
  import opened Wrappers
  import opened Strs

  /** A Python value. A float keeps its numeric value and the text str()
      prints for it, since the harness only ever prints floats it was given. */
  datatype Value =
    | Null
    | Bool(b: bool)
    | Int(i: int)
    | Float(r: real, text: string)
    | Str(s: string)
    | List(items: seq<Value>)
    | Dict(entries: map<string, Value>)

  /** A Python dict with string keys. */
  type Config = map<string, Value>

  /** Python 2's str(v); see `Repr` for the items of a list. A dict is
      printed as "{...}" (its key order is not modelled). */
  function Show(v: Value): (text: string)
    decreases v, 0
    ensures v.Str? ==> text == v.s
    ensures v.Int? ==> text == IntToString(v.i)
  {
    match v
    case Null => "None"
    case Bool(b) => if b then "True" else "False"
    case Int(i) => IntToString(i)
    case Float(_, text) => text
    case Str(s) => s
    case List(items) => "[" + Join(seq(|items|, k requires 0 <= k < |items| => Repr(items[k])), ", ") + "]"
    case Dict(_) => "{...}"
  }

  /** Python 2's repr(v): a string is quoted, everything else as str(). */
  function Repr(v: Value): (text: string)
    decreases v, 1
    ensures v.Str? ==> text == "'" + v.s + "'"
  {
    match v
    case Str(s) => "'" + s + "'"
    case List(items) => "[" + Join(seq(|items|, k requires 0 <= k < |items| => Repr(items[k])), ", ") + "]"
    case _ => Show(v)
  }

  /** Python truthiness: None, False, zero and empty containers are false. */
  predicate Truthy(v: Value) {
    match v
    case Null => false
    case Bool(b) => b
    case Int(i) => i != 0
    case Float(r, _) => r != 0.0
    case Str(s) => |s| > 0
    case List(items) => |items| > 0
    case Dict(entries) => |entries| > 0
  }

  /** Truncation toward zero, as Python's int() applies to a float. */
  function TruncReal(r: real): (n: int)
    ensures 0.0 <= r ==> n as real <= r < n as real + 1.0
    ensures r < 0.0 ==> n as real - 1.0 < r <= n as real
  {
    if r >= 0.0 then r.Floor else -((-r).Floor)
  }

  /** int(str(i)) == i for the ints the harness prints. */
  lemma ShowIntParses(i: int)
    ensures ParseInt(Show(Int(i))) == Some(i)
  {
    IntToStringRoundTrip(i);
  }

  /** Python's int(v): booleans count as 0/1, floats truncate, strings are
      parsed; None, lists and dicts raise TypeError. */
  function ToInt(v: Value): (r: Result<int>)
    ensures v.Int? ==> r == Success(v.i)
    ensures v.Str? ==> (r.Success? <==> ParseInt(v.s).Some?)
    ensures v.Null? || v.List? || v.Dict? ==> r.Failure?
  {
    match v
    case Null => Failure("TypeError: int() argument must be a string or a number")
    case Bool(b) => Success(if b then 1 else 0)
    case Int(i) => Success(i)
    case Float(r, _) => Success(TruncReal(r))
    case Str(s) =>
      (match ParseInt(s)
       case Some(n) => Success(n)
       case None => Failure("ValueError: invalid literal for int()"))
    case List(_) => Failure("TypeError: int() argument must be a string or a number")
    case Dict(_) => Failure("TypeError: int() argument must be a string or a number")
  }

  /** d[key]: KeyError when absent. */
  function Lookup(d: Config, key: string): (r: Result<Value>)
    ensures r.Success? <==> key in d
    ensures r.Success? ==> r.value == d[key]
  {
    if key in d then Success(d[key]) else Failure("KeyError: " + key)
  }

  /** Python's `key in v`: a key of a dict, a substring of a string, an
      item of a list; None and numbers are not iterable (TypeError). */
  function In(key: string, v: Value): (r: Result<bool>)
    ensures r.Failure? <==> !(v.Dict? || v.Str? || v.List?)
    ensures v.Dict? ==> r == Success(key in v.entries)
    ensures v.Str? ==> r == Success(Contains(v.s, key))
    ensures v.List? ==> r == Success(Str(key) in v.items)
  {
    match v
    case Dict(entries) => Success(key in entries)
    case Str(s) => Success(Contains(s, key))
    case List(items) => Success(Str(key) in items)
    case _ => Failure("TypeError: argument of type is not iterable")
  }

  /** d.get(key, default). */
  function GetOr(d: Config, key: string, default: Value): (v: Value)
    ensures key in d ==> v == d[key]
    ensures key !in d ==> v == default
  {
    if key in d then d[key] else default
  }

  /** d.copy() followed by d.update(u): the keys of both, the values of `u`
      where it has one. */
  function Update(d: Config, u: Config): (r: Config)
    ensures r.Keys == d.Keys + u.Keys
    ensures forall k :: k in u ==> r[k] == u[k]
    ensures forall k :: k in d && k !in u ==> r[k] == d[k]
  {
    d + u
  }

  /** Overlaying the same dictionary twice is overlaying it once. */
  lemma UpdateIdempotent(d: Config, u: Config)
    ensures Update(Update(d, u), u) == Update(d, u)
  {
  }

  /** A chain of updates applies the later dictionary last. */
  lemma UpdateAssociative(d: Config, u: Config, w: Config)
    ensures Update(Update(d, u), w) == Update(d, Update(u, w))
  {
  }

  /** The keys of `d` other than 'run_configs' (the list of test entries
      a suite file holds next to its shared settings). */
  function Settings(d: Config): (r: Config)
    ensures r.Keys == d.Keys - {"run_configs"}
    ensures forall k :: k in r ==> r[k] == d[k]
  {
    d - {"run_configs"}
  }

  /** `r` is `dst` with the settings among `done` copied over it. */
  ghost predicate OverlaidWith(dst: Config, src: Config, done: set<string>, r: Config) {
    && done <= src.Keys
    && r.Keys == dst.Keys + (done - {"run_configs"})
    && forall k :: k in r ==> r[k] == if k in done && k != "run_configs" then src[k] else dst[k]
  }

  /** Copying one more setting (or skipping 'run_configs') keeps the loop's
      invariant. */
  lemma OverlayStep(dst: Config, src: Config, done: set<string>, r: Config, k: string)
    requires k in src && OverlaidWith(dst, src, done, r)
    ensures OverlaidWith(dst, src, done + {k}, if k != "run_configs" then r[k := src[k]] else r)
  {
    var done' := done + {k};
    if k != "run_configs" {
      var r' := r[k := src[k]];
      assert done' - {"run_configs"} == (done - {"run_configs"}) + {k};
      forall j | j in r'
        ensures r'[j] == if j in done' && j != "run_configs" then src[j] else dst[j]
      {
        if j != k {
          assert r'[j] == r[j];
        }
      }
    } else {
      assert done' - {"run_configs"} == done - {"run_configs"};
    }
  }

  /** Before the loop nothing is copied. */
  lemma OverlayStart(dst: Config, src: Config)
    ensures OverlaidWith(dst, src, {}, dst)
  {
    assert {} - {"run_configs"} == {};
  }

  /** With every setting copied, the result is the overlay. */
  lemma OverlayComplete(dst: Config, src: Config, r: Config)
    requires OverlaidWith(dst, src, src.Keys, r)
    ensures r == Update(dst, Settings(src))
  {
    var want := Update(dst, Settings(src));
    assert r.Keys == want.Keys;
    assert forall k :: k in r ==> r[k] == want[k];
  }

  /** `for k, v in src.iteritems(): if k != 'run_configs': dst[k] = v`,
      the loop both the suite loader and the test runner use to lay shared
      settings over a test config. */
  method OverlaySettings(dst: Config, src: Config) returns (r: Config)
    ensures r == Update(dst, Settings(src))
  {
    r := dst;
    var todo := src.Keys;
    ghost var done := {};
    OverlayStart(dst, src);
    while todo != {}
      invariant done !! todo && done + todo == src.Keys
      invariant OverlaidWith(dst, src, done, r)
      decreases |todo|
    {
      var k :| k in todo;
      OverlayStep(dst, src, done, r, k);
      if k != "run_configs" {
        r := r[k := src[k]];
      }
      todo := todo - {k};
      done := done + {k};
    }
    assert done == src.Keys;
    OverlayComplete(dst, src, r);
  }

  // ------------------------------------------------------------ str.format

  /** `p` prepended to a formatted text, failures passed on. */
  function Prepend(p: string, r: Result<string>): (q: Result<string>)
    ensures q.Success? <==> r.Success?
    ensures q.Success? ==> q.value == p + r.value
  {
    if r.Success? then Success(p + r.value) else r
  }

  predicate NoBraces(s: string) {
    '{' !in s && '}' !in s
  }

  /** Python's `template.format(fill)` with a single argument: `{}` takes
      the argument (a second `{}` raises IndexError), `{{` and `}}` are
      literal braces, and a lone `}` raises ValueError. A named or numbered
      field is reported as a failure. */
  function FormatOne(template: string, fill: string, used: bool): Result<string>
    decreases |template|
  {
    if |template| == 0 then Success("")
    else if template[0] == '{' then
      if |template| >= 2 && template[1] == '{' then Prepend("{", FormatOne(template[2..], fill, used))
      else if |template| >= 2 && template[1] == '}' then
        if used then Failure("IndexError: tuple index out of range")
        else Prepend(fill, FormatOne(template[2..], fill, true))
      else Failure("ValueError: format field not modelled")
    else if template[0] == '}' then
      if |template| >= 2 && template[1] == '}' then Prepend("}", FormatOne(template[2..], fill, used))
      else Failure("ValueError: Single '}' encountered in format string")
    else Prepend([template[0]], FormatOne(template[1..], fill, used))
  }

  /** A template without braces formats to itself. */
  lemma {:induction false} FormatPlain(t: string, fill: string, used: bool)
    requires NoBraces(t)
    ensures FormatOne(t, fill, used) == Success(t)
  {
    if |t| > 0 {
      assert t == [t[0]] + t[1..];
      FormatPlain(t[1..], fill, used);
    }
  }

  /** A character other than a brace is copied. */
  lemma FormatPlainChar(c: char, rest: string, fill: string, used: bool)
    requires c != '{' && c != '}'
    ensures FormatOne([c] + rest, fill, used) == Prepend([c], FormatOne(rest, fill, used))
  {
    assert ([c] + rest)[1..] == rest;
  }

  /** A leading `{}` takes the argument. */
  lemma FormatLeadingHole(b: string, fill: string)
    requires NoBraces(b)
    ensures FormatOne("{}" + b, fill, false) == Success(fill + b)
  {
    var t := "{}" + b;
    assert t[0] == '{' && t[1] == '}' && t[2..] == b;
    FormatPlain(b, fill, true);
  }

  /** A template with one `{}` and no other brace has the argument put in
      place of the `{}`. */
  lemma {:induction false} FormatOneHole(a: string, b: string, fill: string)
    requires NoBraces(a) && NoBraces(b)
    ensures FormatOne(a + "{}" + b, fill, false) == Success(a + fill + b)
  {
    if |a| == 0 {
      assert a + "{}" + b == "{}" + b && a + fill + b == fill + b;
      FormatLeadingHole(b, fill);
    } else {
      var rest := a[1..] + "{}" + b;
      assert a + "{}" + b == [a[0]] + rest;
      assert a[0] in a;
      FormatPlainChar(a[0], rest, fill, false);
      FormatOneHole(a[1..], b, fill);
      assert a + fill + b == [a[0]] + (a[1..] + fill + b);
    }
  }
}
