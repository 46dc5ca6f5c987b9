/** Arity-aware application of closures and partial applications.  `call` stands for the compiled code: it takes the
    closure, exactly as many arguments as its arity, and the state its effects thread through. */
module Closures {
  import opened Wrappers

  /** The default branch of the call switch, for arities above 8, is outside this. */
  newtype Arity = x: int | 1 <= x <= 8 witness 1

  datatype Value =
    | Immediate(n: int)
    | Closure(arity: Arity, code: int, captures: seq<Value>)
    | Partial(orig: Value, args: seq<Value>)

  /** A partial application holds a closure, never another partial application, and fewer arguments than its arity. */
  predicate Ok(v: Value) {
    v.Partial? ==> v.orig.Closure? && |v.args| < v.orig.arity as int
  }

  type Code<!S> = (Value, seq<Value>, S) -> (Value, S)

  /** Compiled code returns values of the runtime. */
  ghost predicate CodeOk<S(!new)>(call: Code<S>) {
    forall f, xs, s :: Ok(call(f, xs, s).0)
  }

  /** How many more arguments may be consumed. */
  function Fuel(f: Value, n: nat): nat {
    if f.Closure? then (if n >= f.arity as int then n - f.arity as int + 1 else 0) else n
  }

  /** `__mdk_apply`; None is the application of a value that is no function. */
  function Apply<S(!new)>(call: Code<S>, f: Value, xs: seq<Value>, s: S): (r: Option<(Value, S)>)
    requires Ok(f) && CodeOk(call)
    ensures r.Some? ==> Ok(r.value.0)
    decreases Fuel(f, |xs|), f.Partial?
  {
    match f
    case Immediate(_) => None
    case Partial(orig, args) => Apply(call, orig, args + xs, s)
    case Closure(arity, _, _) =>
      var n := arity as int;
      if |xs| == n then Some(call(f, xs, s))
      else if |xs| < n then Some((Partial(f, xs), s))
      else
        var (g, t) := call(f, xs[..n], s);
        Apply(call, g, xs[n..], t)
  }

  /** What is left of an application: the same value applied to more arguments in the state it left. */
  function Then<S(!new)>(call: Code<S>, r: Option<(Value, S)>, ys: seq<Value>): Option<(Value, S)>
    requires CodeOk(call) && (r.Some? ==> Ok(r.value.0))
  {
    if r.None? then None else Apply(call, r.value.0, ys, r.value.1)
  }

  /** Applying to xs and then to ys is applying once to xs ++ ys, effects included: under-, exact and
      over-application. */
  lemma {:induction false} ApplySplits<S(!new)>(call: Code<S>, f: Value, xs: seq<Value>, ys: seq<Value>, s: S)
    requires Ok(f) && CodeOk(call) && |ys| >= 1
    ensures Apply(call, f, xs + ys, s) == Then(call, Apply(call, f, xs, s), ys)
    decreases Fuel(f, |xs| + |ys|), f.Partial?
  {
    match f
    case Immediate(_) =>
    case Partial(orig, args) =>
      assert args + (xs + ys) == (args + xs) + ys;
      ApplySplits(call, orig, args + xs, ys, s);
    case Closure(arity, _, _) =>
      var n := arity as int;
      if |xs| > n {
        var (g, t) := call(f, xs[..n], s);
        assert (xs + ys)[..n] == xs[..n] && (xs + ys)[n..] == xs[n..] + ys;
        ApplySplits(call, g, xs[n..], ys, t);
      } else if |xs| == n {
        assert (xs + ys)[..n] == xs && (xs + ys)[n..] == ys;
      }
  }

  function Flatten(groups: seq<seq<Value>>): seq<Value> {
    if groups == [] then [] else Flatten(groups[..|groups| - 1]) + groups[|groups| - 1]
  }

  /** One application after another, a group of arguments at a time. */
  function ApplyGroups<S(!new)>(call: Code<S>, f: Value, groups: seq<seq<Value>>, s: S): (r: Option<(Value, S)>)
    requires Ok(f) && CodeOk(call) && |groups| >= 1
    ensures r.Some? ==> Ok(r.value.0)
  {
    if |groups| == 1 then Apply(call, f, groups[0], s)
    else Then(call, ApplyGroups(call, f, groups[..|groups| - 1], s), groups[|groups| - 1])
  }

  /** However the arguments are grouped, the result and the effects are those of one application. */
  lemma {:induction false} GroupingIrrelevant<S(!new)>(call: Code<S>, f: Value, groups: seq<seq<Value>>, s: S)
    requires Ok(f) && CodeOk(call) && |groups| >= 1 && forall i :: 0 <= i < |groups| ==> |groups[i]| >= 1
    ensures ApplyGroups(call, f, groups, s) == Apply(call, f, Flatten(groups), s)
  {
    var n := |groups| - 1;
    if n == 0 {
      assert Flatten(groups) == [] + groups[0] == groups[0] by { assert groups[..0] == []; }
    } else {
      GroupingIrrelevant(call, f, groups[..n], s);
      ApplySplits(call, f, Flatten(groups[..n]), groups[n], s);
    }
  }

  /** Fewer arguments than the arity only build a partial application; the code has not run. */
  lemma UnderApplicationWaits<S(!new)>(call: Code<S>, f: Value, xs: seq<Value>, s: S)
    requires Ok(f) && CodeOk(call) && !f.Immediate?
    requires var orig := if f.Partial? then f.orig else f;
             |if f.Partial? then f.args else []| + |xs| < orig.arity as int
    ensures var (orig, args) := if f.Partial? then (f.orig, f.args) else (f, []);
            Apply(call, f, xs, s) == Some((Partial(orig, args + xs), s))
  {
    if f.Partial? {
      assert Apply(call, f, xs, s) == Apply(call, f.orig, f.args + xs, s);
    } else {
      assert [] + xs == xs;
    }
  }

  /** As many arguments as the arity, the captured ones first, in order: the code runs once and its result is the
      answer. */
  lemma ExactApplicationRuns<S(!new)>(call: Code<S>, f: Value, xs: seq<Value>, s: S)
    requires Ok(f) && CodeOk(call) && !f.Immediate?
    requires var orig := if f.Partial? then f.orig else f;
             |if f.Partial? then f.args else []| + |xs| == orig.arity as int
    ensures var (orig, args) := if f.Partial? then (f.orig, f.args) else (f, []);
            Apply(call, f, xs, s) == Some(call(orig, args + xs, s))
  {
    if f.Partial? {
      assert Apply(call, f, xs, s) == Apply(call, f.orig, f.args + xs, s);
    } else {
      assert [] + xs == xs;
    }
  }

  /** More: the code runs on the first arity-many, and its result is applied to the rest in the state it left. */
  lemma OverApplicationContinues<S(!new)>(call: Code<S>, f: Value, xs: seq<Value>, s: S)
    requires Ok(f) && CodeOk(call) && !f.Immediate?
    requires var orig := if f.Partial? then f.orig else f;
             |if f.Partial? then f.args else []| + |xs| > orig.arity as int
    ensures var (orig, args) := if f.Partial? then (f.orig, f.args) else (f, []);
            var n := orig.arity as int;
            var (g, t) := call(orig, (args + xs)[..n], s);
            Apply(call, f, xs, s) == Apply(call, g, (args + xs)[n..], t)
  {
    if f.Partial? {
      assert Apply(call, f, xs, s) == Apply(call, f.orig, f.args + xs, s);
    } else {
      assert [] + xs == xs;
    }
  }

  // ----- The same with argument buffers

  /** `mdk_make_pap`. */
  method MakePartial(f: Value, argv: array<Value>, off: nat, argc: nat) returns (v: Value)
    requires off + argc <= argv.Length
    ensures v == Partial(f, argv[off..off + argc])
  {
    var cell: seq<Value> := [];
    for i := 0 to argc
      invariant cell == argv[off..off + i]
    {
      cell := cell + [argv[off + i]];
    }
    return Partial(f, cell);
  }

  /** `__mdk_apply` on `argc` words at `argv + off`. */
  method ApplyWords<S(!new)>(call: Code<S>, f: Value, argv: array<Value>, off: nat, argc: nat, s: S)
    returns (r: Option<(Value, S)>)
    requires Ok(f) && CodeOk(call) && off + argc <= argv.Length
    ensures r == Apply(call, f, argv[off..off + argc], s)
    decreases Fuel(f, argc), f.Partial?
  {
    match f
    case Immediate(_) => return None;
    case Partial(orig, args) =>
      var buf := CopyArgs(args, argv, off, argc);
      assert buf[0..|args| + argc] == args + argv[off..off + argc];
      r := ApplyWords(call, orig, buf, 0, |args| + argc, s);
    case Closure(arity, _, _) =>
      var n := arity as int;
      if argc == n { return Some(call(f, argv[off..off + argc], s)); }
      if argc < n {
        var v := MakePartial(f, argv, off, argc);
        return Some((v, s));
      }
      assert argv[off..off + argc][..n] == argv[off..off + n]
             && argv[off..off + argc][n..] == argv[off + n..off + argc];
      var (g, t) := call(f, argv[off..off + n], s);
      r := ApplyWords(call, g, argv, off + n, argc - n, t);
  }

  /** The captured arguments, then the new ones. */
  method CopyArgs(args: seq<Value>, argv: array<Value>, off: nat, argc: nat) returns (buf: array<Value>)
    requires off + argc <= argv.Length
    ensures fresh(buf) && buf[..] == args + argv[off..off + argc]
  {
    buf := new Value[|args| + argc](_ => Immediate(0));
    for i := 0 to |args|
      invariant buf[..i] == args[..i]
    {
      buf[i] := args[i];
    }
    for i := 0 to argc
      invariant buf[..|args| + i] == args + argv[off..off + i]
    {
      buf[|args| + i] := argv[off + i];
    }
  }
}
