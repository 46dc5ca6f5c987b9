/** The inputs of a launch: the size check, the copy into the slot's arena, and the direct path that allocates instead.
    Strings are byte sequences; a C string is one without NUL, stored with a NUL after it. */
module LaunchInputs {
  import opened Wrappers
  import opened Utf8

  type Bytes = seq<Byte>

  datatype Pair = Pair(key: Bytes, value: Bytes)

  datatype Options = Options(program: Bytes, argv: seq<Bytes>, cwd: Bytes, env: seq<Pair>, modes: (int, int, int))

  /** What the child is started with. */
  datatype Spec = Spec(program: Bytes, cwd: Bytes, argv: seq<Bytes>, env: seq<Bytes>)

  const ARENA: nat := 65536
  const LIMIT: nat := 256
  const SLASH: Byte := 0x2F
  const EQUALS: Byte := 0x3D

  // ----- What is accepted

  predicate NoNul(s: Bytes) {
    0 !in s
  }

  predicate Absolute(s: Bytes) {
    |s| > 0 && s[0] == SLASH && NoNul(s)
  }

  predicate ModesOk(m: (int, int, int)) {
    (m.0 == 1 || m.0 == 3) && (m.1 == 1 || m.1 == 3) && (m.2 == 1 || m.2 == 3)
  }

  /** The options without regard to size or keys. */
  predicate PlainOk(o: Options) {
    && ModesOk(o.modes) && Absolute(o.program) && Absolute(o.cwd)
    && (forall i :: 0 <= i < |o.argv| ==> NoNul(o.argv[i]))
    && (forall i :: 0 <= i < |o.env| ==> NoNul(o.env[i].key) && NoNul(o.env[i].value))
  }

  predicate KeyOk(env: seq<Pair>, i: nat)
    requires i < |env|
  {
    |env[i].key| > 0 && EQUALS !in env[i].key && forall j :: 0 <= j < i ==> env[j].key != env[i].key
  }

  /** Keys are not empty, contain no '=', and are all different. */
  predicate KeysOk(env: seq<Pair>) {
    forall i :: 0 <= i < |env| ==> KeyOk(env, i)
  }

  /** The bytes a string takes with its terminator. */
  function Size(s: Bytes): nat {
    |s| + 1
  }

  function ArgvSize(argv: seq<Bytes>): nat {
    if argv == [] then 0 else ArgvSize(argv[..|argv| - 1]) + Size(argv[|argv| - 1])
  }

  function EnvSize(env: seq<Pair>): nat {
    if env == [] then 0 else EnvSize(env[..|env| - 1]) + Size(env[|env| - 1].key) + Size(env[|env| - 1].value)
  }

  function TotalSize(o: Options): nat {
    Size(o.program) + Size(o.cwd) + ArgvSize(o.argv) + EnvSize(o.env)
  }

  predicate Fits(o: Options) {
    TotalSize(o) <= ARENA && |o.argv| <= LIMIT && |o.env| <= LIMIT
  }

  function Entry(p: Pair): Bytes {
    p.key + [EQUALS] + p.value
  }

  function SpecOf(o: Options): Spec {
    Spec(o.program, o.cwd, [o.program] + o.argv, seq(|o.env|, i requires 0 <= i < |o.env| => Entry(o.env[i])))
  }

  // ----- The size check

  lemma {:induction false} SizePrefix(argv: seq<Bytes>, env: seq<Pair>, i: nat, j: nat)
    requires i <= |argv| && j <= |env|
    ensures ArgvSize(argv[..i]) <= ArgvSize(argv) && EnvSize(env[..j]) <= EnvSize(env)
    decreases |argv| + |env|
  {
    if i < |argv| {
      SizePrefix(argv[..|argv| - 1], env, i, j);
      assert argv[..|argv| - 1][..i] == argv[..i];
    } else if j < |env| {
      SizePrefix(argv, env[..|env| - 1], i, j);
      assert env[..|env| - 1][..j] == env[..j];
    } else {
      assert argv[..i] == argv && env[..j] == env;
    }
  }

  lemma ArgvStep(argv: seq<Bytes>, i: nat)
    requires i < |argv|
    ensures ArgvSize(argv[..i + 1]) == ArgvSize(argv[..i]) + Size(argv[i]) <= ArgvSize(argv)
  {
    assert argv[..i + 1][..i] == argv[..i];
    SizePrefix(argv, [], i + 1, 0);
  }

  lemma EnvStep(env: seq<Pair>, i: nat)
    requires i < |env|
    ensures EnvSize(env[..i + 1]) == EnvSize(env[..i]) + Size(env[i].key) + Size(env[i].value) <= EnvSize(env)
  {
    assert env[..i + 1][..i] == env[..i];
    SizePrefix([], env, 0, i + 1);
  }

  /** Every string counts with its terminator. */
  lemma SizesAdd(argv: seq<Bytes>, s: Bytes, env: seq<Pair>, p: Pair)
    ensures ArgvSize([]) == 0 && ArgvSize(argv + [s]) == ArgvSize(argv) + |s| + 1
    ensures EnvSize([]) == 0 && EnvSize(env + [p]) == EnvSize(env) + |p.key| + 1 + |p.value| + 1
  {
    assert (argv + [s])[..|argv|] == argv && (env + [p])[..|env|] == env;
  }

  /** `bounded_string`: the string and its terminator come off the budget. */
  method BoundedString(s: Bytes, remaining: nat, absolute: bool) returns (ok: bool, left: nat)
    ensures ok <==> Size(s) <= remaining && NoNul(s) && (absolute ==> Absolute(s))
    ensures ok ==> left == remaining - Size(s)
  {
    if |s| >= remaining { return false, 0; }
    if (absolute && (|s| == 0 || s[0] != SLASH)) || 0 in s { return false, 0; }
    return true, remaining - (|s| + 1);
  }

  method BoundedArgv(argv: seq<Bytes>, remaining: nat) returns (ok: bool, left: nat)
    ensures ok <==> |argv| <= LIMIT && (forall k :: 0 <= k < |argv| ==> NoNul(argv[k])) && ArgvSize(argv) <= remaining
    ensures ok ==> left == remaining - ArgvSize(argv)
  {
    ok, left := true, remaining;
    for i := 0 to |argv|
      invariant ok && i <= LIMIT && left + ArgvSize(argv[..i]) == remaining
      invariant forall k :: 0 <= k < i ==> NoNul(argv[k])
    {
      if i + 1 > LIMIT { return false, 0; }
      ArgvStep(argv, i);
      ok, left := BoundedString(argv[i], left, false);
      if !ok { return; }
    }
    assert argv[..|argv|] == argv;
  }

  method BoundedEnv(env: seq<Pair>, remaining: nat) returns (ok: bool, left: nat)
    ensures ok <==>
              |env| <= LIMIT && (forall k :: 0 <= k < |env| ==> NoNul(env[k].key) && NoNul(env[k].value))
              && EnvSize(env) <= remaining
    ensures ok ==> left == remaining - EnvSize(env)
  {
    ok, left := true, remaining;
    for i := 0 to |env|
      invariant ok && i <= LIMIT && left + EnvSize(env[..i]) == remaining
      invariant forall k :: 0 <= k < i ==> NoNul(env[k].key) && NoNul(env[k].value)
    {
      if i + 1 > LIMIT { return false, 0; }
      EnvStep(env, i);
      ok, left := BoundedString(env[i].key, left, false);
      if !ok { return; }
      ok, left := BoundedString(env[i].value, left, false);
      if !ok { return; }
    }
    assert env[..|env|] == env;
  }

  /** `bounded_inputs` accepts exactly the options that are plain and fit, whatever order it finds out in. */
  method BoundedInputs(o: Options) returns (ok: bool)
    ensures ok <==> PlainOk(o) && Fits(o)
    ensures ok <==>
              && o.modes.0 in {1, 3} && o.modes.1 in {1, 3} && o.modes.2 in {1, 3}
              && |o.program| > 0 && o.program[0] == 0x2F && 0 !in o.program
              && |o.cwd| > 0 && o.cwd[0] == 0x2F && 0 !in o.cwd
              && (forall i :: 0 <= i < |o.argv| ==> 0 !in o.argv[i])
              && (forall i :: 0 <= i < |o.env| ==> 0 !in o.env[i].key && 0 !in o.env[i].value)
              && |o.argv| <= 256 && |o.env| <= 256
              && |o.program| + 1 + |o.cwd| + 1 + ArgvSize(o.argv) + EnvSize(o.env) <= 65536
  {
    hide ArgvSize, EnvSize;
    if !ModesOk(o.modes) { return false; }
    var remaining: nat;
    ok, remaining := BoundedString(o.program, ARENA, true);
    if !ok { return; }
    ok, remaining := BoundedString(o.cwd, remaining, true);
    if !ok { return; }
    ok, remaining := BoundedArgv(o.argv, remaining);
    if !ok { return; }
    ok, remaining := BoundedEnv(o.env, remaining);
  }

  // ----- Strings in memory

  /** A C string at `off`. */
  ghost predicate Stored(a: Bytes, off: int, s: Bytes) {
    0 <= off && off + |s| < |a| && a[off..off + |s|] == s && a[off + |s|] == 0
  }

  lemma StoredKept(a: Bytes, b: Bytes, off: int, s: Bytes, cursor: nat)
    requires Stored(a, off, s) && off + |s| < cursor <= |a| == |b| && a[..cursor] == b[..cursor]
    ensures Stored(b, off, s)
  {
    assert b[off..off + |s|] == b[..cursor][off..off + |s|];
    assert b[off + |s|] == b[..cursor][off + |s|];
  }

  lemma StoredChars(a: Bytes, off: int, s: Bytes)
    requires Stored(a, off, s)
    ensures forall k :: 0 <= k < |s| ==> a[off + k] == s[k]
  {
    forall k | 0 <= k < |s| ensures a[off + k] == s[k] {
      assert a[off..off + |s|][k] == a[off + k];
    }
  }

  method SnapshotString(arena: array<Byte>, cursor: nat, s: Bytes) returns (next: nat)
    requires cursor + Size(s) <= arena.Length
    modifies arena
    ensures next == cursor + Size(s) && Stored(arena[..], cursor, s)
    ensures arena[..cursor] == old(arena[..cursor])
  {
    for i := 0 to |s|
      invariant arena[cursor..cursor + i] == s[..i]
      invariant arena[..cursor] == old(arena[..cursor])
    {
      arena[cursor + i] := s[i];
      assert arena[cursor..cursor + i + 1] == arena[cursor..cursor + i] + [s[i]];
    }
    arena[cursor + |s|] := 0;
    assert arena[cursor..cursor + |s|] == s[..|s|] == s;
    next := cursor + |s| + 1;
  }

  /** `strlen`. */
  method StrLen(arena: array<Byte>, off: nat, ghost s: Bytes) returns (n: nat)
    requires Stored(arena[..], off, s) && NoNul(s)
    ensures n == |s|
  {
    n := 0;
    StoredChars(arena[..], off, s);
    while arena[off + n] != 0
      invariant n <= |s|
      decreases |s| - n
    {
      n := n + 1;
    }
  }

  /** `strchr(key, '=')`. */
  method HasEquals(arena: array<Byte>, off: nat, ghost s: Bytes) returns (found: bool)
    requires Stored(arena[..], off, s) && NoNul(s)
    ensures found <==> EQUALS in s
  {
    var n := 0;
    StoredChars(arena[..], off, s);
    while arena[off + n] != 0
      invariant n <= |s| && EQUALS !in s[..n]
      decreases |s| - n
    {
      if arena[off + n] == EQUALS { return true; }
      n := n + 1;
    }
    return false;
  }

  /** `strncmp(x, key, |key|) == 0 && x[|key|] == '='`, on an entry at `off` and a key at `keyOff`. */
  method StartsWithKey(arena: array<Byte>, off: nat, keyOff: nat, n: nat, ghost s: Bytes, ghost key: Bytes)
    returns (r: bool)
    requires Stored(arena[..], off, s) && NoNul(s) && Stored(arena[..], keyOff, key) && NoNul(key) && n == |key|
    ensures r <==> |s| > n && s[..n] == key && s[n] == EQUALS
  {
    StoredChars(arena[..], off, s);
    StoredChars(arena[..], keyOff, key);
    for i := 0 to n
      invariant i <= |s| && s[..i] == key[..i]
    {
      if arena[off + i] != arena[keyOff + i] { return false; }
      assert i < |s|;
    }
    return arena[off + n] == EQUALS;
  }

  /** The prefix test tells exactly whether the entry has this key. */
  lemma PrefixIsKey(p: Pair, key: Bytes)
    requires EQUALS !in key && EQUALS !in p.key
    ensures var e, n := Entry(p), |key|; (|e| > n && e[..n] == key && e[n] == EQUALS) <==> p.key == key
  {
    var e, n := Entry(p), |key|;
    assert e[|p.key|] == EQUALS && forall k :: 0 <= k < |p.key| ==> e[k] == p.key[k];
    assert p.key == key ==> e[..n] == key;
    if |e| > n && e[..n] == key && e[n] == EQUALS {
      assert forall k :: 0 <= k < n ==> e[..n][k] == e[k];
      assert |p.key| == n;
      assert p.key == e[..n];
    }
  }

  /** With no '=' in the keys, key=value says exactly which key and which value. */
  lemma EntryInjective(p: Pair, q: Pair)
    requires EQUALS !in p.key && EQUALS !in q.key && Entry(p) == Entry(q)
    ensures p == q
  {
    var e := Entry(p);
    assert e[|p.key|] == EQUALS == e[|q.key|];
    assert forall k :: 0 <= k < |p.key| ==> e[k] == p.key[k];
    assert forall k :: 0 <= k < |q.key| ==> e[k] == q.key[k];
    assert |p.key| == |q.key|;
    assert p.key == e[..|p.key|] == q.key && p.value == e[|p.key| + 1..] == q.value;
  }

  // ----- The copy into the arena

  ghost predicate ArgvStored(a: Bytes, argv: seq<Bytes>, at: seq<int>, top: nat) {
    |argv| < |at| && forall i :: 0 <= i < |argv| ==> Stored(a, at[i + 1], argv[i]) && at[i + 1] + |argv[i]| < top
  }

  ghost predicate EnvStored(a: Bytes, env: seq<Pair>, at: seq<int>, top: nat) {
    |env| <= |at| && forall i :: 0 <= i < |env| ==> Stored(a, at[i], Entry(env[i])) && at[i] + |Entry(env[i])| < top
  }

  lemma ArgvKept(a: Bytes, b: Bytes, argv: seq<Bytes>, at: seq<int>, bt: seq<int>, top: nat)
    requires ArgvStored(a, argv, at, top) && top <= |a| == |b| && a[..top] == b[..top]
    requires |bt| == |at| && forall i :: 1 <= i <= |argv| ==> bt[i] == at[i]
    ensures ArgvStored(b, argv, bt, top)
  {
    forall i | 0 <= i < |argv| ensures Stored(b, bt[i + 1], argv[i]) && bt[i + 1] + |argv[i]| < top {
      StoredKept(a, b, at[i + 1], argv[i], top);
    }
  }

  lemma EnvKept(a: Bytes, b: Bytes, env: seq<Pair>, at: seq<int>, bt: seq<int>, top: nat)
    requires EnvStored(a, env, at, top) && top <= |a| == |b| && a[..top] == b[..top]
    requires |bt| == |at| && forall i :: 0 <= i < |env| ==> bt[i] == at[i]
    ensures EnvStored(b, env, bt, top)
  {
    forall i | 0 <= i < |env| ensures Stored(b, bt[i], Entry(env[i])) && bt[i] + |Entry(env[i])| < top {
      StoredKept(a, b, at[i], Entry(env[i]), top);
    }
  }

  method SnapshotArgv(list: seq<Bytes>, arena: array<Byte>, argv: array<int>, start: nat) returns (cursor: nat)
    requires start + ArgvSize(list) <= arena.Length && |list| <= LIMIT && argv.Length == LIMIT + 2
             && (arena as object) != argv
    modifies arena, argv
    ensures cursor == start + ArgvSize(list) && arena[..start] == old(arena[..start]) && argv[0] == old(argv[0])
    ensures ArgvStored(arena[..], list, argv[..], cursor) && argv[|list| + 1] == -1
  {
    hide ArgvSize, Stored;
    cursor := start;
    assert list[..0] == [];
    NoArgv();
    for i := 0 to |list|
      invariant cursor == start + ArgvSize(list[..i]) <= arena.Length
      invariant arena[..start] == old(arena[..start]) && argv[0] == old(argv[0])
      invariant ArgvStored(arena[..], list[..i], argv[..], cursor)
    {
      ArgvStep(list, i);
      ghost var a, at, top := arena[..], argv[..], cursor;
      var next := SnapshotString(arena, cursor, list[i]);
      argv[i + 1] := cursor;
      cursor := next;
      ArgvKept(a, arena[..], list[..i], at, argv[..], top);
      assert arena[..start] == arena[..top][..start];
      ArgvSnoc(arena[..], list[..i], list[i], argv[..], top, cursor);
      assert list[..i + 1] == list[..i] + [list[i]];
    }
    assert list[..|list|] == list;
    ghost var at := argv[..];
    argv[|list| + 1] := -1;
    ArgvKept(arena[..], arena[..], list, at, argv[..], cursor);
  }

  lemma NoArgv()
    ensures ArgvSize([]) == 0
  {}

  lemma ArgvSnoc(a: Bytes, argv: seq<Bytes>, s: Bytes, at: seq<int>, top: nat, top2: nat)
    requires ArgvStored(a, argv, at, top) && |argv| + 1 < |at|
    requires Stored(a, at[|argv| + 1], s) && at[|argv| + 1] + |s| < top2 && top <= top2
    ensures ArgvStored(a, argv + [s], at, top2)
  {
    hide Stored;
  }

  lemma EnvSnoc(a: Bytes, env: seq<Pair>, p: Pair, at: seq<int>, top: nat, top2: nat)
    requires EnvStored(a, env, at, top) && |env| < |at|
    requires Stored(a, at[|env|], Entry(p)) && at[|env|] + |Entry(p)| < top2 && top <= top2
    ensures EnvStored(a, env + [p], at, top2)
  {
    hide Stored;
  }

  /** A key, its terminator overwritten by '=', and the value after it: one string. */
  lemma EntryJoins(a: Bytes, off: nat, p: Pair)
    requires off + |p.key| + 1 <= |a| && a[off..off + |p.key|] == p.key && a[off + |p.key|] == EQUALS
    requires Stored(a, off + |p.key| + 1, p.value)
    ensures Stored(a, off, Entry(p))
  {
    var k, e := off + |p.key|, off + |p.key| + 1 + |p.value|;
    assert a[off..e] == a[off..k] + [a[k]] + a[k + 1..e];
  }

  lemma KeysSoFar(env: seq<Pair>, i: nat)
    requires i < |env| && KeysOk(env[..i]) && KeyOk(env, i)
    ensures KeysOk(env[..i + 1])
  {
    var keys := env[..i + 1];
    forall k | 0 <= k < |keys| ensures KeyOk(keys, k) {
      if k < i { assert KeyOk(env[..i], k); }
    }
  }

  /** Whether an entry before `i` starts with the key just copied to `at`. */
  method Repeated(list: seq<Pair>, i: nat, arena: array<Byte>, env: array<int>, at: nat, n: nat, ghost top: nat)
    returns (r: bool)
    requires i < |list| <= env.Length && EnvStored(arena[..], list[..i], env[..], top) && KeysOk(list[..i])
    requires forall j :: 0 <= j < i ==> NoNul(list[j].key) && NoNul(list[j].value)
    requires Stored(arena[..], at, list[i].key) && n == |list[i].key| && NoNul(list[i].key) && EQUALS !in list[i].key
    ensures r <==> exists j :: 0 <= j < i && list[j].key == list[i].key
  {
    for j := 0 to i
      invariant forall k :: 0 <= k < j ==> list[k].key != list[i].key
    {
      assert KeyOk(list[..i], j);
      PrefixIsKey(list[j], list[i].key);
      assert Stored(arena[..], env[j], Entry(list[..i][j]));
      var same := StartsWithKey(arena, env[j], at, n, Entry(list[j]), list[i].key);
      if same { return true; }
    }
    return false;
  }

  /** The value after the key, the key's terminator turned into '='. */
  method JoinValue(arena: array<Byte>, at: nat, n: nat, p: Pair) returns (next: nat)
    requires n == |p.key| && Stored(arena[..], at, p.key) && at + Size(p.key) + Size(p.value) <= arena.Length
    modifies arena
    ensures next == at + Size(p.key) + Size(p.value) && Stored(arena[..], at, Entry(p))
            && arena[..at] == old(arena[..at])
  {
    arena[at + n] := EQUALS;
    ghost var a := arena[..];
    next := SnapshotString(arena, at + n + 1, p.value);
    assert arena[..at + n + 1] == a[..at + n + 1];
    assert arena[..][at..at + n] == arena[..at + n + 1][at..] [..n] == a[..at + n + 1][at..][..n] == p.key;
    assert arena[at + n] == arena[..at + n + 1][at + n];
    assert arena[..at] == arena[..at + n + 1][..at];
    EntryJoins(arena[..], at, p);
  }

  method SnapshotEntry(list: seq<Pair>, i: nat, arena: array<Byte>, env: array<int>, cursor: nat)
    returns (ok: bool, next: nat)
    requires i < |list| < env.Length && (arena as object) != env
    requires forall j :: 0 <= j <= i ==> NoNul(list[j].key) && NoNul(list[j].value)
    requires EnvStored(arena[..], list[..i], env[..], cursor) && KeysOk(list[..i])
    requires cursor + Size(list[i].key) + Size(list[i].value) <= arena.Length
    modifies arena, env
    ensures ok <==> KeyOk(list, i)
    ensures ok ==> next == cursor + Size(list[i].key) + Size(list[i].value) && arena[..cursor] == old(arena[..cursor])
    ensures ok ==> EnvStored(arena[..], list[..i + 1], env[..], next)
  {
    hide Stored;
    var p := list[i];
    ghost var a, at := arena[..], env[..];
    next := SnapshotString(arena, cursor, p.key);
    var n := StrLen(arena, cursor, p.key);
    var has := HasEquals(arena, cursor, p.key);
    if n == 0 || has { return false, next; }
    EnvKept(a, arena[..], list[..i], at, env[..], cursor);
    var again := Repeated(list, i, arena, env, cursor, n, cursor);
    if again { return false, next; }
    next := JoinValue(arena, cursor, n, p);
    env[i] := cursor;
    EnvKept(a, arena[..], list[..i], at, env[..], cursor);
    EnvSnoc(arena[..], list[..i], p, env[..], cursor, next);
    assert list[..i] + [p] == list[..i + 1];
    return true, next;
  }

  method SnapshotEnv(list: seq<Pair>, arena: array<Byte>, env: array<int>, start: nat)
    returns (ok: bool, ghost end: nat)
    requires start + EnvSize(list) <= arena.Length && |list| <= LIMIT && env.Length == LIMIT + 1
             && (arena as object) != env
    requires forall j :: 0 <= j < |list| ==> NoNul(list[j].key) && NoNul(list[j].value)
    modifies arena, env
    ensures ok <==> KeysOk(list)
    ensures ok ==>
              arena[..start] == old(arena[..start]) && EnvStored(arena[..], list, env[..], end) && env[|list|] == -1
  {
    hide EnvSize, Stored, KeyOk;
    var cursor := start;
    end := start;
    NoEnv();
    assert list[..0] == [];
    for i := 0 to |list|
      invariant cursor == start + EnvSize(list[..i]) <= arena.Length
      invariant arena[..start] == old(arena[..start])
      invariant EnvStored(arena[..], list[..i], env[..], cursor) && KeysOk(list[..i])
    {
      EnvStep(list, i);
      ghost var top := cursor;
      ghost var a := arena[..];
      ok, cursor := SnapshotEntry(list, i, arena, env, cursor);
      if !ok { return; }
      assert arena[..start] == arena[..top][..start];
      KeysSoFar(list, i);
    }
    assert list[..|list|] == list;
    ghost var at := env[..];
    env[|list|] := -1;
    EnvKept(arena[..], arena[..], list, at, env[..], cursor);
    return true, cursor;
  }

  lemma NoEnv()
    ensures EnvSize([]) == 0
  {}

  lemma KeysAre(env: seq<Pair>)
    ensures KeysOk(env) <==> forall i :: 0 <= i < |env| ==>
              && |env[i].key| > 0 && 0x3D !in env[i].key
              && forall j :: 0 <= j < i ==> env[j].key != env[i].key
  {
    if KeysOk(env) {
      forall i | 0 <= i < |env|
        ensures |env[i].key| > 0 && 0x3D !in env[i].key && forall j :: 0 <= j < i ==> env[j].key != env[i].key
      {
        assert KeyOk(env, i);
      }
    }
  }

  /** `snapshot_submission`: what the size check let through is copied without leaving the arena or the two tables, and
      is refused exactly when a key is empty, contains '=' or repeats an earlier one. */
  method Snapshot(o: Options, arena: array<Byte>, argv: array<int>, env: array<int>)
    returns (ok: bool, program: int, cwd: int)
    requires PlainOk(o) && Fits(o)
    requires arena.Length == ARENA && argv.Length == LIMIT + 2 && env.Length == LIMIT + 1
    requires argv != env && (arena as object) != argv && (arena as object) != env
    modifies arena, argv, env
    ensures ok <==> KeysOk(o.env)
    ensures ok <==> forall i :: 0 <= i < |o.env| ==>
              && |o.env[i].key| > 0 && 0x3D !in o.env[i].key
              && forall j :: 0 <= j < i ==> o.env[j].key != o.env[i].key
    ensures ok ==> InMemory(SpecOf(o), arena[..], program, cwd, argv[..], env[..])
  {
    KeysAre(o.env);
    hide ArgvSize, EnvSize, Stored, KeyOk, KeysOk;
    program := 0;
    var cursor := SnapshotString(arena, 0, o.program);
    cwd := cursor;
    ghost var a := arena[..];
    cursor := SnapshotString(arena, cursor, o.cwd);
    StoredKept(a, arena[..], program, o.program, cwd);
    argv[0] := program;
    ghost var top := cursor;
    a := arena[..];
    cursor := SnapshotArgv(o.argv, arena, argv, cursor);
    StoredKept(a, arena[..], program, o.program, top);
    StoredKept(a, arena[..], cwd, o.cwd, top);
    top := cursor;
    a := arena[..];
    ghost var at := argv[..];
    ghost var end;
    ok, end := SnapshotEnv(o.env, arena, env, cursor);
    if ok {
      StoredKept(a, arena[..], program, o.program, top);
      StoredKept(a, arena[..], cwd, o.cwd, top);
      ArgvKept(a, arena[..], o.argv, at, argv[..], top);
      Assembled(o, arena[..], program, cwd, argv[..], env[..], top, end);
    }
  }

  /** The child's program, directory, argument and environment strings, each table ending in NULL. */
  ghost predicate InMemory(s: Spec, a: Bytes, program: int, cwd: int, argv: seq<int>, env: seq<int>) {
    && Stored(a, program, s.program) && Stored(a, cwd, s.cwd)
    && |s.argv| < |argv| && (forall i :: 0 <= i < |s.argv| ==> Stored(a, argv[i], s.argv[i])) && argv[|s.argv|] == -1
    && |s.env| < |env| && (forall i :: 0 <= i < |s.env| ==> Stored(a, env[i], s.env[i])) && env[|s.env|] == -1
  }

  lemma Assembled(o: Options, a: Bytes, program: int, cwd: int, argv: seq<int>, env: seq<int>, top: nat, end: nat)
    requires Stored(a, program, o.program) && Stored(a, cwd, o.cwd)
    requires ArgvStored(a, o.argv, argv, top) && EnvStored(a, o.env, env, end)
    requires |o.argv| + 1 < |argv| && |o.env| < |env| && argv[0] == program && argv[|o.argv| + 1] == -1
             && env[|o.env|] == -1
    ensures InMemory(SpecOf(o), a, program, cwd, argv, env)
  {
    hide Stored;
  }

  // ----- The direct path

  /** `fill_spec` accepts, at any size, exactly the plain options whose keys are in order. */
  method FillSpec(o: Options) returns (spec: Option<Spec>)
    ensures spec == if PlainOk(o) && KeysOk(o.env) then Some(SpecOf(o)) else None
    ensures spec.Some? ==>
              && spec.value.program == o.program && spec.value.cwd == o.cwd && spec.value.argv == [o.program] + o.argv
              && |spec.value.env| == |o.env|
              && forall i :: 0 <= i < |o.env| ==> spec.value.env[i] == o.env[i].key + [0x3D] + o.env[i].value
    ensures spec.Some? <==>
              && o.modes.0 in {1, 3} && o.modes.1 in {1, 3} && o.modes.2 in {1, 3}
              && |o.program| > 0 && o.program[0] == 0x2F && 0 !in o.program
              && |o.cwd| > 0 && o.cwd[0] == 0x2F && 0 !in o.cwd
              && (forall i :: 0 <= i < |o.argv| ==> 0 !in o.argv[i])
              && forall i :: 0 <= i < |o.env| ==>
                   && 0 !in o.env[i].key && 0 !in o.env[i].value && |o.env[i].key| > 0 && 0x3D !in o.env[i].key
                   && forall j :: 0 <= j < i ==> o.env[j].key != o.env[i].key
  {
    if !ModesOk(o.modes) { return None; }
    if !NoNul(o.program) || !NoNul(o.cwd) || !Absolute(o.program) || !Absolute(o.cwd) { return None; }
    var argv := [o.program];
    for i := 0 to |o.argv|
      invariant argv == [o.program] + o.argv[..i]
      invariant forall k :: 0 <= k < i ==> NoNul(o.argv[k])
    {
      if !NoNul(o.argv[i]) { return None; }
      argv := argv + [o.argv[i]];
    }
    var env: seq<Bytes> := [];
    for i := 0 to |o.env|
      invariant |env| == i && forall k :: 0 <= k < i ==> env[k] == Entry(o.env[k])
      invariant forall k :: 0 <= k < i ==> NoNul(o.env[k].key) && NoNul(o.env[k].value) && KeyOk(o.env, k)
    {
      var p := o.env[i];
      if !NoNul(p.key) || !NoNul(p.value) || |p.key| == 0 || EQUALS in p.key {
        assert !PlainOk(o) || !KeyOk(o.env, i);
        return None;
      }
      for j := 0 to i
        invariant forall k :: 0 <= k < j ==> o.env[k].key != p.key
      {
        assert KeyOk(o.env, j);
        PrefixIsKey(o.env[j], p.key);
        if |env[j]| > |p.key| && env[j][..|p.key|] == p.key && env[j][|p.key|] == EQUALS {
          assert !KeyOk(o.env, i);
          return None;
        }
      }
      env := env + [Entry(p)];
    }
    assert o.argv[..|o.argv|] == o.argv;
    assert env == SpecOf(o).env;
    return Some(Spec(o.program, o.cwd, argv, env));
  }

  /** Within the size limits the queued path accepts what the direct path accepts, for the same child. */
  method PathsAgree(o: Options, arena: array<Byte>, argv: array<int>, env: array<int>)
    returns (queued: bool, program: int, cwd: int, direct: Option<Spec>)
    requires Fits(o) && arena.Length == ARENA && argv.Length == LIMIT + 2 && env.Length == LIMIT + 1
    requires argv != env && (arena as object) != argv && (arena as object) != env
    modifies arena, argv, env
    ensures queued <==> direct.Some?
    ensures queued ==> InMemory(direct.value, arena[..], program, cwd, argv[..], env[..])
  {
    direct := FillSpec(o);
    program, cwd := -1, -1;
    queued := BoundedInputs(o);
    if queued { queued, program, cwd := Snapshot(o, arena, argv, env); }
  }
}
