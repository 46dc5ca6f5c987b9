/** `construct_native`: opening a child's streams and handshake pipe and creating it, one observable step at a time,
    with the two reads of the stop flag.  The worker takes these steps unlocked; a direct start takes them in one go. */
module Construct {
  import opened Wrappers
  import opened Kernel
  import opened Launch
  import opened LaunchLocal

  /** The child's ends of its streams and the handshake pipe: locals of the routine, closed before it returns. */
  datatype Kit = Kit(c0: Fd, c1: Fd, c2: Fd, ep0: Fd, ep1: Fd)

  const NO_KIT := Kit(-1, -1, -1, -1, -1)

  function KitHeld(k: Kit): multiset<int> {
    One(k.c0) + One(k.c1) + One(k.c2) + One(k.ep0) + One(k.ep1)
  }

  /** What comes next: the snapshot of the inputs, the first stop check, stream `n` (the pipe is 3), the second stop
      check, the clone, handing over. */
  datatype Stage = Snapshot | Checking | Make(n: nat) | Recheck | Clone | Publish

  datatype Bench = Bench(native: Native, stage: Stage, kit: Kit, os: Os)

  datatype OpenAnswer = Opened | Unopened | HalfOpened

  datatype CloneAnswer = Cloned | MaskError | CloneError

  /** `unfit`: the failure the signal and facility checks report, if any. */
  datatype WorkAnswers = WorkAnswers(unfit: Option<Failure>, open: OpenAnswer, clone: CloneAnswer, errno: int)

  const ENOSYS := 38
  const EPERM := 1

  function Piped(inputs: Inputs, n: nat): bool {
    if n == 0 then inputs.pipe0 else if n == 1 then inputs.pipe1 else inputs.pipe2
  }

  function SetChild(k: Kit, n: nat, fd: Fd): Kit {
    if n == 0 then k.(c0 := fd) else if n == 1 then k.(c1 := fd) else k.(c2 := fd)
  }

  function SetStream(f: Fds, n: nat, fd: Fd): Fds {
    if n == 0 then f.(s0 := fd) else if n == 1 then f.(s1 := fd) else f.(s2 := fd)
  }

  /** Closing descriptors in turn, -1 skipped. */
  function CloseAll(os: Os, fds: seq<Fd>): Os
    decreases |fds|
  {
    if fds == [] then os else CloseAll(Close(os, fds[0]), fds[1..])
  }

  /** The `cleanup` label. */
  function Cleanup(b: Bench): Bench {
    var k, f := b.kit, b.native.fds;
    Bench(b.native.(fds := f.(s0 := -1, s1 := -1, s2 := -1)), Publish, NO_KIT,
          CloseAll(b.os, [k.c0, k.c1, k.c2, k.ep0, k.ep1, f.s0, f.s1, f.s2]))
  }

  function Fail(b: Bench, f: Failure): Bench {
    Cleanup(b.(native := b.native.(failure := f)))
  }

  /** Stream `n`: a null device, or a pipe whose other end the parent keeps.  A pipe that cannot be made non-blocking is
      open all the same. */
  function MakeStream(b: Bench, n: nat, piped: bool, a: WorkAnswers): Bench {
    if a.open == Unopened || (a.open == HalfOpened && !piped) then Fail(b, Failure(1, a.errno))
    else
      var c := b.(kit := SetChild(b.kit, n, b.os.next), os := Open(b.os), stage := Make(n + 1));
      if !piped then c
      else
        var d := c.(native := c.native.(fds := SetStream(c.native.fds, n, c.os.next)), os := Open(c.os));
        if a.open == HalfOpened then Fail(d, Failure(1, a.errno)) else d
  }

  function MakePipe(b: Bench, a: WorkAnswers): Bench {
    if a.open == Unopened then Fail(b, Failure(1, a.errno))
    else
      var c := b.(kit := b.kit.(ep0 := b.os.next, ep1 := b.os.next + 1), os := Open(Open(b.os)), stage := Recheck);
      if a.open == HalfOpened then Fail(c, Failure(1, a.errno)) else c
  }

  /** A child was created: its ends of the streams and the pipe are closed, the rest is handed over. */
  function Created(b: Bench): Bench {
    var k := b.kit;
    Bench(b.native.(fds := b.native.fds.(pid := b.os.next, err := k.ep0), created := true), Publish, NO_KIT,
          CloseAll(Spawn(b.os), [k.c0, k.c1, k.c2, k.ep1]))
  }

  function MakeChild(b: Bench, a: WorkAnswers): Bench {
    if a.clone.Cloned? then Created(b) else Fail(b, CloneFailure(a))
  }

  function CloneFailure(a: WorkAnswers): Failure {
    Failure(if a.clone.MaskError? || a.errno == ENOSYS || a.errno == EPERM then 10 else 2, a.errno)
  }

  function Work(b: Bench, inputs: Inputs, stop: bool, a: WorkAnswers): Bench {
    match b.stage
    case Snapshot =>
      if inputs.acceptable then b.(stage := Checking)
      else b.(native := b.native.(failure := Failure(0, 0)), stage := Publish)
    case Checking =>
      if stop then b.(native := b.native.(cancelled := true), stage := Publish)
      else if a.unfit.Some? then b.(native := b.native.(failure := a.unfit.value), stage := Publish)
      else b.(stage := Make(0))
    case Make(n) => if n < 3 then MakeStream(b, n, Piped(inputs, n), a) else MakePipe(b, a)
    case Recheck =>
      if stop then Cleanup(b.(native := b.native.(cancelled := true))) else b.(stage := Clone)
    case Clone => MakeChild(b, a)
    case Publish => b
  }

  // ----- What every step keeps

  ghost function BenchHeld(b: Bench): multiset<int> {
    Held(b.native.fds) + KitHeld(b.kit)
  }

  /** What is open so far at each stage: nothing beyond the streams already made. */
  ghost predicate StageOk(b: Bench) {
    var f, k := b.native.fds, b.kit;
    match b.stage
    case Snapshot => b.native == FRESH_NATIVE && k == NO_KIT
    case Checking => b.native == FRESH_NATIVE && k == NO_KIT
    case Make(n) =>
      && n <= 3 && f.pid == -1 && f.err == -1 && !b.native.created && !b.native.cancelled && k.ep0 == -1 && k.ep1 == -1
      && (n == 0 ==> k.c0 == -1 && f.s0 == -1) && (n <= 1 ==> k.c1 == -1 && f.s1 == -1)
         && (n <= 2 ==> k.c2 == -1 && f.s2 == -1)
    case Recheck => f.pid == -1 && f.err == -1 && !b.native.created && !b.native.cancelled && k.ep0 >= 0
    case Clone => f.pid == -1 && f.err == -1 && !b.native.created && !b.native.cancelled && k.ep0 >= 0
    case Publish => k == NO_KIT && (b.native.cancelled ==> !b.native.created)
  }

  ghost predicate NoChildren(b: Bench) {
    var f, k, u := b.native.fds, b.kit, b.os.unreaped;
    f.err !in u && f.s0 !in u && f.s1 !in u && f.s2 !in u && k.c0 !in u && k.c1 !in u && k.c2 !in u && k.ep0 !in u
    && k.ep1 !in u
  }

  ghost predicate BenchInv(b: Bench) {
    && Sane(b.os) && StageOk(b) && NoChildren(b)
    && BenchHeld(b) <= multiset(b.os.open)
    && (b.stage == Publish ==> NativeDone(b.native, b.os))
  }

  /** The frame of a step: descriptors balance, no old child is touched, new tokens are new. */
  ghost predicate BenchMoves(b: Bench, c: Bench) {
    && multiset(c.os.open) + BenchHeld(b) == multiset(b.os.open) + BenchHeld(c)
    && b.os.next <= c.os.next
    && c.os.killed == b.os.killed && c.os.absent == b.os.absent
    && (c.os.unreaped == b.os.unreaped || c.os.unreaped == b.os.unreaped + {b.os.next})
  }

  ghost function Ones(fds: seq<Fd>): multiset<int> {
    if fds == [] then multiset{} else One(fds[0]) + Ones(fds[1..])
  }

  lemma {:induction false} CloseAllBalance(k: Os, fds: seq<Fd>, rest: multiset<int>)
    requires Ones(fds) + rest <= multiset(k.open) && Sane(k) && forall i :: 0 <= i < |fds| ==> fds[i] !in k.unreaped
    ensures var c := CloseAll(k, fds);
            && c == k.(open := c.open) && Sane(c)
            && rest <= multiset(c.open) && multiset(c.open) + Ones(fds) == multiset(k.open)
    decreases |fds|
  {
    if fds != [] {
      hide One;
      var d := Close(k, fds[0]);
      CloseHeld(k, fds[0], Ones(fds[1..]) + rest);
      assert Sane(d);
      CloseAllBalance(d, fds[1..], rest);
    }
  }

  lemma CleanupIs(b: Bench)
    requires Sane(b.os) && NoChildren(b) && BenchHeld(b) <= multiset(b.os.open)
    requires b.native.fds.pid == -1 && b.native.fds.err == -1
    ensures var c := Cleanup(b);
            && c.os == b.os.(open := c.os.open) && Sane(c.os) && BenchMoves(b, c)
            && c.native == b.native.(fds := NO_FDS) && c.stage == Publish && c.kit == NO_KIT
  {
    var k, f := b.kit, b.native.fds;
    var fds := [k.c0, k.c1, k.c2, k.ep0, k.ep1, f.s0, f.s1, f.s2];
    CleanupHeld(b);
    assert forall i :: 0 <= i < |fds| ==> fds[i] !in b.os.unreaped;
    hide Ones, CloseAll, Sane, NoChildren, BenchHeld, One;
    CloseAllBalance(b.os, fds, multiset{});
  }

  lemma CleanupHeld(b: Bench)
    requires b.native.fds.pid == -1 && b.native.fds.err == -1
    ensures var k, f := b.kit, b.native.fds;
            Ones([k.c0, k.c1, k.c2, k.ep0, k.ep1, f.s0, f.s1, f.s2]) == BenchHeld(b)
            && BenchHeld(Cleanup(b)) == multiset{}
  {
    var k, f := b.kit, b.native.fds;
    NoneHeld();
    var fds := [k.c0, k.c1, k.c2, k.ep0, k.ep1, f.s0, f.s1, f.s2];
    OnesEight(fds);
    Shuffled(One(k.c0), One(k.c1), One(k.c2), One(k.ep0), One(k.ep1), One(f.s0), One(f.s1), One(f.s2));
    assert BenchHeld(Cleanup(b)) == multiset{} by { hide Ones, CloseAll; }
    hide One, Ones, Cleanup;
  }

  lemma Shuffled(a: multiset<int>, b: multiset<int>, c: multiset<int>, d: multiset<int>,
                 e: multiset<int>, f: multiset<int>, g: multiset<int>, h: multiset<int>)
    ensures a + b + c + d + e + f + g + h == (multiset{} + multiset{} + f + g + h) + (a + b + c + d + e)
  {}

  lemma OnesFour(f: seq<Fd>)
    requires |f| == 4
    ensures Ones(f) == One(f[0]) + One(f[1]) + One(f[2]) + One(f[3])
  {
    hide One;
    assert Ones(f[4..]) == multiset{};
    assert Ones(f[3..]) == One(f[3]) + Ones(f[3..][1..]);
    assert f[3..][1..] == f[4..];
    assert Ones(f[2..]) == One(f[2]) + Ones(f[3..]) by { assert f[2..][1..] == f[3..]; }
    assert Ones(f[1..]) == One(f[1]) + Ones(f[2..]) by { assert f[1..][1..] == f[2..]; }
  }

  lemma OnesEight(f: seq<Fd>)
    requires |f| == 8
    ensures Ones(f) == One(f[0]) + One(f[1]) + One(f[2]) + One(f[3]) + One(f[4]) + One(f[5]) + One(f[6]) + One(f[7])
  {
    hide One;
    OnesFour(f[4..]);
    assert Ones(f[3..]) == One(f[3]) + Ones(f[4..]) by { assert f[3..][1..] == f[4..]; }
    assert Ones(f[2..]) == One(f[2]) + Ones(f[3..]) by { assert f[2..][1..] == f[3..]; }
    assert Ones(f[1..]) == One(f[1]) + Ones(f[2..]) by { assert f[1..][1..] == f[2..]; }
  }

  /** Nothing is known but that all is held and accounted for, and no child exists. */
  ghost predicate Loose(b: Bench) {
    && Sane(b.os) && NoChildren(b) && BenchHeld(b) <= multiset(b.os.open)
    && b.native.fds.pid == -1 && b.native.fds.err == -1 && !b.native.created
  }

  lemma CleanupKeeps(b: Bench)
    requires Loose(b)
    ensures BenchInv(Cleanup(b)) && BenchMoves(b, Cleanup(b)) && Cleanup(b).native.cancelled == b.native.cancelled
    ensures Cleanup(b).os.unreaped == b.os.unreaped
  {
    CleanupIs(b);
    NoneHeld();
    var c := Cleanup(b);
    assert KitHeld(NO_KIT) == multiset{};
    assert -1 !in c.os.unreaped;
    hide Cleanup, One, Held, KitHeld, Sane, BenchMoves;
  }

  /** A new descriptor, put where there was none. */
  lemma OpenKeeps(b: Bench, c: Bench)
    requires Loose(b) && c.os == Open(b.os) && c.native == b.native.(fds := c.native.fds)
    requires c.native.fds.pid == -1 && c.native.fds.err == -1
    requires BenchHeld(c) == BenchHeld(b) + One(b.os.next)
    requires NoChildren(c.(os := b.os))
    ensures Loose(c) && BenchMoves(b, c) && c.os.unreaped == b.os.unreaped
  {
    OpenSane(b.os);
    assert NoChildren(c) by { hide BenchHeld, Sane; }
    hide BenchHeld, Sane, Open, NoChildren, One;
  }

  lemma OpenSane(k: Os)
    requires Sane(k)
    ensures var c := Open(k);
            && Sane(c) && multiset(c.open) == multiset(k.open) + One(k.next)
            && c.next == k.next + 1 && c.unreaped == k.unreaped && c.killed == k.killed && c.absent == k.absent
  {
    OpenBalance(k);
  }

  lemma BenchTransitive(b: Bench, c: Bench, d: Bench)
    requires BenchMoves(b, c) && BenchMoves(c, d) && (c.os.unreaped == b.os.unreaped == d.os.unreaped)
    ensures BenchMoves(b, d)
  {
    BalanceTransitive(multiset(b.os.open), BenchHeld(b), multiset(c.os.open), BenchHeld(c), multiset(d.os.open),
                      BenchHeld(d));
    hide BenchHeld;
  }

  lemma Fresh(k: Os)
    requires Sane(k)
    ensures k.next !in k.unreaped && -1 !in k.unreaped
  {}

  lemma SetChildHeld(k: Kit, n: nat, fd: Fd)
    requires n == 0 ==> k.c0 == -1
    requires n == 1 ==> k.c1 == -1
    requires n >= 2 ==> k.c2 == -1
    ensures KitHeld(SetChild(k, n, fd)) == KitHeld(k) + One(fd)
  {
    NoneHeld();
    hide One;
  }

  lemma SetStreamHeld(f: Fds, n: nat, fd: Fd)
    requires n == 0 ==> f.s0 == -1
    requires n == 1 ==> f.s1 == -1
    requires n >= 2 ==> f.s2 == -1
    ensures Held(SetStream(f, n, fd)) == Held(f) + One(fd)
  {
    NoneHeld();
    hide One;
  }

  lemma ChildEnd(b: Bench, n: nat)
    requires Loose(b) && n < 3
    requires n == 0 ==> b.kit.c0 == -1
    requires n == 1 ==> b.kit.c1 == -1
    requires n == 2 ==> b.kit.c2 == -1
    ensures var c := b.(kit := SetChild(b.kit, n, b.os.next), os := Open(b.os), stage := Make(n + 1));
            Loose(c) && BenchMoves(b, c) && c.os.unreaped == b.os.unreaped
  {
    var c := b.(kit := SetChild(b.kit, n, b.os.next), os := Open(b.os), stage := Make(n + 1));
    SetChildHeld(b.kit, n, b.os.next);
    Fresh(b.os);
    assert NoChildren(c.(os := b.os)) by { hide Held, KitHeld, Sane; }
    hide Held, KitHeld, One, Sane, NoChildren;
    OpenKeeps(b, c);
  }

  lemma ParentEnd(b: Bench, n: nat)
    requires Loose(b) && n < 3
    requires n == 0 ==> b.native.fds.s0 == -1
    requires n == 1 ==> b.native.fds.s1 == -1
    requires n == 2 ==> b.native.fds.s2 == -1
    ensures var c := b.(native := b.native.(fds := SetStream(b.native.fds, n, b.os.next)), os := Open(b.os));
            Loose(c) && BenchMoves(b, c) && c.os.unreaped == b.os.unreaped
  {
    var c := b.(native := b.native.(fds := SetStream(b.native.fds, n, b.os.next)), os := Open(b.os));
    SetStreamHeld(b.native.fds, n, b.os.next);
    Fresh(b.os);
    assert NoChildren(c.(os := b.os)) by { hide Held, KitHeld, Sane; }
    hide Held, KitHeld, One, Sane, NoChildren;
    OpenKeeps(b, c);
  }

  /** The child's end of stream `n` and, for a pipe, the parent's. */
  lemma StreamOpened(b: Bench, n: nat, piped: bool)
    requires Loose(b) && StageOk(b) && b.stage == Make(n) && n < 3
    ensures var c := b.(kit := SetChild(b.kit, n, b.os.next), os := Open(b.os), stage := Make(n + 1));
            var d := if piped
                     then c.(native := c.native.(fds := SetStream(c.native.fds, n, c.os.next)), os := Open(c.os))
                     else c;
            Loose(d) && BenchMoves(b, d) && StageOk(d) && d.os.unreaped == b.os.unreaped
  {
    var c := b.(kit := SetChild(b.kit, n, b.os.next), os := Open(b.os), stage := Make(n + 1));
    ChildEnd(b, n);
    if piped {
      var d := c.(native := c.native.(fds := SetStream(c.native.fds, n, c.os.next)), os := Open(c.os));
      hide Loose, BenchMoves;
      ParentEnd(c, n);
      BenchTransitive(b, c, d);
    }
    hide Loose, BenchMoves, Held, KitHeld, Sane, NoChildren;
  }

  /** Failing from a loose bench reached by steps from `b`. */
  lemma FailKeeps(b: Bench, d: Bench, f: Failure)
    requires Loose(b) && Loose(d) && BenchMoves(b, d) && d.os.unreaped == b.os.unreaped
    ensures var c := Fail(d, f);
            BenchInv(c) && BenchMoves(b, c) && c.native.cancelled == d.native.cancelled
  {
    var e := d.(native := d.native.(failure := f));
    assert BenchHeld(e) == BenchHeld(d) && NoChildren(e) && Loose(e) by { hide Held, KitHeld, Sane; }
    CleanupKeeps(e);
    assert BenchMoves(d, Cleanup(e)) by { hide BenchHeld, Cleanup, Loose, BenchInv, NoChildren; }
    hide Loose, BenchInv, BenchMoves, Cleanup;
    BenchTransitive(b, d, Cleanup(e));
  }

  lemma LooseMoves(b: Bench)
    ensures BenchMoves(b, b)
  {
    hide BenchHeld;
  }

  lemma MakeStreamIs(b: Bench, n: nat, piped: bool, a: WorkAnswers)
    requires n < 3
    ensures var c := b.(kit := SetChild(b.kit, n, b.os.next), os := Open(b.os), stage := Make(n + 1));
            var d := if piped
                     then c.(native := c.native.(fds := SetStream(c.native.fds, n, c.os.next)), os := Open(c.os))
                     else c;
            MakeStream(b, n, piped, a) == (
              if a.open == Unopened || (a.open == HalfOpened && !piped) then Fail(b, Failure(1, a.errno))
              else if a.open == HalfOpened then Fail(d, Failure(1, a.errno))
              else d)
  {
    hide Fail, Open, SetChild, SetStream;
  }

  lemma MakeStreamKeeps(b: Bench, n: nat, piped: bool, a: WorkAnswers)
    requires BenchInv(b) && b.stage == Make(n) && n < 3
    ensures var c := MakeStream(b, n, piped, a);
            BenchInv(c) && BenchMoves(b, c) && !c.native.cancelled
  {
    BusyIsLoose(b);
    StreamOpened(b, n, piped);
    LooseMoves(b);
    var c := b.(kit := SetChild(b.kit, n, b.os.next), os := Open(b.os), stage := Make(n + 1));
    var d := if piped
             then c.(native := c.native.(fds := SetStream(c.native.fds, n, c.os.next)), os := Open(c.os))
             else c;
    assert d.native.cancelled == b.native.cancelled == false by { hide Loose, BenchMoves, Held, KitHeld; }
    FailKeeps(b, b, Failure(1, a.errno));
    FailKeeps(b, d, Failure(1, a.errno));
    LooseIsInv(d);
    MakeStreamIs(b, n, piped, a);
    hide Fail, BenchInv, BenchMoves, Loose, SetChild, SetStream, Open, MakeStream, StageOk;
  }

  lemma PipeOpened(b: Bench)
    requires Loose(b) && StageOk(b) && b.stage == Make(3)
    ensures var d := b.(kit := b.kit.(ep0 := b.os.next, ep1 := b.os.next + 1), os := Open(Open(b.os)),
                        stage := Recheck);
            Loose(d) && BenchMoves(b, d) && StageOk(d) && d.os.unreaped == b.os.unreaped
  {
    var c := b.(kit := b.kit.(ep0 := b.os.next), os := Open(b.os));
    var d := c.(kit := c.kit.(ep1 := c.os.next), os := Open(c.os), stage := Recheck);
    assert StageOk(d) by { hide Held, KitHeld, NoChildren, Loose; }
    PipeEnd(b, c);
    hide Loose, BenchMoves;
    PipeEnd(c, d);
    BenchTransitive(b, c, d);
  }

  /** One end of the handshake pipe. */
  lemma PipeEnd(b: Bench, c: Bench)
    requires Loose(b) && c.os == Open(b.os) && c.native == b.native && b.kit.ep1 == -1
    requires (b.kit.ep0 == -1 && c.kit == b.kit.(ep0 := b.os.next)) || c.kit == b.kit.(ep1 := b.os.next)
    ensures Loose(c) && BenchMoves(b, c) && c.os.unreaped == b.os.unreaped
  {
    Fresh(b.os);
    NoneHeld();
    assert KitHeld(c.kit) == KitHeld(b.kit) + One(b.os.next) by { hide One, Sane, NoChildren, Held; }
    assert NoChildren(c.(os := b.os)) by { hide Held, KitHeld, Sane; }
    hide Held, KitHeld, One, Sane;
    OpenKeeps(b, c);
  }

  lemma MakePipeIs(b: Bench, a: WorkAnswers)
    ensures var d := b.(kit := b.kit.(ep0 := b.os.next, ep1 := b.os.next + 1), os := Open(Open(b.os)),
                        stage := Recheck);
            MakePipe(b, a) == (if a.open == Unopened then Fail(b, Failure(1, a.errno))
                               else if a.open == HalfOpened then Fail(d, Failure(1, a.errno)) else d)
  {
    hide Fail;
  }

  lemma MakePipeKeeps(b: Bench, a: WorkAnswers)
    requires BenchInv(b) && b.stage == Make(3)
    ensures var c := MakePipe(b, a);
            BenchInv(c) && BenchMoves(b, c) && !c.native.cancelled
  {
    BusyIsLoose(b);
    PipeOpened(b);
    LooseMoves(b);
    var d := b.(kit := b.kit.(ep0 := b.os.next, ep1 := b.os.next + 1), os := Open(Open(b.os)), stage := Recheck);
    assert d.native.cancelled == b.native.cancelled == false by { hide Loose, BenchMoves, Held, KitHeld; }
    FailKeeps(b, b, Failure(1, a.errno));
    FailKeeps(b, d, Failure(1, a.errno));
    LooseIsInv(d);
    MakePipeIs(b, a);
    hide Fail, BenchInv, BenchMoves, Loose, Open, MakePipe, StageOk;
  }

  lemma SpawnSane(k: Os)
    requires Sane(k)
    ensures var c := Spawn(k);
            && Sane(c) && multiset(c.open) == multiset(k.open) + One(k.next)
            && c.next == k.next + 1 && c.unreaped == k.unreaped + {k.next} && c.killed == k.killed
               && k.next !in k.killed && c.absent == k.absent
  {
    OpenBalance(k);
  }

  lemma HeldBelow(b: Bench)
    requires Sane(b.os) && BenchHeld(b) <= multiset(b.os.open)
    ensures var k, f, n := b.kit, b.native.fds, b.os.next;
            k.c0 < n && k.c1 < n && k.c2 < n && k.ep0 < n && k.ep1 < n && f.s0 < n && f.s1 < n && f.s2 < n
  {
    var k, f, h := b.kit, b.native.fds, BenchHeld(b);
    assert One(k.c0) <= h && One(k.c1) <= h && One(k.c2) <= h && One(k.ep0) <= h && One(k.ep1) <= h by { hide One; }
    assert One(f.s0) <= h && One(f.s1) <= h && One(f.s2) <= h by { hide One; }
    hide BenchHeld, One, Sane;
    OneBelow(b.os, k.c0, h); OneBelow(b.os, k.c1, h); OneBelow(b.os, k.c2, h); OneBelow(b.os, k.ep0, h);
    OneBelow(b.os, k.ep1, h); OneBelow(b.os, f.s0, h); OneBelow(b.os, f.s1, h); OneBelow(b.os, f.s2, h);
  }

  lemma OneBelow(k: Os, fd: Fd, held: multiset<int>)
    requires One(fd) <= held <= multiset(k.open) && Sane(k)
    ensures fd < k.next && (fd >= 0 ==> fd in k.open)
  {
    if fd >= 0 {
      assert fd in One(fd);
    }
  }

  lemma CancelOne(co: multiset<int>, bh: multiset<int>, bo: multiset<int>, ch: multiset<int>, ones: multiset<int>,
                  one: multiset<int>)
    requires co + ones == bo + one && ones + ch == bh + one
    ensures co + bh == bo + ch
  {
    forall x ensures (co + bh)[x] == (bo + ch)[x] {
      assert (co + ones)[x] == (bo + one)[x] && (ones + ch)[x] == (bh + one)[x];
    }
  }

  /** The created child's pidfd, the handshake pipe's read end and the parent's streams are what is handed over. */
  lemma CreatedKeeps(b: Bench)
    requires BenchInv(b) && b.stage == Clone
    ensures var c := Created(b);
            BenchInv(c) && BenchMoves(b, c) && !c.native.cancelled && c.native.created
  {
    CreatedBalance(b);
    var c := Created(b);
    assert NativeDone(c.native, c.os) && NoChildren(c) by {
      HeldBelow(b);
      SpawnSane(b.os);
      assert NoChildren(b) && StageOk(b);
      assert b.os.next !in c.os.killed && -1 !in c.os.unreaped by { hide Created; }
      hide BenchInv, Sane, BenchHeld, BenchMoves, CloseAll;
    }
    assert StageOk(b);
    hide BenchHeld, Sane, NoChildren, BenchMoves, NativeDone;
  }

  lemma CreatedBalance(b: Bench)
    requires BenchInv(b) && b.stage == Clone
    ensures var c := Created(b);
            && Sane(c.os) && BenchHeld(c) <= multiset(c.os.open) && BenchMoves(b, c)
            && c.os.unreaped == b.os.unreaped + {b.os.next} && c.os.killed == b.os.killed && c.os.absent == b.os.absent
  {
    var k, f, os, c := b.kit, b.native.fds, Spawn(b.os), Created(b);
    var fds := [k.c0, k.c1, k.c2, k.ep1];
    var rest := One(b.os.next) + One(k.ep0) + One(f.s0) + One(f.s1) + One(f.s2);
    CreatedHeld(b);
    SpawnSane(b.os);
    HeldBelow(b);
    assert forall i :: 0 <= i < |fds| ==> fds[i] !in os.unreaped;
    hide One, Ones, Spawn, BenchHeld, Sane, NoChildren, StageOk;
    assert BenchHeld(b) + One(b.os.next) <= multiset(os.open);
    CloseAllBalance(os, fds, rest);
    hide CloseAll;
    CancelOne(multiset(c.os.open), BenchHeld(b), multiset(b.os.open), BenchHeld(c), Ones(fds), One(b.os.next));
  }

  lemma CreatedHeld(b: Bench)
    requires b.native.fds.pid == -1 && b.native.fds.err == -1
    ensures var k, f := b.kit, b.native.fds;
            var rest := One(b.os.next) + One(k.ep0) + One(f.s0) + One(f.s1) + One(f.s2);
            && BenchHeld(Created(b)) == rest
            && Ones([k.c0, k.c1, k.c2, k.ep1]) + rest == BenchHeld(b) + One(b.os.next)
  {
    OnesFour([b.kit.c0, b.kit.c1, b.kit.c2, b.kit.ep1]);
    NoneHeld();
    hide One, Ones, CloseAll;
  }

  /** Every step keeps the descriptors accounted for, and `cancelled` is only ever set by the stop flag. */
  lemma WorkKeeps(b: Bench, inputs: Inputs, stop: bool, a: WorkAnswers)
    requires BenchInv(b) && b.stage != Publish
    ensures var c := Work(b, inputs, stop, a);
            && BenchInv(c) && BenchMoves(b, c)
            && (c.native.cancelled ==> b.native.cancelled || stop)
  {
    match b.stage
    case Snapshot => QuietKeeps(b, inputs, stop, a);
    case Checking => QuietKeeps(b, inputs, stop, a);
    case Make(n) =>
      if n < 3 { MakeStreamKeeps(b, n, Piped(inputs, n), a); } else { MakePipeKeeps(b, a); }
      assert Work(b, inputs, stop, a) == (if n < 3 then MakeStream(b, n, Piped(inputs, n), a) else MakePipe(b, a)) by {
        hide BenchInv, MakeStream, MakePipe, BenchMoves;
      }
      hide BenchInv, BenchMoves, Work, MakeStream, MakePipe;
    case Recheck =>
      if stop { CancelKeeps(b, inputs, a); } else { QuietKeeps(b, inputs, stop, a); }
      hide BenchInv, BenchMoves, Work;
    case Clone =>
      MakeChildKeeps(b, a);
      assert Work(b, inputs, stop, a) == MakeChild(b, a) by { hide BenchInv, MakeChild, BenchMoves; }
      hide BenchInv, BenchMoves, Work, MakeChild;
  }

  lemma BusyIsLoose(b: Bench)
    requires BenchInv(b) && (b.stage.Make? || b.stage.Recheck? || b.stage.Clone?)
    ensures Loose(b) && !b.native.cancelled
  {
    hide KitHeld, Sane, Held;
  }

  lemma LooseIsInv(b: Bench)
    requires Loose(b) && StageOk(b) && b.stage != Publish
    ensures BenchInv(b)
  {
    hide BenchHeld, Sane, NoChildren;
  }

  lemma CancelKeeps(b: Bench, inputs: Inputs, a: WorkAnswers)
    requires BenchInv(b) && b.stage == Recheck
    ensures var c := Work(b, inputs, true, a); BenchInv(c) && BenchMoves(b, c)
  {
    var e := b.(native := b.native.(cancelled := true));
    BusyIsLoose(b);
    assert Loose(e) by { hide KitHeld, Sane, Held, BenchInv; }
    CleanupKeeps(e);
    assert Work(b, inputs, true, a) == Cleanup(e) by { hide BenchInv, Cleanup, Loose, BenchMoves; }
    assert BenchMoves(b, Cleanup(e)) by { hide Cleanup, Held, KitHeld, BenchInv, Loose, Work; }
    hide BenchInv, BenchMoves, Cleanup, Loose, Work;
  }

  lemma MakeChildKeeps(b: Bench, a: WorkAnswers)
    requires BenchInv(b) && b.stage == Clone
    ensures var c := MakeChild(b, a); BenchInv(c) && BenchMoves(b, c) && !c.native.cancelled
  {
    CreatedKeeps(b);
    LooseMoves(b);
    BusyIsLoose(b);
    hide BenchInv, BenchMoves, Fail, Created, Loose;
    FailKeeps(b, b, CloneFailure(a));
  }

  /** The steps that touch no descriptor. */
  lemma QuietKeeps(b: Bench, inputs: Inputs, stop: bool, a: WorkAnswers)
    requires BenchInv(b) && (b.stage.Snapshot? || b.stage.Checking? || (b.stage.Recheck? && !stop))
    ensures var c := Work(b, inputs, stop, a);
            && BenchInv(c) && BenchMoves(b, c)
            && (c.native.cancelled ==> b.native.cancelled || stop)
  {
    var c := Work(b, inputs, stop, a);
    assert c.os == b.os && c.kit == b.kit && c.native.fds == b.native.fds;
    assert BenchHeld(c) == BenchHeld(b) by { hide Held, KitHeld; }
    hide BenchHeld, Sane;
  }

  // ----- The child gets the streams asked for

  /** Streams below `n` are made: a parent's end exactly for a pipe. */
  ghost predicate StreamsMade(f: Fds, inputs: Inputs, n: nat) {
    && (n > 0 ==> (f.s0 >= 0 <==> inputs.pipe0)) && (n > 1 ==> (f.s1 >= 0 <==> inputs.pipe1))
       && (n > 2 ==> (f.s2 >= 0 <==> inputs.pipe2))
  }

  ghost predicate StreamsMatch(b: Bench, inputs: Inputs) {
    match b.stage
    case Snapshot => true
    case Checking => true
    case Make(n) => StreamsMade(b.native.fds, inputs, n)
    case Recheck => StreamsMade(b.native.fds, inputs, 3)
    case Clone => StreamsMade(b.native.fds, inputs, 3)
    case Publish => b.native.created ==> StreamsMade(b.native.fds, inputs, 3)
  }

  /** Where each stage leads, and only there: it goes on when the stop flag is clear and all it asked for was granted,
      and otherwise ends with the cause.  Only a successful clone creates a child, only the stop flag cancels, at either
      check, and a created child has a parent's end exactly for the streams asked to be pipes. */
  lemma WorkStreams(b: Bench, inputs: Inputs, stop: bool, a: WorkAnswers)
    requires StageOk(b) && StreamsMatch(b, inputs) && b.stage != Publish
    ensures var c := Work(b, inputs, stop, a);
            && StreamsMatch(c, inputs)
            && c.stage == (match b.stage
                           case Snapshot => if inputs.acceptable then Checking else Publish
                           case Checking => if stop || a.unfit.Some? then Publish else Make(0)
                           case Make(n) => if !a.open.Opened? then Publish else if n == 3 then Recheck else Make(n + 1)
                           case Recheck => if stop then Publish else Clone
                           case _ => Publish)
            && (c.native.created <==> b.stage == Clone && a.clone.Cloned?)
            && (c.native.cancelled <==> stop && (b.stage == Checking || b.stage == Recheck))
    ensures var c := Work(b, inputs, stop, a);
            c.stage == Publish && !c.native.created && !c.native.cancelled ==>
              c.native.failure == (match b.stage
                                   case Snapshot => Failure(0, 0)
                                   case Checking => a.unfit.value
                                   case Make(_) => Failure(1, a.errno)
                                   case _ =>
                                     Failure(if a.clone.MaskError? || a.errno in {38, 1} then 10 else 2, a.errno))
  {
    hide CloseAll, Open, Spawn;
  }
}
