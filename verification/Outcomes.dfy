/** Exactly what a check and an abort do to a ticket: the answer, the verdict, the reason kept with it and the kill. */
module Outcomes {
  import opened Wrappers
  import opened Kernel
  import opened Launch
  import opened LaunchLocal

  // ----- What is to be expected

  /** The handshake read ends the launch: a full record, a partial one or a read error. */
  ghost predicate Refuses(recordLen: nat, r: ReadResult) {
    || (r.ReadBytes? && recordLen + r.n == 8)
    || (r.ReadEof? && recordLen > 0)
    || r.ReadError?
  }

  ghost function RefusalReason(r: ReadResult): Failure {
    match r
    case ReadBytes(_, operation, errno) => Failure(if operation in {1, 3, 4, 10} then operation else 11, errno)
    case ReadError(errno) => Failure(11, errno)
    case _ => Failure(11, 0)
  }

  /** The child of a ticket, held by itself or still in its slot. */
  ghost function ChildOf(l: Local): Fd {
    if l.t.state == SUBMITTED then l.slot.native.fds.pid else l.t.fds.pid
  }

  /** Whether a check comes to the kill: a failing or aborting ticket, one whose handshake is refused, or one just
      adopted that was asked to stop or is refused. */
  ghost predicate Strikes(l: Local, r: ReadResult) {
    match l.t.state
    case FAILING => true
    case ABORTING => true
    case LAUNCHING => Refuses(l.t.recordLen, r)
    case SUBMITTED => l.slot.phase == Done && l.slot.native.created && (l.t.stopRequested || Refuses(0, r))
    case _ => false
  }

  ghost predicate Aborting(l: Local) {
    l.t.state == ABORTING || (l.t.state == SUBMITTED && l.t.stopRequested)
  }

  /** SIGKILL goes to the child exactly when it is due and was not sent before. */
  ghost predicate Struck(l: Local, m: Local, due: bool, r: KillResult) {
    && m.os.killed == l.os.killed + (if due && !l.t.signalled && r.Delivered? then {ChildOf(l)} else {})
    && m.os.absent == l.os.absent + (if due && !l.t.signalled && r.NoProcess? then {ChildOf(l)} else {})
    && m.t.signalled == (l.t.signalled || (due && !r.KillError?))
  }

  /** What kill and wait make of a ticket. */
  ghost function Reaping(aborting: bool, signalled: bool, a: Answers): LaunchStep {
    match a.wait
    case NoChild => LOST_WAIT
    case Exited(_, _) => if aborting then ABORTED else FAILED
    case WaitError(_) => ERROR
    case _ => if signalled || !a.kill.KillError? then PENDING else ERROR
  }

  /** The answer of a check. */
  ghost function Checked(l: Local, a: Answers): LaunchStep {
    if l.t.step == OWNED then (if l.t.state == DISPOSED then ERROR else OWNED)
    else if l.t.step != PENDING then l.t.step
    else if l.t.state == SUBMITTED && l.slot.phase != Done then PENDING
    else if l.t.state == SUBMITTED && !l.slot.native.created then (if l.slot.native.cancelled then ABORTED else FAILED)
    else if Strikes(l, a.read) then Reaping(Aborting(l), l.t.signalled, a)
    else if a.read.ReadEof? then OWNED
    else PENDING
  }

  /** The reason kept when a pending launch fails. */
  ghost function Reason(l: Local, a: Answers): Failure {
    if l.t.state == SUBMITTED && !l.slot.native.created then l.slot.native.failure
    else if l.t.state == FAILING then l.t.failure
    else RefusalReason(a.read)
  }

  // ----- The parts

  lemma ClosingKeeps(l: Local)
    ensures var m := CloseErr(l); m.os.killed == l.os.killed && m.os.absent == l.os.absent
    ensures var m := CloseStreams(CloseErr(l)); m.os.killed == l.os.killed && m.os.absent == l.os.absent
    ensures CloseErr(l).t == l.t.(fds := l.t.fds.(err := -1))
    ensures CloseStreams(CloseErr(l)).t == l.t.(fds := Fds(l.t.fds.pid, -1, -1, -1, -1))
  {}

  ghost predicate Spared(l: Local, m: Local) {
    && m.os.killed == l.os.killed && m.os.absent == l.os.absent && m.t.signalled == l.t.signalled
    && m.t.recordLen == l.t.recordLen && m.t.stopRequested == l.t.stopRequested
  }

  lemma AdoptCreatedSpares(id: nat, l: Local)
    requires l.t.state == SUBMITTED && l.slot.phase == Done && l.slot.native.created
    ensures Spared(l, Adopt(id, l).1)
  {
    hide CloseErr, CloseStreams;
    var k := AdoptNative(l.(broken := l.broken || l.slot.generation != l.t.generation || l.slot.owner != Some(id)));
    ClosingKeeps(k.(t := k.t.(state := ABORTING)));
  }

  lemma AdoptRefusedSpares(id: nat, l: Local)
    requires l.t.state == SUBMITTED && l.slot.phase == Done && !l.slot.native.created
    ensures var m := Adopt(id, l).1;
            && Spared(l, m)
            && m.t.failure == if l.slot.native.cancelled then Failure(12, 0) else l.slot.native.failure
  {}

  /** Adoption kills nobody. */
  lemma AdoptSpares(id: nat, l: Local)
    ensures var m := Adopt(id, l).1;
            && Spared(l, m)
            && (l.t.state == SUBMITTED && l.slot.phase == Done && !l.slot.native.created ==>
                  m.t.failure == if l.slot.native.cancelled then Failure(12, 0) else l.slot.native.failure)
  {
    if l.t.state != SUBMITTED || l.slot.phase != Done {
      assert Spared(l, Adopt(id, l).1) by { hide CloseErr, CloseStreams, Release; }
    } else if l.slot.native.created {
      AdoptCreatedSpares(id, l);
    } else {
      AdoptRefusedSpares(id, l);
    }
    hide Adopt, Spared;
  }

  lemma HandshakeSpares(id: nat, l: Local, r: ReadResult)
    requires l.t.state == LAUNCHING && l.t.step == PENDING && ReadFits(l.t, r)
    ensures var (d, m) := Handshake(id, l, r);
            && m.os.killed == l.os.killed && m.os.absent == l.os.absent && m.t.signalled == l.t.signalled
            && m.t.fds.pid == l.t.fds.pid
            && (d.None? <==> Refuses(l.t.recordLen, r))
            && (d.None? ==> m.t.failure == RefusalReason(r) && m.t.state == FAILING)
            && (d.Some? ==> d.value == (if r.ReadEof? then OWNED else PENDING) && m.t.step == d.value)
            && m.t.state != SUBMITTED
  {
    hide CloseErr, CloseStreams;
    ClosingKeeps(l);
    if r.ReadBytes? { ClosingKeeps(l.(t := l.t.(recordLen := l.t.recordLen + r.n))); }
  }

  /** A pending ticket, adopted. */
  ghost predicate Result(l: Local, a: Answers, r: LaunchStep, m: Local) {
    && r == Checked(l, a) && m.t.step == (if r == ERROR then PENDING else r)
    && Struck(l, m, Strikes(l, a.read), a.kill)
    && (m.t.step == PENDING ==> ChildOf(m) == ChildOf(l))
    && (m.t.step == PENDING && l.t.state != SUBMITTED ==> m.t.state != SUBMITTED)
    && (r == FAILED ==> m.t.failure == Reason(l, a))
    && (r == ABORTED ==> m.t.failure == Failure(12, 0))
    && (r == LOST_WAIT ==> m.t.failure == Failure(5, 10))
  }

  lemma DyingResult(id: nat, l: Local, a: Answers)
    requires LocalInv(id, l) && l.t.step == PENDING && (l.t.state == FAILING || l.t.state == ABORTING)
    ensures Result(l, a, KillAndReap(id, l, a).0, KillAndReap(id, l, a).1)
  {
    hide KillAndReap, LocalInv, Moves;
    KillAndReapKeeps(id, l, a);
  }

  /** A refused handshake, and the kill in the same call. */
  lemma RefusedResult(l: Local, h: Local, a: Answers, r: LaunchStep, m: Local)
    requires l.t.state == LAUNCHING && l.t.step == PENDING && Refuses(l.t.recordLen, a.read)
    requires h.t.state == FAILING && h.t.step == PENDING && h.t.failure == RefusalReason(a.read)
    requires h.os.killed == l.os.killed && h.os.absent == l.os.absent && h.t.signalled == l.t.signalled
    requires h.t.fds.pid == l.t.fds.pid && Result(h, a, r, m)
    ensures Result(l, a, r, m)
  {}

  lemma WaitingResult(l: Local, h: Local, a: Answers, r: LaunchStep)
    requires l.t.state == LAUNCHING && l.t.step == PENDING && !Refuses(l.t.recordLen, a.read)
    requires r == (if a.read.ReadEof? then OWNED else PENDING) && h.t.step == r
    requires h.os.killed == l.os.killed && h.os.absent == l.os.absent && h.t.signalled == l.t.signalled
    requires h.t.fds.pid == l.t.fds.pid && h.t.state != SUBMITTED
    ensures Result(l, a, r, h)
  {}

  /** The adopted part of a check. */
  lemma CheckAdopted(id: nat, l: Local, a: Answers)
    requires LocalInv(id, l) && l.t.step == PENDING && l.t.state != SUBMITTED && ReadFits(l.t, a.read)
    ensures Result(l, a, CheckStart(id, l, a).0, CheckStart(id, l, a).1)
  {
    PendingStates(id, l);
    hide CheckStart, LocalInv, Moves, Handshake, KillAndReap, Result, Refuses, RefusalReason;
    LaunchLocal.CheckIs(id, l, a);
    if l.t.state == LAUNCHING {
      HandshakeKeeps(id, l, a.read);
      HandshakeSpares(id, l, a.read);
      var (d, h) := Handshake(id, l, a.read);
      if d.None? {
        DyingResult(id, h, a);
        RefusedResult(l, h, a, KillAndReap(id, h, a).0, KillAndReap(id, h, a).1);
      } else {
        WaitingResult(l, h, a, d.value);
      }
    } else {
      DyingResult(id, l, a);
    }
  }

  lemma PendingStates(id: nat, l: Local)
    requires LocalInv(id, l)
    ensures l.t.step == PENDING <==>
              (l.t.state.SUBMITTED? || l.t.state.LAUNCHING? || l.t.state.FAILING? || l.t.state.ABORTING?)
    ensures l.t.state == SUBMITTED ==> !l.t.signalled && l.t.recordLen == 0
    ensures l.t.step != ERROR
  {
    hide FdsOk, Backed, Sane, NativeDone;
  }

  /** Between the submission and the adoption. */
  lemma AdoptedResult(l: Local, l1: Local, a: Answers, r: LaunchStep, m: Local)
    requires l.t.state == SUBMITTED && l.t.step == PENDING && l.slot.phase == Done && l.slot.native.created
    requires AdoptedAs(l, l1.t) && l1.t.recordLen == l.t.recordLen == 0
    requires l1.os.killed == l.os.killed && l1.os.absent == l.os.absent && l1.t.signalled == l.t.signalled
    requires Result(l1, a, r, m)
    ensures Result(l, a, r, m)
  {}

  lemma SettledResult(l: Local, a: Answers, r: LaunchStep, m: Local)
    requires l.t.state == SUBMITTED && l.t.step == PENDING
    requires m.os.killed == l.os.killed && m.os.absent == l.os.absent && m.t.signalled == l.t.signalled && m.t.step == r
    requires l.slot.phase != Done ==> r == PENDING
    requires l.slot.phase == Done ==>
               !l.slot.native.created && r == (if l.slot.native.cancelled then ABORTED else FAILED)
    requires l.slot.phase != Done ==> m.t.state == SUBMITTED && m.slot == l.slot
    requires l.slot.phase == Done ==>
               m.t.failure == if l.slot.native.cancelled then Failure(12, 0) else l.slot.native.failure
    ensures Result(l, a, r, m)
  {}

  // ----- The whole

  /** A check, in any state: its answer, the verdict, the reason and the kill. */
  lemma CheckOutcome(id: nat, l: Local, a: Answers)
    requires LocalInv(id, l) && ReadFits(l.t, a.read)
    ensures var (r, m) := CheckStart(id, l, a);
            if l.t.step == PENDING then Result(l, a, r, m) else r == Checked(l, a) && m == l
  {
    PendingStates(id, l);
    AdoptKeeps(id, l);
    AdoptSpares(id, l);
    var (adopted, l1) := Adopt(id, l);
    hide LocalInv, Moves, Adopt, CheckStart, Result, AdoptedAs;
    if adopted && l1.t.step == PENDING {
      CheckAfterAdopt(id, l, a);
      CheckAdopted(id, l1, a);
      if l.t.state == SUBMITTED {
        AdoptedStates(l, l1);
        AdoptedResult(l, l1, a, CheckStart(id, l1, a).0, CheckStart(id, l1, a).1);
      }
    } else {
      CheckNothing(id, l, a);
      if l.t.state == SUBMITTED {
        if adopted { AdoptedStates(l, l1); }
        SettledResult(l, a, CheckStart(id, l, a).0, l1);
      }
    }
  }

  lemma AdoptedStates(l: Local, l1: Local)
    requires AdoptedAs(l, l1.t)
    ensures l.slot.native.created <==> l1.t.step == PENDING
    ensures !l.slot.native.created ==> l1.t.step == if l.slot.native.cancelled then ABORTED else FAILED
  {}

  // ----- Aborts

  ghost function Stopped(l: Local): Local {
    var f := RequestStop(l);
    if l.t.state == LAUNCHING || l.t.state == FAILING then CloseStreams(CloseErr(f.(t := f.t.(state := ABORTING))))
    else f
  }

  lemma StoppedIs(id: nat, l: Local, a: Answers)
    requires LocalInv(id, l) && l.t.state != SUBMITTED && l.t.step == PENDING
    ensures var d := Stopped(l);
            && LocalInv(id, d) && d.t.state == ABORTING && d.t.step == PENDING && d.t.recordLen == l.t.recordLen
            && d.os.killed == l.os.killed && d.os.absent == l.os.absent && d.t.signalled == l.t.signalled
            && d.t.fds.pid == l.t.fds.pid
            && FinishAbort(id, RequestStop(l), a) == CheckStart(id, d, a)
  {
    PendingStates(id, l);
    var f := RequestStop(l);
    assert f == l.(t := l.t.(cancelled := true));
    hide CheckStart;
    if l.t.state == LAUNCHING || l.t.state == FAILING {
      DropKeeps(id, l, ABORTING, l.t.recordLen, l.t.failure);
      ClosingKeeps(f.(t := f.t.(state := ABORTING)));
      DropIsStop(l);
      hide LocalInv, Moves, Dropped, CloseErr, CloseStreams;
    } else {
      RequestStopKeeps(id, l);
      hide LocalInv, Moves;
    }
  }

  lemma DropIsStop(l: Local)
    requires l.t.state == LAUNCHING || l.t.state == FAILING
    requires l.t.step == PENDING
    ensures Dropped(l, ABORTING, l.t.recordLen, l.t.failure) == Stopped(l)
  {
    hide Close;
  }

  /** An abort of a pending ticket the worker is done with kills its child at once, unless it was signalled before. */
  lemma AbortOutcome(id: nat, l: Local, a: Answers)
    requires LocalInv(id, l) && l.t.state != SUBMITTED && l.t.step == PENDING && ReadFits(l.t, a.read)
    ensures var (r, m) := FinishAbort(id, RequestStop(l), a);
            && r == Reaping(true, l.t.signalled, a) && m.t.step == (if r == ERROR then PENDING else r)
            && m.os.killed == l.os.killed + (if !l.t.signalled && a.kill.Delivered? then {l.t.fds.pid} else {})
            && m.os.absent == l.os.absent + (if !l.t.signalled && a.kill.NoProcess? then {l.t.fds.pid} else {})
            && m.t.signalled == (l.t.signalled || !a.kill.KillError?)
            && (r == PENDING || r == ERROR ==> m.t.state != SUBMITTED && m.t.fds.pid == l.t.fds.pid)
            && (r == ABORTED ==> m.t.failure == Failure(12, 0)) && (r == LOST_WAIT ==> m.t.failure == Failure(5, 10))
  {
    hide LocalInv, FinishAbort, CheckStart, Stopped;
    StoppedIs(id, l, a);
    CheckOutcome(id, Stopped(l), a);
  }

  /** The end of the abort of a ticket still submitted: whatever the worker published meanwhile, it is a check. */
  lemma AbortEndOutcome(id: nat, l: Local, a: Answers)
    requires LocalInv(id, l) && l.t.state == SUBMITTED && l.t.stopRequested && ReadFits(l.t, a.read)
    ensures var (r, m) := FinishAbort(id, l, a); Result(l, a, r, m)
  {
    PendingStates(id, l);
    CheckOutcome(id, l, a);
    AdoptKeeps(id, l);
    hide LocalInv, Moves, CheckStart, Adopt;
    var (adopted, l1) := Adopt(id, l);
    if adopted {
      CheckAfterAdopt(id, l, a);
    } else {
      CheckNothing(id, l, a);
    }
  }
}
