/** What blocked callers are told, and who is killed, over all runs. */
module Replies {
  import opened Wrappers
  import opened Kernel
  import opened Launch
  import opened LaunchLocal
  import opened Construct
  import opened Protocol
  import opened Accounting
  import opened Invariant
  import opened TicketSteps
  import opened WorkerSteps
  import opened DriverSteps
  import opened Safety
  import opened Outcomes

  // ----- One turn of a blocking start

  /** The answer of a check of ticket `id` in this state. */
  ghost function Verdict(w: World, id: nat, a: Answers): LaunchStep
    requires HasSlot(w, id)
  {
    Checked(GetLocal(w, id), a)
  }

  lemma TicketChecked(w: World, id: nat, a: Answers)
    requires Core(w) && Callable(w, id, a)
    ensures var (r, v) := CheckTicket(w, id, a);
            && r == Verdict(w, id, a) && |v.tickets| == |w.tickets| && v.drivers == w.drivers
            && (r == PENDING ==> v.tickets[id].step == PENDING)
            && (r != PENDING && r != ERROR ==> v.tickets[id].step == r)
            && (r == ERROR ==> v.tickets[id].step == PENDING || v.tickets[id].state == DISPOSED)
  {
    hide Core, LocalInv, CheckStart, Result;
    CoreAt(w, id);
    LocalTicket(w, id);
    CheckOutcome(id, GetLocal(w, id), a);
    ResultStep(id, GetLocal(w, id), a);
    PutFrame(w, id, CheckStart(id, GetLocal(w, id), a).1);
    hide PutLocal, GetLocal;
  }

  lemma ResultStep(id: nat, l: Local, a: Answers)
    requires LocalInv(id, l) && ReadFits(l.t, a.read)
    ensures var (r, m) := CheckStart(id, l, a);
            && r == Checked(l, a)
            && (r == PENDING ==> m.t.step == PENDING) && (r != PENDING && r != ERROR ==> m.t.step == r)
            && (r == ERROR ==> m.t.step == PENDING || m.t.state == DISPOSED)
  {
    CheckOutcome(id, l, a);
    PendingStates(id, l);
    hide LocalInv, CheckStart, Strikes, Struck, Reason;
  }

  lemma PutFrame(w: World, id: nat, m: Local)
    requires HasSlot(w, id)
    ensures var v := PutLocal(w, id, m);
            |v.tickets| == |w.tickets| && v.tickets[id] == m.t && v.drivers == w.drivers && v.os == m.os
            && v.worker == w.worker
    ensures forall x :: 0 <= x < |w.tickets| && x != id ==> PutLocal(w, id, m).tickets[x] == w.tickets[x]
  {}

  /** What driver `d` does after a check of its ticket, pending or not. */
  ghost predicate Told(v: World, d: nat, r: LaunchStep, dup: bool) {
    && d < |v.drivers| && v.drivers[d].id < |v.tickets|
    && var t, pc := v.tickets[v.drivers[d].id], v.drivers[d].pc;
       && (r != PENDING ==> pc == Returned(r))
       && (r == PENDING && t.state == SUBMITTED ==> pc == Sleeping)
       && (r == PENDING && t.state != SUBMITTED && !dup ==> pc == Returned(ERROR))
       && (r == PENDING && t.state != SUBMITTED && dup ==>
             pc.Polling? && pc.of == (if t.state == LAUNCHING then t.fds.err else t.fds.pid))
       && (r == PENDING ==> t.step == PENDING)
       && (r != PENDING && r != ERROR ==> t.step == r)
       && (r == ERROR ==> t.step == PENDING || t.state == DISPOSED)
  }

  ghost predicate OthersKept(w: World, d: nat, v: World) {
    && |v.drivers| >= |w.drivers|
    && forall x :: 0 <= x < |w.drivers| && x != d ==> v.drivers[x] == w.drivers[x]
  }

  lemma DriveTells(w: World, d: nat, a: Answers, dup: bool)
    requires Core(w) && !w.lock.Submitting? && d < |w.drivers| && Callable(w, w.drivers[d].id, a)
    ensures var v := Drive(w, d, a, dup);
            Told(v, d, Verdict(w, w.drivers[d].id, a), dup) && OthersKept(w, d, v) && v.drivers[d].id == w.drivers[d].id
  {
    hide Core, CheckTicket, Verdict, Answered;
    var id := w.drivers[d].id;
    TicketChecked(w, id, a);
    CheckTicketKeeps(w, id, a);
    var (r, u) := CheckTicket(w, id, a);
    if r == PENDING && u.tickets[id].state != SUBMITTED { DupTarget(u, id); }
  }

  /** The driver a turn is for. */
  function TurnOf(w: World, e: Event): nat {
    match e
    case DriveResume(d, _, _) => d
    case DriveWake(d, _) => d
    case _ => |w.drivers|
  }

  lemma BeginTells(w: World, id: nat, a: Answers, dup: bool)
    requires Inv(w) && w.lock == Unlocked && Callable(w, id, a)
    ensures var d, v := |w.drivers|, Drive(Begin(w, id), |w.drivers|, a, dup);
            Told(v, d, Verdict(w, id, a), dup) && OthersKept(w, d, v) && v.drivers[d].id == id
  {
    hide Core, Drive, Verdict, Told;
    BeginKeeps(w, id);
    DriveTells(Begin(w, id), |w.drivers|, a, dup);
    assert Verdict(Begin(w, id), id, a) == Verdict(w, id, a) by { BeginVerdict(w, id, a); }
  }

  lemma BeginVerdict(w: World, id: nat, a: Answers)
    requires HasSlot(w, id)
    ensures HasSlot(Begin(w, id), id) && Verdict(Begin(w, id), id, a) == Verdict(w, id, a)
  {
    assert GetLocal(Begin(w, id), id) == GetLocal(w, id);
    hide Checked;
  }

  lemma BeginIs(w: World, id: nat, a: Answers, dup: bool)
    requires Enabled(w, DriveBegin(id, a, dup))
    ensures w.lock == Unlocked && Callable(w, id, a)
    ensures HasSlot(Begin(w, id), id) && Apply(w, DriveBegin(id, a, dup)) == Drive(Begin(w, id), |w.drivers|, a, dup)
  {
    hide Drive;
  }

  ghost predicate PollFailed(w: World, d: nat) {
    && d < |w.drivers| && w.drivers[d].id < |w.tickets|
    && w.drivers[d].pc == Woken(WakeError) && w.tickets[w.drivers[d].id].step == PENDING
  }

  lemma ResumeIs(w: World, d: nat, a: Answers, dup: bool)
    requires Enabled(w, DriveResume(d, a, dup))
    ensures w.lock == Unlocked && d < |w.drivers| && Callable(w, w.drivers[d].id, a)
    ensures Apply(w, DriveResume(d, a, dup)) ==
              if PollFailed(w, d) then SetPc(w, d, Returned(ERROR)) else Drive(w, d, a, dup)
  {
    hide Drive;
  }

  lemma DirectIs(w: World, inputs: Inputs, works: seq<WorkAnswers>, a: Answers, dup: bool)
    requires Enabled(w, DirectStart(inputs, works, a, dup))
    ensures w.lock == Unlocked && DirectBench(w, inputs, works).stage == Publish && ReadFits(NEW_OWNER, a.read)
    ensures forall id :: 0 <= id < |w.tickets| ==> HasSlot(w, id)
    ensures Apply(w, DirectStart(inputs, works, a, dup)) == Direct(w, inputs, works, a, dup)
  {
    hide Direct, DirectBench;
  }

  // ----- Over all runs

  /** In every reachable state a blocking start that begins is told exactly what its check found: the verdict once there
      is one; ERROR when the check failed, or when the descriptor to poll cannot be duplicated; otherwise it sleeps
      while the worker has the launch, and polls its own ticket's handshake pipe, or pidfd, after that. */
  lemma BeginTold(es: seq<Event>, id: nat, a: Answers, dup: bool)
    requires Legal(INIT, es) && Enabled(After(INIT, es), DriveBegin(id, a, dup))
    ensures var w, v := After(INIT, es), Apply(After(INIT, es), DriveBegin(id, a, dup));
            var d := |w.drivers|;
            && HasSlot(w, id) && Told(v, d, Verdict(w, id, a), dup) && v.drivers[d].id == id && OthersKept(w, d, v)
  {
    ReachableInv(es);
    hide Legal, After, Inv, Enabled, Apply, Told, Verdict, Drive;
    var w := After(INIT, es);
    BeginIs(w, id, a, dup);
    BeginTells(w, id, a, dup);
  }

  /** So is one that goes on after its sleep or its poll; if the poll had failed and the launch is still pending, the
      answer is ERROR and nothing is checked. */
  lemma ResumeTold(es: seq<Event>, d: nat, a: Answers, dup: bool)
    requires Legal(INIT, es) && Enabled(After(INIT, es), DriveResume(d, a, dup))
    ensures var w, v := After(INIT, es), Apply(After(INIT, es), DriveResume(d, a, dup));
            && d < |w.drivers| && HasSlot(w, w.drivers[d].id) && OthersKept(w, d, v)
            && if PollFailed(w, d) then v == SetPc(w, d, Returned(ERROR))
               else Told(v, d, Verdict(w, w.drivers[d].id, a), dup) && v.drivers[d].id == w.drivers[d].id
  {
    ReachableInv(es);
    hide Legal, After, Enabled, Apply, Told, Verdict, Drive, Core, PollFailed;
    var w := After(INIT, es);
    ResumeIs(w, d, a, dup);
    if !PollFailed(w, d) { DriveTells(w, d, a, dup); }
  }

  /** A direct start that makes no child leaves tickets, drivers and list alone; one that does is told what the first
      read of the handshake says. */
  lemma DirectTold(es: seq<Event>, inputs: Inputs, works: seq<WorkAnswers>, a: Answers, dup: bool)
    requires Legal(INIT, es) && Enabled(After(INIT, es), DirectStart(inputs, works, a, dup))
    ensures var w, v := After(INIT, es), Apply(After(INIT, es), DirectStart(inputs, works, a, dup));
            var d, id, b := |w.drivers|, |w.tickets|, DirectBench(w, inputs, works);
            if !b.native.created then v.tickets == w.tickets && v.drivers == w.drivers && v.roots == w.roots
            else
              && OthersKept(w, d, v) && d < |v.drivers| && v.drivers[d].id == id
              && Told(v, d, FirstAnswer(a), dup)
  {
    ReachableInv(es);
    hide Legal, After, Enabled, Apply, Told, Verdict, Drive, DirectBench, Core, Launched;
    var w := After(INIT, es);
    DirectIs(w, inputs, works, a, dup);
    var b := DirectBench(w, inputs, works);
    DirectCore(w, inputs, works);
    if b.native.created {
      LaunchedDrive(w, b, inputs, a, dup);
    } else {
      assert Launched(w, b, inputs) == w.(os := b.os) by { NotLaunched(w, b, inputs); }
    }
  }

  /** The first check of a child just created. */
  ghost function FirstAnswer(a: Answers): LaunchStep {
    if Refuses(0, a.read) then Reaping(false, false, a) else if a.read.ReadEof? then OWNED else PENDING
  }

  lemma NotLaunched(w: World, b: Bench, inputs: Inputs)
    requires !b.native.created
    ensures Launched(w, b, inputs) == w.(os := b.os)
  {}

  lemma LaunchedDrive(w: World, b: Bench, inputs: Inputs, a: Answers, dup: bool)
    requires b.native.created && Core(Launched(w, b, inputs)) && w.lock == Unlocked && ReadFits(NEW_OWNER, a.read)
    ensures var x, id, d := Launched(w, b, inputs), |w.tickets|, |w.drivers|;
            && HasSlot(Begin(x, id), id)
            && var v := Drive(Begin(x, id), |x.drivers|, a, dup);
               && OthersKept(w, d, v) && d < |v.drivers| && v.drivers[d].id == id
               && Told(v, d, FirstAnswer(a), dup)
  {
    hide Core, Drive, Told;
    var x, id := Launched(w, b, inputs), |w.tickets|;
    BeginKeeps(x, id);
    var y := Begin(x, id);
    DriveTells(y, |x.drivers|, a, dup);
    assert GetLocal(y, id).t == NEW_OWNER.(state := LAUNCHING, fds := b.native.fds, asked := inputs);
    hide Reaping, Refuses;
  }

  /** When the poll is over the driver goes on to its next turn, and no other step moves a driver. */
  lemma OnlyOwnTurn(es: seq<Event>, e: Event)
    requires Legal(INIT, es) && Enabled(After(INIT, es), e) && !e.DirectStart? && !e.DriveBegin? && !e.DriveResume?
    ensures var w, v := After(INIT, es), Apply(After(INIT, es), e);
            if e.DriveWake?
            then e.driver < |w.drivers| && v.drivers == w.drivers[e.driver := w.drivers[e.driver].(pc := Woken(e.wake))]
            else v.drivers == w.drivers
  {
    hide Legal, After;
    DriversStay(After(INIT, es), e);
    hide Apply, Enabled;
  }

  lemma DriversStay(w: World, e: Event)
    requires Enabled(w, e) && !e.DirectStart? && !e.DriveBegin? && !e.DriveResume?
    ensures var v := Apply(w, e);
            if e.DriveWake?
            then e.driver < |w.drivers| && v.drivers == w.drivers[e.driver := w.drivers[e.driver].(pc := Woken(e.wake))]
            else v.drivers == w.drivers
  {
    hide CheckStart, FinishAbort, RequestStop, Launch.PollExit, Launch.CloseStdin, Launch.Dispose, GetLocal, Work,
         FirstFree, Without;
  }

  /** Read off the ticket: a turn that leaves a verdict on an undisposed ticket returns it, only such a turn returns
      one, and ERROR is for failed checks and descriptors that cannot be duplicated. */
  lemma ToldVerdict(v: World, d: nat, r: LaunchStep, dup: bool)
    requires Told(v, d, r, dup)
    ensures var t, pc := v.tickets[v.drivers[d].id], v.drivers[d].pc;
            && (t.step != PENDING && t.state != DISPOSED ==> pc == Returned(t.step))
            && (pc.Returned? && pc.step != ERROR ==> pc.step == t.step != PENDING)
            && (pc == Returned(ERROR) <==> r == ERROR || (r == PENDING && t.state != SUBMITTED && !dup))
  {}

  // ----- Kills

  /** A pending ticket that counts as signalled had its kill: it was delivered, or there was no process left. */
  ghost predicate SentAt(t: Ticket, os: Os) {
    t.step == PENDING && t.signalled ==> t.state != SUBMITTED && (t.fds.pid in os.killed || t.fds.pid in os.absent)
  }

  ghost predicate Sent(w: World) {
    forall id :: 0 <= id < |w.tickets| ==> SentAt(w.tickets[id], w.os)
  }

  lemma PutSent(w: World, id: nat, m: Local)
    requires Sent(w) && HasSlot(w, id) && w.os.killed <= m.os.killed && w.os.absent <= m.os.absent && SentAt(m.t, m.os)
    ensures Sent(PutLocal(w, id, m))
  {
    var v := PutLocal(w, id, m);
    forall x | 0 <= x < |v.tickets| ensures SentAt(v.tickets[x], v.os) {
      assert x != id ==> SentAt(w.tickets[x], w.os);
    }
  }

  lemma KernelGrows(l: Local, m: Local)
    requires Moves(l, m)
    ensures l.os.killed <= m.os.killed && l.os.absent <= m.os.absent
  {
    hide Balanced, TicketMoves, SlotMoves, OwnChildren;
  }

  lemma OperationSent(w: World, id: nat, m: Local)
    requires Sent(w) && HasSlot(w, id) && Moves(GetLocal(w, id), m) && SentAt(m.t, m.os)
    ensures Sent(PutLocal(w, id, m))
  {
    assert GetLocal(w, id).os == w.os;
    hide Moves, Sent, SentAt, GetLocal, PutLocal;
    KernelGrows(GetLocal(w, id), m);
    PutSent(w, id, m);
  }

  lemma ResultSent(l: Local, a: Answers, r: LaunchStep, m: Local)
    requires Result(l, a, r, m) && l.t.step == PENDING && SentAt(l.t, l.os)
             && (l.t.state == SUBMITTED ==> !l.t.signalled)
    requires m.t.state == SUBMITTED ==> !m.t.signalled
    ensures SentAt(m.t, m.os)
  {
    hide Checked, Reason;
  }

  lemma CheckSent(w: World, id: nat, a: Answers)
    requires Core(w) && Sent(w) && Callable(w, id, a)
    ensures Sent(CheckTicket(w, id, a).1)
  {
    assert SentAt(w.tickets[id], w.os);
    hide Core, LocalInv, CheckStart, Result, Sent, Moves, SentAt, Answered;
    CoreAt(w, id);
    LocalTicket(w, id);
    var l := GetLocal(w, id);
    var m := CheckStart(id, l, a).1;
    assert l.os == w.os;
    CheckStartKeeps(id, l, a);
    CheckOutcome(id, l, a);
    PendingStates(id, l);
    PendingStates(id, m);
    if l.t.step == PENDING { ResultSent(l, a, CheckStart(id, l, a).0, m); }
    hide GetLocal, PutLocal;
    OperationSent(w, id, m);
  }

  lemma SentOn(w: World, v: World)
    requires Sent(w) && v.tickets == w.tickets && w.os.killed <= v.os.killed && w.os.absent <= v.os.absent
    ensures Sent(v)
  {
    forall id | 0 <= id < |v.tickets| ensures SentAt(v.tickets[id], v.os) { assert SentAt(w.tickets[id], w.os); }
  }

  lemma TicketSent(w: World, id: nat)
    requires Sent(w) && id < |w.tickets|
    ensures SentAt(w.tickets[id], w.os)
  {}

  lemma AbortSent(w: World, id: nat, a: Answers)
    requires Enabled(w, AbortBegin(id, a)) && Core(w) && Sent(w)
    ensures Sent(Apply(w, AbortBegin(id, a)))
  {
    hide Core, LocalInv, FinishAbort, Sent, Moves, SentAt, Answered, RequestStop, Enabled, Apply, PutLocal, GetLocal;
    ApplyAbortBegin(w, id, a);
    TicketSent(w, id);
    CoreAt(w, id);
    LocalTicket(w, id);
    var l := GetLocal(w, id);
    PendingStates(id, l);
    if l.t.state == SUBMITTED {
      RequestStopKeeps(id, l);
      StopSent(l);
      OperationSent(w, id, RequestStop(l));
      SentOn(PutLocal(w, id, RequestStop(l)), PutLocal(w, id, RequestStop(l)).(lock := Stopping(id)));
    } else {
      AbortKeeps(id, l, a);
      if l.t.step == PENDING {
        AbortOutcome(id, l, a);
        AbortedSent(l, a, FinishAbort(id, RequestStop(l), a).0, FinishAbort(id, RequestStop(l), a).1);
      } else {
        OwnerKept(id, l, FinishAbort(id, RequestStop(l), a).1);
      }
      OperationSent(w, id, FinishAbort(id, RequestStop(l), a).1);
    }
  }

  lemma StopSent(l: Local)
    requires l.t.state == SUBMITTED && !l.t.signalled
    ensures SentAt(RequestStop(l).t, RequestStop(l).os)
  {}

  lemma AbortedSent(l: Local, a: Answers, r: LaunchStep, m: Local)
    requires SentAt(l.t, l.os) && l.t.step == PENDING
    requires m.os.killed == l.os.killed + (if !l.t.signalled && a.kill.Delivered? then {l.t.fds.pid} else {})
    requires m.os.absent == l.os.absent + (if !l.t.signalled && a.kill.NoProcess? then {l.t.fds.pid} else {})
    requires m.t.signalled == (l.t.signalled || !a.kill.KillError?) && m.t.step == (if r == ERROR then PENDING else r)
    requires r == PENDING || r == ERROR ==> m.t.state != SUBMITTED && m.t.fds.pid == l.t.fds.pid
    ensures SentAt(m.t, m.os)
  {}

  /** The calls that concern only an owned process. */
  lemma OwnerSent(w: World, e: Event)
    requires (e.PollExit? || e.CloseStdin? || e.Dispose?) && Enabled(w, e) && Core(w) && Sent(w)
    ensures Sent(Apply(w, e))
  {
    hide Core, LocalInv, Sent, Moves, SentAt, Launch.PollExit, Launch.CloseStdin, Launch.Dispose, PutLocal, FirstError,
         Enabled, Apply, GetLocal;
    var id := e.id;
    match e {
      case PollExit(_, wait) => ApplyPollExit(w, id, wait);
      case CloseStdin(_, errno) => ApplyCloseStdin(w, id, errno);
      case Dispose(_, es) => ApplyDispose(w, id, es);
    }
    TicketSent(w, id);
    CoreAt(w, id);
    LocalTicket(w, id);
    var l := GetLocal(w, id);
    match e
    case PollExit(_, wait) =>
      PollExitKeeps(id, l, wait);
      OwnerKept(id, l, Launch.PollExit(l, wait).1);
      OperationSent(w, id, Launch.PollExit(l, wait).1);
    case CloseStdin(_, errno) =>
      CloseStdinKeeps(id, l, errno);
      OwnerKept(id, l, Launch.CloseStdin(l, errno).1);
      OperationSent(w, id, Launch.CloseStdin(l, errno).1);
    case Dispose(_, es) =>
      DisposeKeeps(id, l, es);
      OwnerKept(id, l, Launch.Dispose(l, es).1);
      OperationSent(w, id, Launch.Dispose(l, es).1);
  }

  lemma OwnerKept(id: nat, l: Local, m: Local)
    requires SentAt(l.t, l.os) && Moves(l, m) && (l.t.step == PENDING ==> m == l)
    ensures SentAt(m.t, m.os)
  {
    hide Balanced, KernelMoves, SlotMoves;
  }

  lemma AbortEndSent(w: World, a: Answers)
    requires Enabled(w, AbortEnd(a)) && Inv(w) && Sent(w)
    ensures Sent(Apply(w, AbortEnd(a)))
  {
    hide Inv, Core, LocalInv, FinishAbort, Sent, Moves, SentAt, Answered, Enabled, Apply, PutLocal, GetLocal, Result;
    ApplyAbortEnd(w, a);
    var id := w.lock.id;
    StoppedTicket(w);
    TicketSent(w, id);
    CoreAt(w, id);
    LocalTicket(w, id);
    var l := GetLocal(w, id);
    PendingStates(id, l);
    FinishAbortKeeps(id, l, a);
    AbortEndOutcome(id, l, a);
    var m := FinishAbort(id, l, a).1;
    PendingStates(id, m);
    ResultSent(l, a, FinishAbort(id, l, a).0, m);
    OperationSent(w, id, m);
    SentOn(PutLocal(w, id, m), PutLocal(w, id, m).(lock := Unlocked));
  }

  /** Only new tokens become children, and nobody is killed. */
  lemma GrowsSent(w: World, v: World)
    requires Sent(w) && v.tickets == w.tickets && Grows(w.os, v.os)
    ensures Sent(v)
  {
    assert w.os.killed == v.os.killed && w.os.absent == v.os.absent;
    hide Grows, Sent;
    SentOn(w, v);
  }

  lemma WorkerSent(w: World, e: Event)
    requires (e.WorkerWake? || e.WorkerScan? || e.WorkerWork? || e.WorkerPublish?) && Enabled(w, e) && Core(w)
             && Sent(w)
    ensures Sent(Apply(w, e))
  {
    hide Core, Sent, Grows;
    match e
    case WorkerWake => SentOn(w, Apply(w, e));
    case WorkerScan => SentOn(w, Apply(w, e));
    case WorkerPublish => SentOn(w, Apply(w, e));
    case WorkerWork(a) =>
      WorkGrowing(w, a);
      hide Step;
      GrowsSent(w, Step(w, a));
  }

  lemma WorkGrowing(w: World, a: WorkAnswers)
    requires Core(w) && w.worker.Busy? && w.worker.slot < |w.slots| && w.worker.stage != Publish
    ensures Step(w, a).tickets == w.tickets && Grows(w.os, Step(w, a).os)
  {
    hide Accounted, TicketsOk, SlotsOk, HomesOk, RootsOk, QueueOk, DriversOk, Sane, BenchInv, BenchMoves, StageOk,
         NoChildren, NativeDone, BenchHeld, WorkerOk, Grows, Work;
    var q, b := w.slots[w.worker.slot], WorkerBench(w);
    StepIs(w, a);
    WorkerBenchInv(w);
    WorkKeeps(b, q.inputs.value, q.stop, a);
    WorkGrows(b, Work(b, q.inputs.value, q.stop, a));
    hide Step;
  }

  lemma AppendSent(w: World, v: World, t: Ticket)
    requires Sent(w) && v.tickets == w.tickets + [t] && !t.signalled
    requires w.os.killed <= v.os.killed && w.os.absent <= v.os.absent
    ensures Sent(v)
  {
    forall id | 0 <= id < |v.tickets| ensures SentAt(v.tickets[id], v.os) {
      assert id < |w.tickets| ==> SentAt(w.tickets[id], w.os);
    }
  }

  lemma SubmitSent(w: World, e: Event)
    requires (e.SubmitFill? || e.SubmitPublish? || e.SubmitPost?) && Enabled(w, e) && Sent(w)
    ensures Sent(Apply(w, e))
  {
    hide Sent, FirstFree;
    match e
    case SubmitFill(inputs) =>
      var v := Fill(w, inputs);
      AppendSent(w, v, v.tickets[|w.tickets|]);
    case SubmitPublish => SentOn(w, Apply(w, e));
    case SubmitPost => SentOn(w, Apply(w, e));
  }

  lemma BlockSent(v: World, d: nat, r: LaunchStep, dup: bool)
    requires d < |v.drivers| && v.drivers[d].id < |v.tickets| && Sent(v)
    ensures Sent(Block(v, d, r, dup))
  {
    hide Sent;
    SentOn(v, Block(v, d, r, dup));
  }

  lemma DriveSent(w: World, d: nat, a: Answers, dup: bool)
    requires Core(w) && Sent(w) && d < |w.drivers| && Callable(w, w.drivers[d].id, a)
    ensures Sent(Drive(w, d, a, dup))
  {
    hide Core, Sent, CheckTicket, Block;
    var id := w.drivers[d].id;
    CheckSent(w, id, a);
    TicketChecked(w, id, a) by { hide Sent, Verdict; }
    var (r, v) := CheckTicket(w, id, a);
    BlockSent(v, d, r, dup);
  }

  lemma DirectSent(w: World, inputs: Inputs, works: seq<WorkAnswers>, a: Answers, dup: bool)
    requires w.lock == Unlocked && DirectBench(w, inputs, works).stage == Publish && ReadFits(NEW_OWNER, a.read)
    requires Core(w) && Sent(w)
    requires forall id :: 0 <= id < |w.tickets| ==> HasSlot(w, id)
    ensures Sent(Direct(w, inputs, works, a, dup))
  {
    hide Core, Sent, DirectBench, Drive, Sane, NativeDone, Held, Grows, Launched;
    var b, id := DirectBench(w, inputs, works), |w.tickets|;
    CoreSane(w);
    DirectBenchIs(w, inputs, works);
    DirectCore(w, inputs, works);
    GrownKills(w.os, b.os);
    var v := Launched(w, b, inputs);
    LaunchedSent(w, b, inputs);
    if b.native.created { FirstSent(w, b, inputs, a, dup); }
  }

  lemma LaunchedSent(w: World, b: Bench, inputs: Inputs)
    requires Sent(w) && b.os.killed == w.os.killed && b.os.absent == w.os.absent
    ensures Sent(Launched(w, b, inputs))
  {
    hide Sent;
    var v := Launched(w, b, inputs);
    if b.native.created { AppendSent(w, v, v.tickets[|w.tickets|]); } else { SentOn(w, v); }
  }

  lemma FirstSent(w: World, b: Bench, inputs: Inputs, a: Answers, dup: bool)
    requires b.native.created && ReadFits(NEW_OWNER, a.read)
    requires Core(Launched(w, b, inputs)) && Sent(Launched(w, b, inputs))
    ensures var v, id := Launched(w, b, inputs), |w.tickets|;
            HasSlot(Begin(v, id), id) && Sent(Drive(Begin(v, id), |v.drivers|, a, dup))
  {
    hide Core, Sent, Drive;
    var v, id := Launched(w, b, inputs), |w.tickets|;
    BeginKeeps(v, id);
    SentOn(v, Begin(v, id));
    DriveSent(Begin(v, id), |v.drivers|, a, dup);
  }

  lemma GrownKills(k: Os, k2: Os)
    requires Grows(k, k2)
    ensures k2.killed == k.killed && k2.absent == k.absent
  {}

  lemma DriverSent(w: World, e: Event)
    requires (e.DirectStart? || e.DriveBegin? || e.DriveWake? || e.DriveResume?) && Enabled(w, e) && Core(w) && Sent(w)
    ensures Sent(Apply(w, e))
  {
    hide Core, Sent, Drive, Direct, DirectBench;
    match e
    case DirectStart(inputs, works, a, dup) => DirectSent(w, inputs, works, a, dup);
    case DriveBegin(id, a, dup) =>
      BeginKeeps(w, id);
      SentOn(w, Begin(w, id));
      DriveSent(Begin(w, id), |w.drivers|, a, dup);
    case DriveWake(d, wake) => SentOn(w, WakeUp(w, d, wake));
    case DriveResume(d, a, dup) =>
      if PollFailed(w, d) { SentOn(w, SetPc(w, d, Returned(ERROR))); } else { DriveSent(w, d, a, dup); }
  }

  lemma StepSent(w: World, e: Event)
    requires Inv(w) && Enabled(w, e) && Sent(w)
    ensures Sent(Apply(w, e))
  {
    hide Core, Sent, Apply, Enabled, LockOk;
    match e
    case SubmitFill(_) => SubmitSent(w, e);
    case SubmitPublish => SubmitSent(w, e);
    case SubmitPost => SubmitSent(w, e);
    case WorkerWake => WorkerSent(w, e);
    case WorkerScan => WorkerSent(w, e);
    case WorkerWork(_) => WorkerSent(w, e);
    case WorkerPublish => WorkerSent(w, e);
    case Check(id, a) =>
      ApplyCheck(w, id, a);
      CheckSent(w, id, a);
    case AbortBegin(id, a) => AbortSent(w, id, a);
    case AbortEnd(a) => AbortEndSent(w, a);
    case DirectStart(_, _, _, _) => DriverSent(w, e);
    case DriveBegin(_, _, _) => DriverSent(w, e);
    case DriveWake(_, _) => DriverSent(w, e);
    case DriveResume(_, _, _) => DriverSent(w, e);
    case PollExit(_, _) => OwnerSent(w, e);
    case CloseStdin(_, _) => OwnerSent(w, e);
    case Dispose(_, _) => OwnerSent(w, e);
  }

  lemma {:induction false} RunSent(w: World, es: seq<Event>)
    requires Inv(w) && Legal(w, es) && Sent(w)
    ensures Sent(After(w, es))
    decreases |es|
  {
    hide Inv, Enabled, Apply, Sent;
    if es != [] {
      Inductive(w, es[0]);
      StepSent(w, es[0]);
      RunSent(Apply(w, es[0]), es[1..]);
    }
  }

  /** In every reachable state a pending ticket that counts as signalled has had its child sent SIGKILL, or the kill
      found no process; a failing or aborting child is not merely waited for. */
  lemma SignalledIsKilled(es: seq<Event>, id: nat)
    requires Legal(INIT, es) && id < |After(INIT, es).tickets|
    ensures var w := After(INIT, es);
            var t := w.tickets[id];
            t.step == PENDING && t.signalled ==> t.fds.pid in w.os.killed || t.fds.pid in w.os.absent
  {
    hide Legal, After, Inv;
    InitInv();
    RunSent(INIT, es);
    assert SentAt(After(INIT, es).tickets[id], After(INIT, es).os);
  }
}
