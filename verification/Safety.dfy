/** The invariant holds in every reachable state, and what it means: slot ownership, launch data, descriptors, the
    list. */
module Safety {
  import opened Kernel
  import opened Launch
  import opened LaunchLocal
  import Construct
  import opened Protocol
  import opened Accounting
  import opened Invariant
  import opened TicketSteps
  import opened WorkerSteps
  import opened SubmitSteps
  import opened DriverSteps

  // ----- The invariant is inductive

  lemma Relock(w: World, lock: Lock)
    requires !w.lock.Submitting? && !lock.Submitting? && Core(w)
    ensures Core(w.(lock := lock))
  {
    hide HomesOk, RootsOk, QueueOk, DriversOk, Sane, Construct.StageOk, Construct.NoChildren, NativeDone, AllHeld,
         TicketOk;
    var v := w.(lock := lock);
    assert AllHeld(v) == AllHeld(w) by { SameTotals(w, v); }
    forall j | 0 <= j < |v.slots| ensures SlotOk(j, v.slots[j], Claimed(v, j), BusyAt(v.worker, j), v.tickets) {
      assert SlotOk(j, w.slots[j], Claimed(w, j), BusyAt(w.worker, j), w.tickets);
    }
    hide SlotOk;
  }

  lemma SameTotals(w: World, v: World)
    requires v == w.(lock := v.lock)
    ensures AllHeld(v) == AllHeld(w)
  {
    hide Total, Construct.KitHeld;
  }

  /** What the lock's holder relies on survives the steps that need no lock. */
  lemma LockKept(w: World, v: World)
    requires LockOk(w) && v.lock == w.lock && v.tickets == w.tickets && |v.slots| == |w.slots|
    requires forall i :: 0 <= i < |w.slots| && w.slots[i].phase == Free ==> v.slots[i] == w.slots[i]
    ensures LockOk(v)
  {}

  lemma WorkerEvent(w: World, e: Event)
    requires (e.WorkerWake? || e.WorkerScan? || e.WorkerWork? || e.WorkerPublish?) && Enabled(w, e) && Inv(w)
    ensures Inv(Apply(w, e))
  {
    hide Core, LockOk, Scan, Step, Finish;
    match e
    case WorkerWake => WakeKeeps(w);
    case WorkerScan =>
      ScanKeeps(w);
      assert LockOk(Scan(w)) by { ScanFrame(w); LockKept(w, Scan(w)); }
    case WorkerWork(a) =>
      StepKeeps(w, a);
      assert LockOk(Step(w, a)) by { BusySlot(w); StepFrame(w, a); LockKept(w, Step(w, a)); }
    case WorkerPublish =>
      FinishKeeps(w);
      assert LockOk(Finish(w)) by { BusySlot(w); FinishFrame(w); LockKept(w, Finish(w)); }
  }

  lemma CoreSane(w: World)
    requires Core(w)
    ensures Sane(w.os)
  {
    hide Accounted, TicketsOk, SlotsOk, HomesOk, RootsOk, QueueOk, DriversOk, Sane, WorkerOk;
  }

  lemma BusySlot(w: World)
    requires w.worker.Busy? && w.worker.slot < |w.slots| && Core(w)
    ensures w.slots[w.worker.slot].phase == Working
  {
    hide Accounted, TicketsOk, SlotsOk, HomesOk, RootsOk, QueueOk, DriversOk, Sane, WorkerOk;
    CoreWorker(w);
  }

  lemma ScanFrame(w: World)
    requires w.worker.Scanning? && |w.slots| == SLOTS
    ensures var v := Scan(w);
            && v.lock == w.lock && v.tickets == w.tickets && |v.slots| == |w.slots|
            && forall i :: 0 <= i < |w.slots| && w.slots[i].phase == Free ==> v.slots[i] == w.slots[i]
  {}

  lemma StepFrame(w: World, a: Construct.WorkAnswers)
    requires w.worker.Busy? && w.worker.slot < |w.slots| && w.slots[w.worker.slot].phase == Working
    ensures var v := Step(w, a);
            && v.lock == w.lock && v.tickets == w.tickets && |v.slots| == |w.slots|
            && forall i :: 0 <= i < |w.slots| && w.slots[i].phase == Free ==> v.slots[i] == w.slots[i]
  {
    hide Construct.Work;
  }

  lemma FinishFrame(w: World)
    requires w.worker.Busy? && w.worker.slot < |w.slots| && w.slots[w.worker.slot].phase == Working
    ensures var v := Finish(w);
            && v.lock == w.lock && v.tickets == w.tickets && |v.slots| == |w.slots|
            && forall i :: 0 <= i < |w.slots| && w.slots[i].phase == Free ==> v.slots[i] == w.slots[i]
  {}

  /** An operation on a ticket with the lock free. */
  lemma OperationKeeps(w: World, id: nat, m: Local)
    requires id < |w.tickets| && HasSlot(w, id) && w.lock == Unlocked && Core(w)
    requires LocalInv(id, m) && Moves(GetLocal(w, id), m)
    ensures Inv(PutLocal(w, id, m))
  {
    hide LocalInv, Moves, Core;
    assert !GetLocal(w, id).unrooted;
    PutKeeps(w, id, m);
  }

  lemma TicketEvent(w: World, e: Event)
    requires (e.Check? || e.AbortBegin? || e.PollExit? || e.CloseStdin? || e.Dispose?) && Enabled(w, e) && Inv(w)
    ensures Inv(Apply(w, e))
  {
    hide Core, LocalInv, Moves, CheckStart, FinishAbort, Launch.PollExit, Launch.CloseStdin, Launch.Dispose, PutLocal,
         RequestStop, Answered;
    var id := e.id;
    CoreAt(w, id);
    var l := GetLocal(w, id);
    assert l.t == w.tickets[id];
    hide GetLocal;
    match e
    case Check(_, a) =>
      CheckStartKeeps(id, l, a);
      OperationKeeps(w, id, CheckStart(id, l, a).1);
    case AbortBegin(_, a) =>
      if l.t.state == SUBMITTED { StopKeeps(w, id); } else {
        AbortKeeps(id, l, a);
        OperationKeeps(w, id, FinishAbort(id, RequestStop(l), a).1);
      }
    case PollExit(_, wait) =>
      PollExitKeeps(id, l, wait);
      OperationKeeps(w, id, Launch.PollExit(l, wait).1);
    case CloseStdin(_, e) =>
      CloseStdinKeeps(id, l, e);
      OperationKeeps(w, id, Launch.CloseStdin(l, e).1);
    case Dispose(_, es) =>
      DisposeKeeps(id, l, es);
      OperationKeeps(w, id, Launch.Dispose(l, es).1);
  }

  /** The first half of aborting a SUBMITTED ticket: the lock stays with the abort. */
  lemma StopKeeps(w: World, id: nat)
    requires id < |w.tickets| && HasSlot(w, id) && w.lock == Unlocked && w.tickets[id].state == SUBMITTED && Core(w)
    ensures Inv(PutLocal(w, id, RequestStop(GetLocal(w, id))).(lock := Stopping(id)))
  {
    hide Core, LocalInv, Moves;
    CoreAt(w, id);
    var l := GetLocal(w, id);
    var m := RequestStop(l);
    RequestStopKeeps(id, l);
    PutKeeps(w, id, m);
    assert m.t.state == SUBMITTED && m.t.stopRequested;
    Relock(PutLocal(w, id, m), Stopping(id));
  }

  /** What the second half of an abort starts from. */
  lemma StoppedTicket(w: World)
    requires w.lock.Stopping? && Inv(w)
    ensures Core(w) && w.lock.id < |w.tickets|
    ensures w.tickets[w.lock.id].state == SUBMITTED && w.tickets[w.lock.id].stopRequested
  {
    hide Core;
  }

  lemma AbortEndKeeps(w: World, a: Answers)
    requires Enabled(w, AbortEnd(a)) && Inv(w)
    ensures Inv(Apply(w, AbortEnd(a)))
  {
    hide Core, LocalInv, Moves, FinishAbort, Answered, GetLocal, Apply, Enabled;
    ApplyAbortEnd(w, a);
    StoppedTicket(w);
    var id := w.lock.id;
    LocalTicket(w, id);
    CoreAt(w, id);
    var l := GetLocal(w, id);
    FinishAbortKeeps(id, l, a);
    PutKeeps(w, id, FinishAbort(id, l, a).1);
    Relock(PutLocal(w, id, FinishAbort(id, l, a).1), Unlocked);
  }

  lemma SubmitEvent(w: World, e: Event)
    requires (e.SubmitFill? || e.SubmitPublish? || e.SubmitPost?) && Enabled(w, e) && Inv(w)
    ensures Inv(Apply(w, e))
  {
    hide Core, Fill, LockOk;
    match e
    case SubmitFill(inputs) => FillKeeps(w, inputs);
    case SubmitPublish => PublishKeeps(w);
    case SubmitPost => PostKeeps(w);
  }

  lemma DriveEvent(w: World, e: Event)
    requires (e.DirectStart? || e.DriveBegin? || e.DriveWake? || e.DriveResume?) && Enabled(w, e) && Inv(w)
    ensures Inv(Apply(w, e))
  {
    hide Core, Drive, Resume, Direct, DirectBench, WakeUp;
    match e
    case DirectStart(inputs, works, a, dup) => DirectKeeps(w, inputs, works, a, dup);
    case DriveBegin(id, a, dup) =>
      BeginKeeps(w, id);
      DriveKeeps(Begin(w, id), |w.drivers|, a, dup);
    case DriveWake(d, wake) =>
      WakeUpKeeps(w, d, wake);
      assert LockOk(WakeUp(w, d, wake)) by { WakeUpFrame(w, d, wake); LockKept(w, WakeUp(w, d, wake)); }
    case DriveResume(d, a, dup) => ResumeKeeps(w, d, a, dup);
  }

  lemma WakeUpFrame(w: World, d: nat, wake: Wake)
    requires d < |w.drivers| && w.drivers[d].pc.Polling?
    ensures var v := WakeUp(w, d, wake); v.lock == w.lock && v.tickets == w.tickets && v.slots == w.slots
  {}

  lemma Inductive(w: World, e: Event)
    requires Inv(w) && Enabled(w, e)
    ensures Inv(Apply(w, e))
  {
    hide Inv, Enabled, Apply;
    match e
    case SubmitFill(_) => SubmitEvent(w, e);
    case SubmitPublish => SubmitEvent(w, e);
    case SubmitPost => SubmitEvent(w, e);
    case WorkerWake => WorkerEvent(w, e);
    case WorkerScan => WorkerEvent(w, e);
    case WorkerWork(_) => WorkerEvent(w, e);
    case WorkerPublish => WorkerEvent(w, e);
    case Check(_, _) => TicketEvent(w, e);
    case AbortBegin(_, _) => TicketEvent(w, e);
    case AbortEnd(a) => AbortEndKeeps(w, a);
    case DirectStart(_, _, _, _) => DriveEvent(w, e);
    case DriveBegin(_, _, _) => DriveEvent(w, e);
    case DriveWake(_, _) => DriveEvent(w, e);
    case DriveResume(_, _, _) => DriveEvent(w, e);
    case PollExit(_, _) => TicketEvent(w, e);
    case CloseStdin(_, _) => TicketEvent(w, e);
    case Dispose(_, _) => TicketEvent(w, e);
  }

  lemma InitInv()
    ensures Inv(INIT)
  {
    NoneHeld();
    InitHeld(8);
    assert SlotsOk(INIT);
    assert QueuedCount(INIT.slots) == 0 by { InitQueued(8); }
  }

  lemma {:induction false} InitHeld(n: nat)
    ensures Total(seq(n, _ => EMPTY_SLOT), SlotsFds) == multiset{}
  {
    NoneHeld();
    if n > 0 {
      InitHeld(n - 1);
      assert seq(n, _ => EMPTY_SLOT)[..n - 1] == seq(n - 1, _ => EMPTY_SLOT);
    }
  }

  lemma {:induction false} InitQueued(n: nat)
    ensures QueuedCount(seq(n, _ => EMPTY_SLOT)) == 0
  {
    if n > 0 {
      InitQueued(n - 1);
      assert seq(n, _ => EMPTY_SLOT)[..n - 1] == seq(n - 1, _ => EMPTY_SLOT);
    }
  }

  lemma {:induction false} RunsKeep(w: World, es: seq<Event>)
    requires Inv(w) && Legal(w, es)
    ensures Inv(After(w, es))
    decreases |es|
  {
    hide Inv, Enabled, Apply;
    if es != [] {
      Inductive(w, es[0]);
      RunsKeep(Apply(w, es[0]), es[1..]);
    }
  }

  /** Every reachable state satisfies the invariant. */
  lemma ReachableInv(es: seq<Event>)
    requires Legal(INIT, es)
    ensures Inv(After(INIT, es))
  {
    InitInv();
    RunsKeep(INIT, es);
  }
}
