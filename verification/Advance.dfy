/** What one step may change of a ticket and of a slot, whoever takes it. */
module Advance {
  import opened Wrappers
  import opened Launch
  import opened LaunchLocal
  import Construct
  import opened Protocol
  import opened Invariant
  import opened TicketSteps
  import DriverSteps
  import opened Safety

  /** The existing ticket an event works on. */
  function Subject(w: World, e: Event): Option<nat> {
    match e
    case Check(id, _) => Some(id)
    case AbortBegin(id, _) => Some(id)
    case AbortEnd(_) => if w.lock.Stopping? then Some(w.lock.id) else None
    case DriveBegin(id, _, _) => Some(id)
    case DriveResume(d, _, _) => if d < |w.drivers| then Some(w.drivers[d].id) else None
    case PollExit(id, _) => Some(id)
    case CloseStdin(id, _) => Some(id)
    case Dispose(id, _) => Some(id)
    case _ => None
  }

  /** A verdict is final, an accepted abort is never forgotten, and slot and generation identify a ticket for good. */
  ghost predicate TicketAdvances(t: Ticket, u: Ticket) {
    && (t.step != PENDING ==> u.step == t.step)
    && (t.cancelled ==> u.cancelled)
    && u.home == t.home && u.generation == t.generation
  }

  /** The slot's cycle, and who may write what in which phase: the submitter while FREE, the worker while WORKING, the
      owner once DONE. */
  ghost predicate SlotAdvances(q: Slot, r: Slot, e: Event, byOwner: bool) {
    && (r.phase == q.phase
        || (q.phase == Free && r.phase == Queued && e.SubmitPublish?)
        || (q.phase == Queued && r.phase == Working && e.WorkerScan?)
        || (q.phase == Working && r.phase == Done && e.WorkerPublish?)
        || (q.phase == Done && r.phase == Free && byOwner))
    && (r.native != q.native ==>
          (q.phase == Free && e.SubmitFill?) || (q.phase == Working && e.WorkerWork?) || (q.phase == Done && byOwner))
    && (r.inputs != q.inputs || r.owner != q.owner ==>
          (q.phase == Free && e.SubmitFill?) || (q.phase == Done && byOwner))
    && (r.generation != q.generation ==> q.phase == Free && e.SubmitFill? && r.generation == q.generation + 1)
    && (r.stop != q.stop ==> (q.phase == Free && e.SubmitFill?) || (r.stop && byOwner))
  }

  ghost predicate Advances(w: World, e: Event, who: Option<nat>, v: World) {
    && |v.tickets| >= |w.tickets| && |v.slots| == |w.slots|
    && (forall id :: 0 <= id < |w.tickets| ==> TicketAdvances(w.tickets[id], v.tickets[id]))
    && (forall i :: 0 <= i < |w.slots| ==>
          SlotAdvances(w.slots[i], v.slots[i], e, w.slots[i].owner.Some? && w.slots[i].owner == who))
  }

  lemma SameAdvances(w: World, e: Event, who: Option<nat>, v: World)
    requires v.slots == w.slots && |v.tickets| >= |w.tickets| && v.tickets[..|w.tickets|] == w.tickets
    ensures Advances(w, e, who, v)
  {
    forall id | 0 <= id < |w.tickets| ensures v.tickets[id] == w.tickets[id] {
      assert v.tickets[..|w.tickets|][id] == w.tickets[id];
    }
  }

  lemma PutAdvances(w: World, e: Event, id: nat, m: Local)
    requires HasSlot(w, id) && TicketMoves(GetLocal(w, id), m) && SlotMoves(GetLocal(w, id), m)
    requires w.tickets[id].slot != 0 ==> w.slots[w.tickets[id].slot - 1].owner == Some(id)
    ensures Advances(w, e, Some(id), PutLocal(w, id, m))
  {}

  /** An operation with its frame, from a state of the protocol. */
  lemma OperationAdvances(w: World, e: Event, id: nat, m: Local)
    requires id < |w.tickets| && HasSlot(w, id) && Core(w) && Moves(GetLocal(w, id), m)
    ensures Advances(w, e, Some(id), PutLocal(w, id, m))
  {
    assert TicketMoves(GetLocal(w, id), m)
           && SlotMoves(GetLocal(w, id), m) by { hide Core, TicketMoves, SlotMoves, KernelMoves, Balanced; }
    hide Core, LocalInv, Moves, TicketMoves, SlotMoves, GetLocal, Advances, PutLocal;
    CoreAt(w, id);
    PutAdvances(w, e, id, m);
  }

  lemma CheckAdvances(w: World, e: Event, id: nat, a: Answers)
    requires Callable(w, id, a) && Core(w)
    ensures Advances(w, e, Some(id), CheckTicket(w, id, a).1)
  {
    hide Core, LocalInv, CheckStart, Moves, Advances, Answered;
    CoreAt(w, id);
    CheckStartKeeps(id, GetLocal(w, id), a);
    OperationAdvances(w, e, id, CheckStart(id, GetLocal(w, id), a).1);
  }

  lemma DriveAdvances(w: World, e: Event, d: nat, a: Answers, dup: bool)
    requires d < |w.drivers| && Callable(w, w.drivers[d].id, a) && Core(w)
    ensures Advances(w, e, Some(w.drivers[d].id), Drive(w, d, a, dup))
  {
    hide Core, CheckTicket;
    var id := w.drivers[d].id;
    CheckAdvances(w, e, id, a) by { hide Advances; }
    var v := CheckTicket(w, id, a).1;
    CheckFrame(w, id, a);
    var u := Drive(w, d, a, dup);
    assert u.slots == v.slots && u.tickets == v.tickets;
    hide Drive;
  }

  lemma CheckFrame(w: World, id: nat, a: Answers)
    requires HasSlot(w, id)
    ensures var v := CheckTicket(w, id, a).1;
            && v.drivers == w.drivers && |v.tickets| == |w.tickets| && v.tickets[..id] == w.tickets[..id]
            && (w.tickets[id].slot == 0 ==> v.slots == w.slots)
  {
    hide CheckStart;
  }

  lemma DirectAdvances(w: World, e: Event, inputs: Inputs, works: seq<Construct.WorkAnswers>, a: Answers, dup: bool)
    requires forall id :: 0 <= id < |w.tickets| ==> HasSlot(w, id)
    ensures Advances(w, e, None, Direct(w, inputs, works, a, dup))
  {
    hide DirectBench, CheckTicket, Advances;
    var b, id := DirectBench(w, inputs, works), |w.tickets|;
    var v, u := Launched(w, b, inputs), Direct(w, inputs, works, a, dup);
    if b.native.created {
      var x := Begin(v, id);
      CheckFrame(x, id, a);
      assert u.slots == w.slots && u.tickets[..id] == CheckTicket(x, id, a).1.tickets[..id] == w.tickets;
    }
    SameAdvances(w, e, None, u);
  }

  lemma WorkerAdvances(w: World, e: Event)
    requires (e.WorkerWake? || e.WorkerScan? || e.WorkerWork? || e.WorkerPublish?) && Enabled(w, e)
    requires w.worker.Busy? && w.worker.slot < |w.slots| ==> w.slots[w.worker.slot].phase == Working
    ensures Advances(w, e, None, Apply(w, e))
  {
    hide Construct.Work;
  }

  lemma SubmitAdvances(w: World, e: Event)
    requires (e.SubmitFill? || e.SubmitPublish? || e.SubmitPost?) && Enabled(w, e)
    requires w.lock.Submitting? && w.lock.slot < |w.slots| ==> w.slots[w.lock.slot].phase == Free
    ensures Advances(w, e, None, Apply(w, e))
  {}

  lemma HolderAdvances(w: World, e: Event)
    requires (e.Check? || e.AbortBegin? || e.PollExit? || e.CloseStdin? || e.Dispose?) && Enabled(w, e) && Core(w)
    ensures Advances(w, e, Some(e.id), Apply(w, e))
  {
    hide Core, LocalInv, Moves, CheckStart, FinishAbort, Launch.PollExit, Launch.CloseStdin, Launch.Dispose, PutLocal,
         RequestStop, Answered, Advances;
    var id := e.id;
    CoreAt(w, id);
    var l := GetLocal(w, id);
    assert l.t == w.tickets[id];
    match e
    case Check(_, a) => CheckAdvances(w, e, id, a);
    case AbortBegin(_, a) =>
      if l.t.state == SUBMITTED {
        RequestStopKeeps(id, l);
        OperationAdvances(w, e, id, RequestStop(l));
        LockAdvances(w, e, Some(id), PutLocal(w, id, RequestStop(l)), Stopping(id));
      } else {
        AbortKeeps(id, l, a);
        OperationAdvances(w, e, id, FinishAbort(id, RequestStop(l), a).1);
      }
    case PollExit(_, wait) =>
      PollExitKeeps(id, l, wait);
      OperationAdvances(w, e, id, Launch.PollExit(l, wait).1);
    case CloseStdin(_, errno) =>
      CloseStdinKeeps(id, l, errno);
      OperationAdvances(w, e, id, Launch.CloseStdin(l, errno).1);
    case Dispose(_, es) =>
      DisposeKeeps(id, l, es);
      OperationAdvances(w, e, id, Launch.Dispose(l, es).1);
  }

  lemma LockAdvances(w: World, e: Event, who: Option<nat>, v: World, lock: Lock)
    requires Advances(w, e, who, v)
    ensures Advances(w, e, who, v.(lock := lock))
  {
    hide TicketAdvances, SlotAdvances;
  }

  lemma AbortEndAdvances(w: World, a: Answers)
    requires Enabled(w, AbortEnd(a)) && Inv(w)
    ensures Advances(w, AbortEnd(a), Subject(w, AbortEnd(a)), Apply(w, AbortEnd(a)))
  {
    hide Inv, Core, LocalInv, Moves, FinishAbort, Answered, Advances, PutLocal, GetLocal, Apply, Enabled;
    ApplyAbortEnd(w, a);
    StoppedTicket(w);
    var id := w.lock.id;
    LocalTicket(w, id);
    CoreAt(w, id);
    var l := GetLocal(w, id);
    FinishAbortKeeps(id, l, a);
    OperationAdvances(w, AbortEnd(a), id, FinishAbort(id, l, a).1);
    LockAdvances(w, AbortEnd(a), Some(id), PutLocal(w, id, FinishAbort(id, l, a).1), Unlocked);
  }

  lemma DriverAdvances(w: World, e: Event)
    requires (e.DirectStart? || e.DriveBegin? || e.DriveWake? || e.DriveResume?) && Enabled(w, e) && Core(w)
    ensures Advances(w, e, Subject(w, e), Apply(w, e))
  {
    hide Core, Drive, Direct, DirectBench, Advances;
    match e
    case DirectStart(inputs, works, a, dup) => DirectAdvances(w, e, inputs, works, a, dup);
    case DriveBegin(id, a, dup) =>
      DriverSteps.BeginKeeps(w, id);
      DriveAdvances(Begin(w, id), e, |w.drivers|, a, dup);
      BeginAdvances(w, e, id, Drive(Begin(w, id), |w.drivers|, a, dup));
    case DriveWake(d, wake) => SameAdvances(w, e, None, WakeUp(w, d, wake));
    case DriveResume(d, a, dup) =>
      if w.drivers[d].pc == Woken(WakeError) && w.tickets[w.drivers[d].id].step == PENDING {
        SameAdvances(w, e, Subject(w, e), Apply(w, e));
      } else {
        DriveAdvances(w, e, d, a, dup);
      }
  }

  lemma BeginAdvances(w: World, e: Event, id: nat, v: World)
    requires Advances(Begin(w, id), e, Some(id), v)
    ensures Advances(w, e, Some(id), v)
  {
    hide TicketAdvances, SlotAdvances;
  }

  /** Every step from every reachable state respects the discipline. */
  lemma StepAdvances(w: World, e: Event)
    requires Inv(w) && Enabled(w, e)
    ensures Advances(w, e, Subject(w, e), Apply(w, e))
  {
    hide Core, Enabled, Apply, Advances, LockOk;
    if w.worker.Busy? && w.worker.slot < |w.slots| { BusySlot(w); }
    match e
    case SubmitFill(_) => LockedFree(w); SubmitAdvances(w, e);
    case SubmitPublish => LockedFree(w); SubmitAdvances(w, e);
    case SubmitPost => LockedFree(w); SubmitAdvances(w, e);
    case WorkerWake => WorkerAdvances(w, e);
    case WorkerScan => WorkerAdvances(w, e);
    case WorkerWork(_) => WorkerAdvances(w, e);
    case WorkerPublish => WorkerAdvances(w, e);
    case Check(_, _) => HolderAdvances(w, e);
    case AbortBegin(_, _) => HolderAdvances(w, e);
    case AbortEnd(a) => AbortEndAdvances(w, a);
    case DirectStart(_, _, _, _) => DriverAdvances(w, e);
    case DriveBegin(_, _, _) => DriverAdvances(w, e);
    case DriveWake(_, _) => DriverAdvances(w, e);
    case DriveResume(_, _, _) => DriverAdvances(w, e);
    case PollExit(_, _) => HolderAdvances(w, e);
    case CloseStdin(_, _) => HolderAdvances(w, e);
    case Dispose(_, _) => HolderAdvances(w, e);
  }

  lemma LockedFree(w: World)
    requires LockOk(w)
    ensures w.lock.Submitting? && w.lock.slot < |w.slots| ==> w.slots[w.lock.slot].phase == Free
  {}
}
