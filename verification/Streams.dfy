/** What a launch was asked for is what its owner gets: a parent's end for every pipe and for nothing else, and, once
    the process was reaped, its status for good. */
module Streams {
  import opened Wrappers
  import opened Kernel
  import opened Launch
  import opened LaunchLocal
  import opened Construct
  import opened Protocol
  import opened Accounting
  import opened Invariant
  import opened TicketSteps
  import opened WorkerSteps
  import opened SubmitSteps
  import opened DriverSteps
  import opened Safety

  // ----- One ticket

  /** While it launches and while it is owned, a ticket holds the parent's end of exactly the pipes it asked for; stdin
      may be missing once someone closed it. */
  ghost predicate TicketStreams(t: Ticket, shut: bool) {
    t.state == LAUNCHING || (t.step == OWNED && t.state != DISPOSED) ==>
      && (t.fds.s0 >= 0 ==> t.asked.pipe0) && (t.asked.pipe0 && !shut ==> t.fds.s0 >= 0)
      && (t.fds.s1 >= 0 <==> t.asked.pipe1) && (t.fds.s2 >= 0 <==> t.asked.pipe2)
  }

  /** Until it is adopted, what the worker made is in the slot. */
  ghost predicate Handed(t: Ticket, q: Slot) {
    && q.inputs == Some(t.asked)
    && (q.phase == Done && q.native.created ==> StreamsMade(q.native.fds, t.asked, 3))
  }

  ghost predicate LocalStreams(l: Local, shut: bool) {
    TicketStreams(l.t, shut) && (l.t.state == SUBMITTED ==> l.t.slot != 0 && Handed(l.t, l.slot))
  }

  /** What was asked for never changes, nor does the status of a reaped process. */
  ghost predicate Keeps(t: Ticket, u: Ticket) {
    && u.asked == t.asked
    && (t.state == REAPED || t.state == DISPOSED ==> (u.state == REAPED || u.state == DISPOSED) && u.status == t.status)
  }

  ghost predicate Settles(t: Ticket) {
    t.step == PENDING <==> (t.state.SUBMITTED? || t.state.LAUNCHING? || t.state.FAILING? || t.state.ABORTING?)
  }

  /** A ticket on its way out has nothing left to match. */
  lemma LeavingStreams(l: Local, shut: bool)
    requires l.t.state != SUBMITTED && l.t.state != LAUNCHING && l.t.step != OWNED
    ensures LocalStreams(l, shut)
  {}

  lemma AdoptStreams(id: nat, l: Local, shut: bool)
    requires LocalStreams(l, shut) && Settles(l.t)
    ensures var m := Adopt(id, l).1; LocalStreams(m, shut) && Keeps(l.t, m.t) && Settles(m.t)
  {
    var m := Adopt(id, l).1;
    AdoptIs(id, l);
    hide Adopt;
    if l.t.state == SUBMITTED && l.slot.phase == Done {
      if m.t.state != LAUNCHING { LeavingStreams(m, shut); }
    } else {
      assert m == l.(broken := m.broken);
    }
  }

  lemma AdoptIs(id: nat, l: Local)
    ensures var m := Adopt(id, l).1;
            if l.t.state != SUBMITTED || l.slot.phase != Done then m == l.(broken := m.broken)
            else
              && m.t.asked == l.t.asked
              && (m.t.state == LAUNCHING ==> l.slot.native.created && m.t.fds == l.slot.native.fds)
              && (m.t.state == LAUNCHING || m.t.state == ABORTING ==> m.t.step == l.t.step)
              && (m.t.state == LAUNCHING || m.t.state == ABORTING
                  || (m.t.state == REAPED && (m.t.step == ABORTED || m.t.step == FAILED)))
  {
    hide Close;
  }

  lemma HandshakeStreams(id: nat, l: Local, r: ReadResult, shut: bool)
    requires LocalStreams(l, shut) && l.t.state == LAUNCHING && l.t.step == PENDING
    ensures var (d, m) := Handshake(id, l, r);
            LocalStreams(m, shut) && Keeps(l.t, m.t) && (d.None? ==> m.t.state == FAILING && m.t.step == PENDING)
  {
    var (d, m) := Handshake(id, l, r);
    HandshakeIs(id, l, r);
    hide Handshake;
    if d.None? { LeavingStreams(m, shut); }
  }

  lemma HandshakeIs(id: nat, l: Local, r: ReadResult)
    ensures var (d, m) := Handshake(id, l, r);
            && m.t.asked == l.t.asked
            && (d.None? ==> m.t.state == FAILING && m.t.step == l.t.step)
            && (d.Some? ==> m.t.fds == l.t.fds.(err := m.t.fds.err) && (m.t.state == l.t.state || m.t.state == RUNNING))
  {
    var c := CloseErr(l);
    ClosingIs(l);
    ReleaseIs(id, c.(t := c.t.(state := RUNNING, step := OWNED)));
    if r.ReadBytes? { ClosingIs(l.(t := l.t.(recordLen := l.t.recordLen + r.n))); }
    hide CloseErr, CloseStreams, Release;
  }

  lemma ReleaseIs(id: nat, l: Local)
    ensures Release(id, l).t == l.t.(slot := 0)
  {}

  lemma ClosingIs(l: Local)
    ensures CloseErr(l).t == l.t.(fds := l.t.fds.(err := -1))
    ensures CloseStreams(CloseErr(l)).t == l.t.(fds := Fds(l.t.fds.pid, -1, -1, -1, -1))
  {
    hide Close;
  }

  lemma KillAndReapKeepsAsked(id: nat, l: Local, a: Answers)
    requires (l.t.state == FAILING || l.t.state == ABORTING) && l.t.step == PENDING
    ensures var m := KillAndReap(id, l, a).1;
            m.t.asked == l.t.asked && m.t.step != OWNED && m.t.state != SUBMITTED && m.t.state != LAUNCHING
  {
    var l1 := SendKill(l, a.kill).1;
    var l2 := Observe(l1, a.wait).1;
    assert l1.t == l.t.(signalled := l1.t.signalled) by { hide Kill; }
    ObserveIs(l1, a.wait);
    ClosingIs(l2);
    ReleaseIs(id, CloseStreams(CloseErr(l2)));
    hide CloseErr, CloseStreams, Release, SendKill, Observe;
  }

  lemma ObserveIs(l: Local, w: WaitResult)
    ensures var (r, m) := Observe(l, w);
            && m.t == l.t.(fds := m.t.fds, state := m.t.state, status := m.t.status)
            && m.t.state == (if r == 1 then REAPED else if r == -1 then LOST else l.t.state)
  {
    hide Wait, Close;
  }

  lemma KillAndReapStreams(id: nat, l: Local, a: Answers, shut: bool)
    requires (l.t.state == FAILING || l.t.state == ABORTING) && l.t.step == PENDING
    ensures var m := KillAndReap(id, l, a).1; LocalStreams(m, shut) && Keeps(l.t, m.t)
  {
    KillAndReapKeepsAsked(id, l, a);
    hide KillAndReap;
    LeavingStreams(KillAndReap(id, l, a).1, shut);
  }

  lemma CheckStreams(id: nat, l: Local, a: Answers, shut: bool)
    requires LocalStreams(l, shut) && Settles(l.t)
    ensures var m := CheckStart(id, l, a).1; LocalStreams(m, shut) && Keeps(l.t, m.t)
  {
    AdoptStreams(id, l, shut);
    var (adopted, l1) := Adopt(id, l);
    if adopted && l1.t.step == PENDING {
      if l1.t.state == LAUNCHING {
        HandshakeStreams(id, l1, a.read, shut);
        var (d, l2) := Handshake(id, l1, a.read);
        if d.None? { KillAndReapStreams(id, l2, a, shut); }
      } else if l1.t.state == FAILING || l1.t.state == ABORTING {
        KillAndReapStreams(id, l1, a, shut);
      }
    }
    hide Adopt, Handshake, KillAndReap, TicketStreams, Handed;
  }

  lemma StopStreams(l: Local, shut: bool)
    requires LocalStreams(l, shut)
    ensures LocalStreams(RequestStop(l), shut) && Keeps(l.t, RequestStop(l).t)
            && (Settles(l.t) ==> Settles(RequestStop(l).t))
  {}

  /** What an abort leaves to the check. */
  ghost function Aborting(l: Local): Local {
    if l.t.state == LAUNCHING || l.t.state == FAILING then CloseStreams(CloseErr(l.(t := l.t.(state := ABORTING))))
    else l
  }

  lemma AbortingStreams(l: Local, shut: bool)
    requires LocalStreams(l, shut) && Settles(l.t)
    ensures LocalStreams(Aborting(l), shut) && Keeps(l.t, Aborting(l).t) && Settles(Aborting(l).t)
  {
    hide Close;
  }

  lemma AbortStreams(id: nat, l: Local, a: Answers, shut: bool)
    requires LocalStreams(l, shut) && Settles(l.t)
    ensures var m := FinishAbort(id, l, a).1; LocalStreams(m, shut) && Keeps(l.t, m.t)
  {
    AdoptStreams(id, l, shut);
    var l1 := Adopt(id, l).1;
    hide LocalStreams, Settles, CheckStart, Adopt, CloseStreams, CloseErr;
    AbortingStreams(l1, shut);
    CheckStreams(id, Aborting(l1), a, shut);
  }

  lemma PollStreams(l: Local, w: WaitResult, shut: bool)
    requires LocalStreams(l, shut) && Settles(l.t)
    ensures var m := Launch.PollExit(l, w).1; LocalStreams(m, shut) && Keeps(l.t, m.t)
  {
    hide Close, Wait;
  }

  lemma CloseStdinStreams(l: Local, errno: int, shut: bool)
    requires LocalStreams(l, shut) && Settles(l.t)
    ensures var m := Launch.CloseStdin(l, errno).1; LocalStreams(m, true) && Keeps(l.t, m.t)
  {
    hide Close;
  }

  lemma DisposeStreams(l: Local, es: Errnos, shut: bool)
    requires LocalStreams(l, shut) && Settles(l.t)
    ensures var m := Launch.Dispose(l, es).1; LocalStreams(m, shut) && Keeps(l.t, m.t)
  {
    hide Close;
  }

  // ----- The world

  ghost predicate TicketAsked(t: Ticket, slots: seq<Slot>, shut: bool) {
    TicketStreams(t, shut) && (t.state == SUBMITTED ==> 1 <= t.slot <= |slots| && Handed(t, slots[t.slot - 1]))
  }

  /** The worker builds what its slot's inputs ask for. */
  ghost predicate WorkerStreams(w: World) {
    w.worker.Busy? ==>
      && w.worker.slot < |w.slots| && w.slots[w.worker.slot].inputs.Some?
      && StreamsMatch(WorkerBench(w), w.slots[w.worker.slot].inputs.value)
  }

  /** `shut`: the tickets whose stdin someone asked to close. */
  ghost predicate Matched(w: World, shut: set<nat>) {
    && (forall id :: 0 <= id < |w.tickets| ==> TicketAsked(w.tickets[id], w.slots, id in shut))
    && WorkerStreams(w)
  }

  ghost predicate Goes(w: World, v: World, shut: set<nat>) {
    && Matched(v, shut) && |v.tickets| >= |w.tickets|
    && (forall id :: 0 <= id < |w.tickets| ==> Keeps(w.tickets[id], v.tickets[id]))
  }

  lemma LocalMatched(w: World, id: nat, shut: set<nat>)
    requires Matched(w, shut) && HasSlot(w, id)
    ensures LocalStreams(GetLocal(w, id), id in shut)
  {
    assert TicketAsked(w.tickets[id], w.slots, id in shut);
    hide TicketStreams, Handed;
  }

  lemma PutGoes(w: World, id: nat, m: Local, before: set<nat>, shut: set<nat>)
    requires Matched(w, before) && before <= shut && HasSlot(w, id) && TicketsOk(w)
    requires w.worker.Busy? ==> w.worker.slot < |w.slots| && w.slots[w.worker.slot].phase == Working
    requires LocalStreams(m, id in shut) && Keeps(w.tickets[id], m.t) && SlotMoves(GetLocal(w, id), m)
    requires m.t.state == SUBMITTED ==> m.t.slot != 0
    ensures Goes(w, PutLocal(w, id, m), shut)
  {
    var v := PutLocal(w, id, m);
    hide TicketShape, FdsOk, NativeDone, StreamsMade;
    forall other | 0 <= other < |v.tickets| ensures TicketAsked(v.tickets[other], v.slots, other in shut) {
      if other != id {
        assert TicketAsked(w.tickets[other], w.slots, other in before);
        assert TicketOk(other, w.tickets[other], w.slots, w.os) && TicketOk(id, w.tickets[id], w.slots, w.os);
      }
    }
    PutWorkerStreams(w, id, m);
    hide SlotMoves, TicketOk;
  }

  lemma PutWorkerStreams(w: World, id: nat, m: Local)
    requires WorkerStreams(w) && HasSlot(w, id) && SlotMoves(GetLocal(w, id), m)
    requires w.worker.Busy? ==> w.worker.slot < |w.slots| && w.slots[w.worker.slot].phase == Working
    ensures WorkerStreams(PutLocal(w, id, m))
  {
    hide StreamsMade;
  }

  // ----- Every step

  /** The ticket whose stdin the event asks to close. */
  function ShutBy(e: Event): set<nat> {
    if e.CloseStdin? then {e.id} else {}
  }

  lemma OperationGoes(w: World, id: nat, m: Local, before: set<nat>, shut: set<nat>)
    requires Core(w) && Matched(w, before) && before <= shut && id < |w.tickets| && HasSlot(w, id)
    requires LocalInv(id, m) && Moves(GetLocal(w, id), m)
    requires LocalStreams(m, id in shut) && Keeps(w.tickets[id], m.t)
    ensures Goes(w, PutLocal(w, id, m), shut)
  {
    assert SlotMoves(GetLocal(w, id), m) by { hide Core, SlotMoves, KernelMoves, TicketMoves, Balanced, LocalInv; }
    assert m.t.state == SUBMITTED ==> m.t.slot != 0 by { hide Core, Moves, FdsOk, Backed, Sane, NativeDone; }
    hide Accounted, TicketsOk, SlotsOk, HomesOk, RootsOk, QueueOk, DriversOk, Sane, LocalInv, Moves, SlotMoves, Matched,
         LocalStreams, Goes, Keeps, GetLocal;
    if w.worker.Busy? { CoreWorker(w) by { hide SlotMoves; } }
    hide WorkerOk;
    PutGoes(w, id, m, before, shut);
  }

  lemma Opened(w: World, id: nat, shut: set<nat>)
    requires Core(w) && Matched(w, shut) && id < |w.tickets|
    ensures HasSlot(w, id) && LocalInv(id, GetLocal(w, id)) && LocalStreams(GetLocal(w, id), id in shut)
    ensures Settles(GetLocal(w, id).t) && GetLocal(w, id).t == w.tickets[id]
  {
    hide Core, Matched, LocalStreams, LocalInv;
    CoreAt(w, id);
    LocalMatched(w, id, shut);
    ShapeSettles(id, GetLocal(w, id));
  }

  lemma ShapeSettles(id: nat, l: Local)
    requires LocalInv(id, l)
    ensures Settles(l.t)
  {
    hide FdsOk, Backed, Sane, NativeDone;
  }

  lemma CheckGoes(w: World, id: nat, a: Answers, shut: set<nat>)
    requires Core(w) && Matched(w, shut) && Callable(w, id, a)
    ensures Goes(w, CheckTicket(w, id, a).1, shut)
  {
    hide Core, Matched, LocalInv, Moves, CheckStart, LocalStreams, Settles, Goes, Answered, Keeps;
    Opened(w, id, shut);
    var l := GetLocal(w, id);
    CheckStartKeeps(id, l, a);
    CheckStreams(id, l, a, id in shut);
    OperationGoes(w, id, CheckStart(id, l, a).1, shut, shut);
  }

  lemma SameGoes(w: World, u: World, v: World, shut: set<nat>)
    requires Goes(w, u, shut) && v.tickets == u.tickets && v.slots == u.slots && v.worker == u.worker
    ensures Goes(w, v, shut)
  {
    hide TicketAsked, Keeps, StreamsMade;
  }

  lemma StaysGoes(w: World, v: World, shut: set<nat>)
    requires Matched(w, shut) && v.tickets == w.tickets && v.slots == w.slots && v.worker == w.worker
    ensures Goes(w, v, shut)
  {
    hide TicketAsked, StreamsMade;
  }

  lemma HolderGoes(w: World, e: Event, shut: set<nat>)
    requires (e.Check? || e.AbortBegin? || e.PollExit? || e.CloseStdin? || e.Dispose?) && Enabled(w, e)
    requires Core(w) && Matched(w, shut)
    ensures Goes(w, Apply(w, e), shut + ShutBy(e))
  {
    hide Core, Matched, LocalInv, Moves, CheckStart, FinishAbort, Launch.PollExit, Launch.CloseStdin, Launch.Dispose,
         PutLocal, RequestStop, Answered, LocalStreams, Settles, Goes, Keeps, FirstError;
    var id := e.id;
    Opened(w, id, shut);
    var l := GetLocal(w, id);
    hide GetLocal;
    match e
    case Check(_, a) => CheckGoes(w, id, a, shut); assert shut + ShutBy(e) == shut;
    case AbortBegin(_, a) =>
      assert shut + ShutBy(e) == shut;
      StopStreams(l, id in shut);
      if l.t.state == SUBMITTED {
        RequestStopKeeps(id, l);
        OperationGoes(w, id, RequestStop(l), shut, shut);
        SameGoes(w, PutLocal(w, id, RequestStop(l)), Apply(w, e), shut);
      } else {
        AbortKeeps(id, l, a);
        AbortStreams(id, RequestStop(l), a, id in shut);
        var m := FinishAbort(id, RequestStop(l), a).1;
        KeepsBoth(l.t, RequestStop(l).t, m.t);
        OperationGoes(w, id, m, shut, shut);
      }
    case PollExit(_, wait) =>
      assert shut + ShutBy(e) == shut;
      PollExitKeeps(id, l, wait);
      PollStreams(l, wait, id in shut);
      OperationGoes(w, id, Launch.PollExit(l, wait).1, shut, shut);
    case CloseStdin(_, errno) =>
      CloseStdinKeeps(id, l, errno);
      CloseStdinStreams(l, errno, id in shut);
      OperationGoes(w, id, Launch.CloseStdin(l, errno).1, shut, shut + {id});
    case Dispose(_, es) =>
      assert shut + ShutBy(e) == shut;
      DisposeKeeps(id, l, es);
      DisposeStreams(l, es, id in shut);
      OperationGoes(w, id, Launch.Dispose(l, es).1, shut, shut);
  }

  lemma KeepsBoth(t: Ticket, u: Ticket, v: Ticket)
    requires Keeps(t, u) && Keeps(u, v)
    ensures Keeps(t, v)
  {}

  lemma AbortEndGoes(w: World, a: Answers, shut: set<nat>)
    requires Enabled(w, AbortEnd(a)) && Inv(w) && Matched(w, shut)
    ensures Goes(w, Apply(w, AbortEnd(a)), shut)
  {
    hide Inv, Core, LocalInv, Moves, FinishAbort, LocalStreams, Settles, Goes, Answered, Keeps, PutLocal, Matched,
         GetLocal, Apply, Enabled;
    ApplyAbortEnd(w, a);
    StoppedTicket(w);
    var id := w.lock.id;
    LocalTicket(w, id);
    Opened(w, id, shut);
    var l := GetLocal(w, id);
    FinishAbortKeeps(id, l, a);
    AbortStreams(id, l, a, id in shut);
    var m := FinishAbort(id, l, a).1;
    OperationGoes(w, id, m, shut, shut);
    SameGoes(w, PutLocal(w, id, m), PutLocal(w, id, m).(lock := Unlocked), shut);
  }

  // ----- Starting

  lemma FillGoes(w: World, inputs: Inputs, shut: set<nat>)
    requires Core(w) && w.lock == Unlocked && FirstFree(w.slots) < |w.slots| && Matched(w, shut)
    ensures Goes(w, Fill(w, inputs), shut)
  {
    hide Accounted, TicketsOk, SlotsOk, HomesOk, RootsOk, QueueOk, DriversOk, Sane, WorkerOk;
    var i, v := FirstFree(w.slots), Fill(w, inputs);
    FillIs(w, inputs);
    FreeSlot(w, i);
    hide Fill, Claimed, StreamsMade, Inv;
    forall id | 0 <= id < |v.tickets| ensures TicketAsked(v.tickets[id], v.slots, id in shut) {
      if id < |w.tickets| {
        assert TicketAsked(w.tickets[id], w.slots, id in shut);
        SlotOwned(w, id);
      }
    }
  }

  lemma SlotOwned(w: World, id: nat)
    requires Core(w) && id < |w.tickets|
    ensures w.tickets[id].slot <= |w.slots|
    ensures w.tickets[id].slot != 0 ==> w.slots[w.tickets[id].slot - 1].owner == Some(id)
  {
    hide Core, LocalInv;
    CoreAt(w, id);
  }

  lemma PublishGoes(w: World, shut: set<nat>)
    requires Inv(w) && w.lock.Submitting? && Matched(w, shut)
    ensures var i := w.lock.slot;
            i < |w.slots| && Goes(w, w.(slots := Phased(w, i, Queued), lock := Unlocked, posts := w.posts + 1), shut)
  {
    hide Accounted, TicketsOk, SlotsOk, HomesOk, RootsOk, QueueOk, DriversOk, Sane, WorkerOk;
    var i := w.lock.slot;
    LockedSlot(w);
    PhasedMatched(w, i, Queued, shut);
    assert Goes(w, w.(slots := Phased(w, i, Queued)), shut);
    hide Goes, Phased;
    SameGoes(w, w.(slots := Phased(w, i, Queued)),
             w.(slots := Phased(w, i, Queued), lock := Unlocked, posts := w.posts + 1), shut);
  }

  /** A slot's phase changes, short of Done. */
  lemma PhasedMatched(w: World, i: nat, phase: Phase, shut: set<nat>)
    requires i < |w.slots| && Matched(w, shut) && phase != Done
    ensures forall id :: 0 <= id < |w.tickets| ==> TicketAsked(w.tickets[id], Phased(w, i, phase), id in shut)
    ensures WorkerStreams(w.(slots := Phased(w, i, phase)))
  {
    hide TicketStreams, StreamsMade;
    forall id | 0 <= id < |w.tickets| ensures TicketAsked(w.tickets[id], Phased(w, i, phase), id in shut) {
      assert TicketAsked(w.tickets[id], w.slots, id in shut);
    }
  }

  lemma SubmitGoes(w: World, e: Event, shut: set<nat>)
    requires (e.SubmitFill? || e.SubmitPublish? || e.SubmitPost?) && Enabled(w, e) && Inv(w) && Matched(w, shut)
    ensures Goes(w, Apply(w, e), shut)
  {
    hide Core, Fill, Goes, StreamsMade;
    match e
    case SubmitFill(inputs) => FillGoes(w, inputs, shut);
    case SubmitPublish => PublishGoes(w, shut);
    case SubmitPost => StaysGoes(w, Apply(w, e), shut);
  }

  // ----- The worker

  lemma IdleGoes(w: World, v: World, shut: set<nat>)
    requires Matched(w, shut) && v.tickets == w.tickets && v.slots == w.slots && !v.worker.Busy?
    ensures Goes(w, v, shut)
  {
    hide TicketAsked;
  }

  lemma ScanGoes(w: World, shut: set<nat>)
    requires Core(w) && w.worker.Scanning? && Matched(w, shut)
    ensures Goes(w, Scan(w), shut)
  {
    hide Core, Matched, Goes, Scan, Phased, QueuedCount, SlotsOk;
    CoreSlots(w);
    ScanKeeps(w);
    var v, i := Scan(w), (w.next + w.worker.offset) % SLOTS;
    ScanFrame(w);
    if w.slots[i].phase == Queued {
      QueuedInputs(w, i);
      ClaimGoes(w, i, v, shut);
    } else {
      IdleGoes(w, v, shut);
    }
  }

  lemma CoreSlots(w: World)
    requires Core(w)
    ensures SlotsOk(w) && |w.slots| == SLOTS
  {
    hide Accounted, TicketsOk, SlotsOk, HomesOk, RootsOk, QueueOk, DriversOk, Sane, WorkerOk;
  }

  lemma QueuedInputs(w: World, i: nat)
    requires SlotsOk(w) && i < |w.slots| && w.slots[i].phase == Queued
    ensures w.slots[i].inputs.Some?
  {
    assert SlotOk(i, w.slots[i], Claimed(w, i), BusyAt(w.worker, i), w.tickets);
  }

  lemma ClaimGoes(w: World, i: nat, v: World, shut: set<nat>)
    requires Matched(w, shut) && i < |w.slots| && w.slots[i].inputs.Some?
    requires v.slots == Phased(w, i, Working) && v.worker == Busy(i, Snapshot, NO_KIT) && v.tickets == w.tickets
    ensures Goes(w, v, shut)
  {
    PhasedMatched(w, i, Working, shut);
    hide TicketAsked;
  }

  /** The worker's slot belongs to a ticket not adopted yet, which asked for what the slot's inputs say. */
  lemma BusyInputs(w: World, shut: set<nat>)
    requires Core(w) && w.worker.Busy? && w.worker.slot < |w.slots| && Matched(w, shut)
    ensures var q := w.slots[w.worker.slot];
            && q.phase == Working && q.inputs.Some? && StageOk(WorkerBench(w))
            && StreamsMatch(WorkerBench(w), q.inputs.value)
  {
    hide Accounted, TicketsOk, SlotsOk, HomesOk, RootsOk, QueueOk, DriversOk, Sane, TicketAsked;
    CoreWorker(w);
    hide StageOk, StreamsMatch, NoChildren, NativeDone;
  }

  lemma StepGoes(w: World, a: WorkAnswers, shut: set<nat>)
    requires Core(w) && w.worker.Busy? && w.worker.slot < |w.slots| && w.worker.stage != Publish && Matched(w, shut)
    ensures Goes(w, Step(w, a), shut)
  {
    var q, b := w.slots[w.worker.slot], WorkerBench(w);
    BusyInputs(w, shut) by { hide Core, Matched; }
    WorkStreams(b, q.inputs.value, q.stop, a) by { hide Core, Matched; }
    StepIs(w, a) by {
      hide Accounted, TicketsOk, SlotsOk, HomesOk, RootsOk, QueueOk, DriversOk, Sane, WorkerOk, Matched;
    }
    var c := Work(b, q.inputs.value, q.stop, a);
    var v := Step(w, a);
    hide Core, Work, Step, StageOk;
    BuiltMatched(w, c, shut);
  }

  lemma BuiltMatched(w: World, c: Bench, shut: set<nat>)
    requires w.worker.Busy? && w.worker.slot < |w.slots| && w.slots[w.worker.slot].phase == Working && Matched(w, shut)
    requires w.slots[w.worker.slot].inputs.Some? && StreamsMatch(c, w.slots[w.worker.slot].inputs.value)
    ensures Goes(w, Built(w, c), shut)
  {
    var v := Built(w, c);
    hide TicketStreams, StreamsMade;
    forall id | 0 <= id < |w.tickets| ensures TicketAsked(w.tickets[id], v.slots, id in shut) {
      assert TicketAsked(w.tickets[id], w.slots, id in shut);
    }
  }

  lemma FinishGoes(w: World, shut: set<nat>)
    requires Core(w) && w.worker.Busy? && w.worker.slot < |w.slots| && w.worker.stage == Publish && Matched(w, shut)
    ensures Goes(w, Finish(w), shut)
  {
    hide Core, StageOk, Matched, Goes;
    BusyInputs(w, shut);
    HandoverGoes(w, Finish(w), shut);
  }

  lemma HandoverGoes(w: World, v: World, shut: set<nat>)
    requires w.worker.Busy? && w.worker.slot < |w.slots| && w.worker.stage == Publish && Matched(w, shut)
    requires v.slots == Phased(w, w.worker.slot, Done) && v.tickets == w.tickets && v.worker == Waiting
    ensures Goes(w, v, shut)
  {
    hide TicketStreams, StreamsMade;
    forall id | 0 <= id < |w.tickets| ensures TicketAsked(w.tickets[id], v.slots, id in shut) {
      assert TicketAsked(w.tickets[id], w.slots, id in shut);
    }
  }

  lemma WorkerGoes(w: World, e: Event, shut: set<nat>)
    requires (e.WorkerWake? || e.WorkerScan? || e.WorkerWork? || e.WorkerPublish?) && Enabled(w, e)
    requires Core(w) && Matched(w, shut)
    ensures Goes(w, Apply(w, e), shut)
  {
    hide Core, Scan, Step, Finish, Goes, TicketAsked;
    match e
    case WorkerWake => IdleGoes(w, Apply(w, e), shut);
    case WorkerScan => ScanGoes(w, shut);
    case WorkerWork(a) => StepGoes(w, a, shut);
    case WorkerPublish => FinishGoes(w, shut);
  }

  // ----- Drivers and direct starts

  lemma GoesOn(w: World, u: World, v: World, shut: set<nat>)
    requires Goes(w, u, shut) && Goes(u, v, shut)
    ensures Goes(w, v, shut)
  {
    hide Matched, Keeps;
    forall id | 0 <= id < |w.tickets| ensures Keeps(w.tickets[id], v.tickets[id]) {
      KeepsBoth(w.tickets[id], u.tickets[id], v.tickets[id]);
    }
  }

  lemma BlockFrame(w: World, d: nat, r: LaunchStep, dup: bool)
    requires d < |w.drivers| && w.drivers[d].id < |w.tickets|
    ensures var v := Block(w, d, r, dup); v.tickets == w.tickets && v.slots == w.slots && v.worker == w.worker
  {}

  lemma DriveGoes(w: World, d: nat, a: Answers, dup: bool, shut: set<nat>)
    requires d < |w.drivers| && Callable(w, w.drivers[d].id, a) && Core(w) && Matched(w, shut)
    ensures Goes(w, Drive(w, d, a, dup), shut)
  {
    hide Core, Matched, CheckTicket, Goes, Block;
    var id := w.drivers[d].id;
    CheckGoes(w, id, a, shut);
    var (r, v) := CheckTicket(w, id, a);
    CheckFrames(w, id, a);
    BlockFrame(v, d, r, dup);
    SameGoes(w, v, Block(v, d, r, dup), shut);
  }

  lemma CheckFrames(w: World, id: nat, a: Answers)
    requires HasSlot(w, id)
    ensures var v := CheckTicket(w, id, a).1; v.drivers == w.drivers && |v.tickets| == |w.tickets|
  {
    hide CheckStart;
  }

  lemma {:induction false} WorkAllStreams(b: Bench, inputs: Inputs, works: seq<WorkAnswers>)
    requires BenchInv(b) && StreamsMatch(b, inputs)
    ensures StreamsMatch(WorkAll(b, inputs, works), inputs)
    decreases |works|
  {
    hide BenchInv, Work, StreamsMatch, StageOk;
    if works != [] && b.stage != Publish {
      WorkKeeps(b, inputs, false, works[0]) by { hide BenchMoves; }
      BenchStage(b);
      WorkStreams(b, inputs, false, works[0]);
      WorkAllStreams(Work(b, inputs, false, works[0]), inputs, works[1..]);
    }
  }

  lemma BenchStage(b: Bench)
    requires BenchInv(b)
    ensures StageOk(b)
  {
    hide StageOk, BenchHeld, NoChildren, Sane, NativeDone;
  }

  lemma DirectStreams(w: World, inputs: Inputs, works: seq<WorkAnswers>)
    requires Sane(w.os) && DirectBench(w, inputs, works).stage == Publish
    ensures var n := DirectBench(w, inputs, works).native; n.created ==> StreamsMade(n.fds, inputs, 3)
  {
    hide BenchInv, WorkAll, BenchHeld, Sane, StreamsMade;
    FreshBench(w.os);
    WorkAllStreams(Bench(FRESH_NATIVE, Checking, NO_KIT, w.os), inputs, works);
  }

  lemma LaunchedGoes(w: World, b: Bench, inputs: Inputs, shut: set<nat>)
    requires Matched(w, shut) && (b.native.created ==> StreamsMade(b.native.fds, inputs, 3))
    ensures Goes(w, Launched(w, b, inputs), shut)
  {
    var v := Launched(w, b, inputs);
    forall id | 0 <= id < |v.tickets| ensures TicketAsked(v.tickets[id], v.slots, id in shut) {
      assert id < |w.tickets| ==> TicketAsked(w.tickets[id], w.slots, id in shut);
    }
  }

  lemma DirectGoes(w: World, inputs: Inputs, works: seq<WorkAnswers>, a: Answers, dup: bool, shut: set<nat>)
    requires w.lock == Unlocked && DirectBench(w, inputs, works).stage == Publish && ReadFits(NEW_OWNER, a.read)
    requires forall id :: 0 <= id < |w.tickets| ==> HasSlot(w, id)
    requires Core(w) && Matched(w, shut)
    ensures Goes(w, Direct(w, inputs, works, a, dup), shut)
  {
    hide DirectBench, Core, Matched, Goes, Drive, StreamsMade, Sane, Launched;
    var b := DirectBench(w, inputs, works);
    DirectCore(w, inputs, works);
    CoreSane(w);
    DirectStreams(w, inputs, works);
    LaunchedGoes(w, b, inputs, shut);
    if b.native.created { FirstGoes(w, b, inputs, a, dup, shut); }
  }

  lemma FirstGoes(w: World, b: Bench, inputs: Inputs, a: Answers, dup: bool, shut: set<nat>)
    requires b.native.created && ReadFits(NEW_OWNER, a.read)
    requires Core(Launched(w, b, inputs)) && Goes(w, Launched(w, b, inputs), shut)
    ensures var v, id := Launched(w, b, inputs), |w.tickets|;
            HasSlot(Begin(v, id), id) && Goes(w, Drive(Begin(v, id), |v.drivers|, a, dup), shut)
  {
    hide Core, Goes, Drive;
    var v, id := Launched(w, b, inputs), |w.tickets|;
    var x := Begin(v, id);
    BeginKeeps(v, id);
    SameGoes(w, v, x, shut);
    GoesMatched(w, x, shut);
    hide Matched;
    DriveGoes(x, |v.drivers|, a, dup, shut);
    GoesOn(w, x, Drive(x, |v.drivers|, a, dup), shut);
  }

  lemma GoesMatched(w: World, v: World, shut: set<nat>)
    requires Goes(w, v, shut)
    ensures Matched(v, shut)
  {
    hide Matched, Keeps;
  }

  lemma DriverGoes(w: World, e: Event, shut: set<nat>)
    requires (e.DirectStart? || e.DriveBegin? || e.DriveWake? || e.DriveResume?) && Enabled(w, e)
    requires Core(w) && Matched(w, shut)
    ensures Goes(w, Apply(w, e), shut)
  {
    hide Core, Matched, Goes, Drive, Direct, DirectBench;
    match e
    case DirectStart(inputs, works, a, dup) => DirectGoes(w, inputs, works, a, dup, shut);
    case DriveBegin(id, a, dup) =>
      var x := Begin(w, id);
      BeginKeeps(w, id);
      StaysGoes(w, x, shut);
      GoesMatched(w, x, shut);
      DriveGoes(x, |w.drivers|, a, dup, shut);
      GoesOn(w, x, Drive(x, |w.drivers|, a, dup), shut);
    case DriveWake(d, wake) => StaysGoes(w, WakeUp(w, d, wake), shut);
    case DriveResume(d, a, dup) =>
      if w.drivers[d].pc == Woken(WakeError) && w.tickets[w.drivers[d].id].step == PENDING {
        StaysGoes(w, Apply(w, e), shut);
      } else {
        DriveGoes(w, d, a, dup, shut);
      }
  }

  // ----- Every run

  lemma StepMatched(w: World, e: Event, shut: set<nat>)
    requires Inv(w) && Enabled(w, e) && Matched(w, shut)
    ensures Goes(w, Apply(w, e), shut + ShutBy(e))
  {
    hide Core, Enabled, Apply, Matched, Goes, LockOk;
    if !e.CloseStdin? { assert shut + ShutBy(e) == shut; }
    match e
    case SubmitFill(_) => SubmitGoes(w, e, shut);
    case SubmitPublish => SubmitGoes(w, e, shut);
    case SubmitPost => SubmitGoes(w, e, shut);
    case WorkerWake => WorkerGoes(w, e, shut);
    case WorkerScan => WorkerGoes(w, e, shut);
    case WorkerWork(_) => WorkerGoes(w, e, shut);
    case WorkerPublish => WorkerGoes(w, e, shut);
    case Check(_, _) => HolderGoes(w, e, shut);
    case AbortBegin(_, _) => HolderGoes(w, e, shut);
    case AbortEnd(a) => AbortEndGoes(w, a, shut);
    case DirectStart(_, _, _, _) => DriverGoes(w, e, shut);
    case DriveBegin(_, _, _) => DriverGoes(w, e, shut);
    case DriveWake(_, _) => DriverGoes(w, e, shut);
    case DriveResume(_, _, _) => DriverGoes(w, e, shut);
    case PollExit(_, _) => HolderGoes(w, e, shut);
    case CloseStdin(_, _) => HolderGoes(w, e, shut);
    case Dispose(_, _) => HolderGoes(w, e, shut);
  }

  /** The tickets whose stdin a run asks to close. */
  function Shut(es: seq<Event>): set<nat> {
    if es == [] then {} else ShutBy(es[0]) + Shut(es[1..])
  }

  lemma {:induction false} RunMatched(w: World, es: seq<Event>, shut: set<nat>)
    requires Inv(w) && Legal(w, es) && Matched(w, shut)
    ensures Goes(w, After(w, es), shut + Shut(es))
    decreases |es|
  {
    hide Inv, Enabled, Apply, Matched, Goes, ShutBy, Keeps;
    if es == [] {
      assert shut + Shut(es) == shut;
      StaysGoes(w, w, shut);
    } else {
      var v, s := Apply(w, es[0]), shut + ShutBy(es[0]);
      Inductive(w, es[0]);
      StepMatched(w, es[0], shut);
      GoesMatched(w, v, s);
      RunMatched(v, es[1..], s);
      assert s + Shut(es[1..]) == shut + Shut(es);
      GoesThen(w, v, After(w, es), s, shut + Shut(es));
    }
  }

  lemma GoesThen(w: World, u: World, v: World, s: set<nat>, shut: set<nat>)
    requires Goes(w, u, s) && Goes(u, v, shut)
    ensures Goes(w, v, shut)
  {
    hide Matched, Keeps;
    forall id | 0 <= id < |w.tickets| ensures Keeps(w.tickets[id], v.tickets[id]) {
      KeepsBoth(w.tickets[id], u.tickets[id], v.tickets[id]);
    }
  }

  lemma InitMatched()
    ensures Matched(INIT, {})
  {}

  lemma AskedAt(w: World, id: nat, shut: set<nat>)
    requires Matched(w, shut) && id < |w.tickets|
    ensures TicketStreams(w.tickets[id], id in shut)
  {
    hide TicketStreams, WorkerStreams, Handed;
    assert TicketAsked(w.tickets[id], w.slots, id in shut);
  }

  /** In every reachable state a ticket that is being launched or is owned and not disposed holds a parent's end for
      exactly the pipes asked for, stdin's for as long as nobody asked to close it. */
  lemma OwnedStreams(es: seq<Event>, id: nat)
    requires Legal(INIT, es) && id < |After(INIT, es).tickets|
    ensures var t := After(INIT, es).tickets[id];
            t.state == LAUNCHING || (t.step == OWNED && t.state != DISPOSED) ==>
              && (t.fds.s1 >= 0 <==> t.asked.pipe1) && (t.fds.s2 >= 0 <==> t.asked.pipe2)
              && (t.fds.s0 >= 0 ==> t.asked.pipe0)
              && (t.asked.pipe0 && id !in Shut(es) ==> t.fds.s0 >= 0)
  {
    hide Legal, After, Inv, Goes, Matched, Shut;
    InitInv();
    InitMatched();
    RunMatched(INIT, es, {});
    GoesMatched(INIT, After(INIT, es), {} + Shut(es));
    AskedAt(After(INIT, es), id, {} + Shut(es));
  }

  /** Once a process was reaped its ticket shows the same status, and what it was asked for, ever after. */
  lemma StatusFinal(es: seq<Event>, fs: seq<Event>, id: nat)
    requires Legal(INIT, es) && Legal(After(INIT, es), fs) && id < |After(INIT, es).tickets|
    ensures var t := After(INIT, es).tickets[id];
            && id < |After(After(INIT, es), fs).tickets|
            && var u := After(After(INIT, es), fs).tickets[id];
               && u.asked == t.asked
               && (t.state == REAPED ==> (u.state == REAPED || u.state == DISPOSED) && u.status == t.status)
  {
    hide Legal, After, Inv, Goes, Matched, Shut;
    InitInv();
    InitMatched();
    RunMatched(INIT, es, {});
    ReachableInv(es);
    var w := After(INIT, es);
    GoesMatched(INIT, w, {} + Shut(es));
    RunMatched(w, fs, {} + Shut(es));
    GoesKeeps(w, After(w, fs), {} + Shut(es) + Shut(fs), id);
  }

  lemma GoesKeeps(w: World, v: World, shut: set<nat>, id: nat)
    requires Goes(w, v, shut) && id < |w.tickets|
    ensures id < |v.tickets| && Keeps(w.tickets[id], v.tickets[id])
  {
    hide Matched, Keeps;
  }
}
