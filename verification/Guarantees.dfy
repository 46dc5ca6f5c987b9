/** What the invariant promises of every reachable state and every run: one owner per slot, one holder per descriptor,
    every child accounted for, the exact rooted list, final verdicts, decisive cancellation. */
module Guarantees {
  import opened Wrappers
  import opened Kernel
  import opened Launch
  import opened LaunchLocal
  import Construct
  import opened Protocol
  import opened Accounting
  import opened Invariant
  import TicketSteps
  import opened Safety
  import opened Advance

  // ----- Slots

  ghost predicate Owns(w: World, i: nat, id: nat) {
    id < |w.tickets| && w.tickets[id].slot == i + 1
  }

  /** A slot is taken exactly when one ticket names it, and that ticket's number and generation match the slot's. */
  lemma SlotOwnership(es: seq<Event>, i: nat)
    requires Legal(INIT, es) && i < SLOTS
    ensures var w := After(INIT, es);
            && |w.slots| == SLOTS
            && (Claimed(w, i) <==> exists id: nat :: Owns(w, i, id))
            && (forall id: nat :: Owns(w, i, id) ==>
                  w.slots[i].owner == Some(id) && w.slots[i].generation == w.tickets[id].generation)
            && (forall a: nat, b: nat :: Owns(w, i, a) && Owns(w, i, b) ==> a == b)
  {
    ReachableInv(es);
    hide Legal, After;
    var w := After(INIT, es);
    OwnerIs(w, i);
  }

  lemma OwnerIs(w: World, i: nat)
    requires i < SLOTS && Inv(w)
    ensures |w.slots| == SLOTS
    ensures Claimed(w, i) <==> exists id: nat :: Owns(w, i, id)
    ensures forall id: nat :: Owns(w, i, id) ==>
              w.slots[i].owner == Some(id) && w.slots[i].generation == w.tickets[id].generation
    ensures forall a: nat, b: nat :: Owns(w, i, a) && Owns(w, i, b) ==> a == b
  {
    hide Accounted, TicketsOk, SlotsOk, HomesOk, RootsOk, QueueOk, DriversOk, Sane, WorkerOk, LockOk, SlotOk, Claimed,
         Owns;
    OneSlot(w, i);
    SlotOwner(w, i);
    forall id: nat | Owns(w, i, id)
      ensures w.slots[i].owner == Some(id) && w.slots[i].generation == w.tickets[id].generation && Claimed(w, i)
    {
      OwnerTicket(w, i, id);
    }
  }

  lemma SlotOwner(w: World, i: nat)
    requires i < |w.slots| && SlotOk(i, w.slots[i], Claimed(w, i), BusyAt(w.worker, i), w.tickets)
    ensures Claimed(w, i) ==> w.slots[i].owner.Some? && Owns(w, i, w.slots[i].owner.value)
    ensures !Claimed(w, i) ==> w.slots[i].owner == None
  {}

  lemma OwnerTicket(w: World, i: nat, id: nat)
    requires i < |w.slots| && Owns(w, i, id) && TicketsOk(w) && (!Claimed(w, i) ==> w.slots[i].owner == None)
    ensures w.slots[i].owner == Some(id) && w.slots[i].generation == w.tickets[id].generation && Claimed(w, i)
  {
    hide TicketsOk, Claimed;
    OneTicket(w, id);
    hide TicketShape, FdsOk, NativeDone;
  }

  lemma OneSlot(w: World, i: nat)
    requires SlotsOk(w) && i < |w.slots|
    ensures SlotOk(i, w.slots[i], Claimed(w, i), BusyAt(w.worker, i), w.tickets)
  {}

  lemma OneTicket(w: World, id: nat)
    requires TicketsOk(w) && id < |w.tickets|
    ensures TicketOk(id, w.tickets[id], w.slots, w.os)
  {
    hide TicketShape, FdsOk, OwnsSlot;
  }

  /** No slot and generation are ever given to two tickets. */
  lemma GenerationsUnique(es: seq<Event>, a: nat, b: nat)
    requires Legal(INIT, es)
    requires var w := After(INIT, es); a < |w.tickets| && b < |w.tickets| && w.tickets[a].home == w.tickets[b].home != 0
    requires var w := After(INIT, es); w.tickets[a].generation == w.tickets[b].generation
    ensures a == b
  {
    ReachableInv(es);
    hide Legal, After;
    var w := After(INIT, es);
    assert HomesOk(w.tickets, w.slots) by {
      hide Accounted, TicketsOk, SlotsOk, HomesOk, RootsOk, QueueOk, DriversOk, Sane, WorkerOk, LockOk;
    }
    hide Inv;
  }

  /** Neither `abort()` fires, the "invalid launch state" branch is never reached, and the kernel is never misused: no
      descriptor is closed twice, no kill or wait hits anything but the live pidfd of an unreaped child, and no child is
      killed twice or reaped twice. */
  lemma NoFaults(es: seq<Event>)
    requires Legal(INIT, es)
    ensures !After(INIT, es).broken && !After(INIT, es).os.fault
  {
    ReachableInv(es);
    hide Legal, After, Accounted, TicketsOk, SlotsOk, HomesOk, RootsOk, QueueOk, DriversOk, WorkerOk, LockOk;
  }

  // ----- Descriptors and children

  lemma {:induction false} TotalFinds<T>(s: seq<T>, held: T -> multiset<int>, fd: Fd) returns (i: nat)
    requires fd in Total(s, held)
    ensures i < |s| && fd in held(s[i])
  {
    var n := |s| - 1;
    if fd in held(s[n]) { i := n; } else { i := TotalFinds(s[..n], held, fd); }
  }

  lemma HolderFinds(w: World, fd: Fd) returns (h: Holder)
    requires fd in AllHeld(w)
    ensures Exists(w, h) && fd in HeldBy(w, h)
  {
    hide Construct.KitHeld, Total, TicketHeld, SlotsFds, DriverHeld;
    if fd in Total(w.tickets, TicketHeld) {
      var id := TotalFinds(w.tickets, TicketHeld, fd); h := ByTicket(id);
    } else if fd in Total(w.slots, SlotsFds) {
      var i := TotalFinds(w.slots, SlotsFds, fd); h := BySlot(i);
    } else if fd in Total(w.drivers, DriverHeld) {
      var d := TotalFinds(w.drivers, DriverHeld, fd); h := ByDriver(d);
    } else {
      h := ByWorker;
    }
  }

  /** In every reachable state the open descriptors are exactly those held, each by one ticket, slot, driver or the
      worker; tokens are never reused, so whatever is held by none has been closed, once. */
  lemma DescriptorsHeldOnce(es: seq<Event>, fd: Fd)
    requires Legal(INIT, es)
    ensures var w := After(INIT, es);
            && (fd in w.os.open <==> exists h :: Exists(w, h) && fd in HeldBy(w, h))
            && (forall g, h :: Exists(w, g) && Exists(w, h) && fd in HeldBy(w, g) && fd in HeldBy(w, h) ==> g == h)
  {
    ReachableInv(es);
    hide Legal, After;
    var w := After(INIT, es);
    assert Accounted(w) by {
      hide Accounted, TicketsOk, SlotsOk, HomesOk, RootsOk, QueueOk, DriversOk, Sane, WorkerOk, LockOk;
    }
    hide Inv, HeldBy, Exists;
    if fd in w.os.open {
      assert fd in AllHeld(w) by { hide AllHeld; }
      var h := HolderFinds(w, fd);
    }
    hide Accounted;
    forall g, h | Exists(w, g) && Exists(w, h) && fd in HeldBy(w, g) && fd in HeldBy(w, h)
      ensures g == h && fd in w.os.open
    {
      OneHolder(w, g, h, fd);
    }
  }

  /** A ticket that failed, aborted, lost its wait or was disposed holds nothing. */
  lemma TerminalTicketsHoldNone(es: seq<Event>, id: nat)
    requires Legal(INIT, es) && id < |After(INIT, es).tickets|
    ensures var t := After(INIT, es).tickets[id];
            t.step == FAILED || t.step == ABORTED || t.step == LOST_WAIT || t.state == DISPOSED ==>
              t.fds == NO_FDS && t.slot == 0
  {
    ReachableInv(es);
    hide Legal, After;
    ShapeOf(After(INIT, es), id);
    hide Inv;
  }

  lemma ShapeOf(w: World, id: nat)
    requires Inv(w) && id < |w.tickets|
    ensures TicketShape(w.tickets[id])
  {
    hide Accounted, TicketsOk, SlotsOk, HomesOk, RootsOk, QueueOk, DriversOk, Sane, WorkerOk, LockOk;
    OneTicket(w, id);
    hide TicketShape, FdsOk, OwnsSlot;
  }

  /** No child is lost track of: each unreaped one is the pidfd of one ticket, or of one slot whose launch is not
      adopted yet. */
  lemma ChildrenTracked(es: seq<Event>, pid: Fd)
    requires Legal(INIT, es) && pid in After(INIT, es).os.unreaped
    ensures var w := After(INIT, es);
            || (exists id :: 0 <= id < |w.tickets| && w.tickets[id].fds.pid == pid)
            || (exists i :: 0 <= i < |w.slots| && w.slots[i].native.fds.pid == pid && w.slots[i].native.created)
  {
    ReachableInv(es);
    hide Legal, After;
    ChildHolder(After(INIT, es), pid);
    hide Inv;
  }

  lemma ChildHolder(w: World, pid: Fd)
    requires pid in w.os.unreaped && Inv(w)
    ensures || (exists id :: 0 <= id < |w.tickets| && w.tickets[id].fds.pid == pid)
            || (exists i :: 0 <= i < |w.slots| && w.slots[i].native.fds.pid == pid && w.slots[i].native.created)
  {
    hide TicketsOk, SlotsOk, HomesOk, RootsOk, QueueOk, DriversOk, WorkerOk, LockOk, HeldBy;
    assert pid in w.os.open && pid in AllHeld(w) by { hide AllHeld; }
    var h := HolderFinds(w, pid);
    hide Accounted, Sane;
    match h
    case ByTicket(id) => OneTicket(w, id); TicketChild(w, id, pid);
    case BySlot(i) => SlotChild(w, i, pid);
    case ByWorker => WorkerChild(w, pid);
    case ByDriver(d) => DriverChild(w, d, pid);
  }

  lemma OneOf(fd: Fd, f: Fds)
    requires fd in Held(f)
    ensures fd == f.pid || fd == f.err || fd == f.s0 || fd == f.s1 || fd == f.s2
  {}

  lemma TicketChild(w: World, id: nat, pid: Fd)
    requires id < |w.tickets| && TicketOk(id, w.tickets[id], w.slots, w.os) && pid in HeldBy(w, ByTicket(id))
             && pid in w.os.unreaped
    ensures w.tickets[id].fds.pid == pid
  {
    OneOf(pid, w.tickets[id].fds);
    hide TicketShape, OwnsSlot, Held;
  }

  lemma SlotChild(w: World, i: nat, pid: Fd)
    requires i < |w.slots| && pid in HeldBy(w, BySlot(i)) && pid in w.os.unreaped && Core(w)
    ensures w.slots[i].native.fds.pid == pid && w.slots[i].native.created
  {
    hide Accounted, TicketsOk, HomesOk, RootsOk, QueueOk, DriversOk, Sane, WorkerOk;
    OneOf(pid, w.slots[i].native.fds);
    OneSlot(w, i);
    Construct.Fresh(w.os);
    hide SlotsOk, HeldBy;
    var q, n := w.slots[i], w.slots[i].native;
    SomethingHeld(n.fds, pid);
    if q.phase == Working {
      WorkerSlotChild(w, pid);
    } else {
      assert q.phase == Done by { hide TicketOk; }
      hide SlotOk;
      DoneSlotChild(w, i, pid);
    }
  }

  lemma SomethingHeld(f: Fds, fd: Fd)
    requires fd in Held(f)
    ensures f != NO_FDS
  {
    NoneHeld();
  }

  lemma DoneSlotChild(w: World, i: nat, pid: Fd)
    requires i < |w.slots| && SlotsOk(w) && TicketsOk(w) && w.slots[i].phase == Done && w.slots[i].native.fds != NO_FDS
    requires pid in w.os.unreaped && -1 !in w.os.unreaped
    requires var f := w.slots[i].native.fds; pid == f.pid || pid == f.err || pid == f.s0 || pid == f.s1 || pid == f.s2
    ensures w.slots[i].native.fds.pid == pid && w.slots[i].native.created
  {
    hide TicketsOk, SlotsOk;
    OneSlot(w, i);
    OneTicket(w, w.slots[i].owner.value);
    hide TicketShape, SlotOk;
  }

  lemma WorkerSlotChild(w: World, pid: Fd)
    requires w.worker.Busy? && w.worker.slot < |w.slots| && WorkerOk(w) && pid in w.os.unreaped
    requires var f := w.slots[w.worker.slot].native.fds;
             pid == f.pid || pid == f.err || pid == f.s0 || pid == f.s1 || pid == f.s2
    requires -1 !in w.os.unreaped
    ensures var n := w.slots[w.worker.slot].native; n.fds.pid == pid && n.created
  {}

  lemma WorkerChild(w: World, pid: Fd)
    requires WorkerOk(w)
    ensures pid in HeldBy(w, ByWorker) ==> pid !in w.os.unreaped
  {
    hide Construct.StageOk, NativeDone;
  }

  lemma DriverChild(w: World, d: nat, pid: Fd)
    requires DriversOk(w.drivers, w.tickets, w.os) && d < |w.drivers|
    ensures pid in HeldBy(w, ByDriver(d)) ==> pid !in w.os.unreaped
  {
    assert DriverOk(w.drivers[d], w.tickets, w.os);
  }

  // ----- The rooted list

  /** The list holds exactly the tickets whose launch is pending or whose owned process is not disposed, each once. */
  lemma RootsExact(es: seq<Event>, id: nat)
    requires Legal(INIT, es)
    ensures var w := After(INIT, es);
            && (id in w.roots <==>
                  && id < |w.tickets|
                  && (w.tickets[id].step == PENDING
                      || (w.tickets[id].step == OWNED && w.tickets[id].state != DISPOSED)))
            && (forall i, j :: 0 <= i < j < |w.roots| ==> w.roots[i] != w.roots[j])
  {
    ReachableInv(es);
    hide Legal, After;
    var w := After(INIT, es);
    assert RootsOk(w.roots, w.tickets) by {
      hide Accounted, TicketsOk, SlotsOk, HomesOk, RootsOk, QueueOk, DriversOk, Sane, WorkerOk, LockOk;
    }
    hide Inv;
  }

  // ----- Verdicts

  lemma {:induction false} RunAdvances(w: World, es: seq<Event>, id: nat)
    requires Inv(w) && Legal(w, es) && id < |w.tickets|
    ensures Inv(After(w, es)) && id < |After(w, es).tickets| && TicketAdvances(w.tickets[id], After(w, es).tickets[id])
    decreases |es|
  {
    hide Inv, Enabled, Apply;
    if es != [] {
      Inductive(w, es[0]);
      StepAdvances(w, es[0]);
      assert TicketAdvances(w.tickets[id], Apply(w, es[0]).tickets[id]);
      hide Advances;
      RunAdvances(Apply(w, es[0]), es[1..], id);
    }
  }

  /** A verdict once given never changes. */
  lemma VerdictsFinal(es: seq<Event>, fs: seq<Event>, id: nat)
    requires Legal(INIT, es) && id < |After(INIT, es).tickets| && After(INIT, es).tickets[id].step != PENDING
    requires Legal(After(INIT, es), fs)
    ensures var w := After(INIT, es);
            id < |After(w, fs).tickets| && After(w, fs).tickets[id].step == w.tickets[id].step
  {
    ReachableInv(es);
    hide Legal, After, Inv;
    RunAdvances(After(INIT, es), fs, id);
  }

  /** Once an abort is accepted on a pending ticket, nothing any thread does afterwards makes it OWNED: its verdict is
      ABORTED, FAILED or LOST_WAIT when it comes, and no blocked driver returns ownership. */
  lemma CancellationDecisive(es: seq<Event>, id: nat, a: Answers, fs: seq<Event>)
    requires Legal(INIT, es) && Enabled(After(INIT, es), AbortBegin(id, a))
    requires id < |After(INIT, es).tickets| && After(INIT, es).tickets[id].step == PENDING
    requires Legal(Apply(After(INIT, es), AbortBegin(id, a)), fs)
    ensures var v := After(Apply(After(INIT, es), AbortBegin(id, a)), fs);
            && id < |v.tickets|
            && v.tickets[id].step in {PENDING, ABORTED, FAILED, LOST_WAIT} && v.tickets[id].state != RUNNING
            && forall d :: 0 <= d < |v.drivers| && v.drivers[d].id == id ==> v.drivers[d].pc != Returned(OWNED)
  {
    ReachableInv(es);
    hide Legal, After, Inv, Enabled, Apply;
    var w := After(INIT, es);
    var u := Apply(w, AbortBegin(id, a));
    AbortCancels(w, id, a);
    Inductive(w, AbortBegin(id, a));
    RunAdvances(u, fs, id);
    CancelledNeverOwned(After(u, fs), id);
  }

  lemma AbortCancels(w: World, id: nat, a: Answers)
    requires id < |w.tickets| && w.tickets[id].step == PENDING && Inv(w) && Enabled(w, AbortBegin(id, a))
    ensures var u := Apply(w, AbortBegin(id, a)); id < |u.tickets| && u.tickets[id].cancelled
  {
    hide Core, LockOk, LocalInv, FinishAbort, Moves, Answered;
    TicketSteps.CoreAt(w, id);
    var l := GetLocal(w, id);
    if l.t.state != SUBMITTED {
      AbortKeeps(id, l, a);
    }
    hide Enabled;
  }

  lemma CancelledNeverOwned(v: World, id: nat)
    requires id < |v.tickets| && v.tickets[id].cancelled && Inv(v)
    ensures v.tickets[id].step in {PENDING, ABORTED, FAILED, LOST_WAIT} && v.tickets[id].state != RUNNING
    ensures forall d :: 0 <= d < |v.drivers| && v.drivers[d].id == id ==> v.drivers[d].pc != Returned(OWNED)
  {
    ShapeOf(v, id);
    assert DriversOk(v.drivers, v.tickets, v.os) by {
      hide Accounted, TicketsOk, SlotsOk, HomesOk, RootsOk, QueueOk, DriversOk, Sane, WorkerOk, LockOk, TicketShape;
    }
    hide Inv;
    forall d | 0 <= d < |v.drivers| && v.drivers[d].id == id ensures v.drivers[d].pc != Returned(OWNED) {
      assert DriverOk(v.drivers[d], v.tickets, v.os);
    }
  }

  /** ABORTED is the verdict of tickets an abort was accepted for, and of no other. */
  lemma AbortedOnlyIfAsked(es: seq<Event>, id: nat)
    requires Legal(INIT, es) && id < |After(INIT, es).tickets|
    ensures var t := After(INIT, es).tickets[id]; t.step == ABORTED ==> t.cancelled
  {
    ReachableInv(es);
    hide Legal, After;
    ShapeOf(After(INIT, es), id);
    hide Inv;
  }
}
