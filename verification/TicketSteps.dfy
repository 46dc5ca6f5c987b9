/** An operation on one ticket keeps the invariant of the whole protocol. */
module TicketSteps {
  import opened Wrappers
  import opened Kernel
  import opened Launch
  import opened LaunchLocal
  import opened Construct
  import opened Protocol
  import opened Accounting
  import opened Invariant

  // ----- Descriptors

  lemma PutAccounted(w: World, id: nat, m: Local)
    requires HasSlot(w, id) && Balanced(GetLocal(w, id), m) && SlotMoves(GetLocal(w, id), m) && Accounted(w)
    ensures Accounted(PutLocal(w, id, m))
  {
    var l, v := GetLocal(w, id), PutLocal(w, id, m);
    hide LocalHeld, AllHeld, SlotMoves;
    PutTotals(w, id, m);
    Rebalance(AllHeld(v), LocalHeld(l), AllHeld(w), LocalHeld(m), multiset(m.os.open));
  }

  lemma Rebalance(after: multiset<int>, l: multiset<int>, before: multiset<int>, m: multiset<int>, open: multiset<int>)
    requires after + l == before + m && open + l == before + m
    ensures after == open
  {
    forall x ensures after[x] == open[x] {
      assert (after + l)[x] == (before + m)[x] && (open + l)[x] == (before + m)[x];
    }
  }

  lemma PutTotals(w: World, id: nat, m: Local)
    requires HasSlot(w, id) && SlotMoves(GetLocal(w, id), m)
    ensures AllHeld(PutLocal(w, id, m)) + LocalHeld(GetLocal(w, id)) == AllHeld(w) + LocalHeld(m)
  {
    if w.tickets[id].slot == 0 { PutTotalsSlotless(w, id, m); } else { PutTotalsSlotted(w, id, m); }
    hide AllHeld, LocalHeld, SlotMoves, PutLocal, GetLocal;
  }

  lemma PutTotalsSlotless(w: World, id: nat, m: Local)
    requires HasSlot(w, id) && SlotMoves(GetLocal(w, id), m) && w.tickets[id].slot == 0
    ensures AllHeld(PutLocal(w, id, m)) + LocalHeld(GetLocal(w, id)) == AllHeld(w) + LocalHeld(m)
  {
    var v, t, slots := PutLocal(w, id, m), w.tickets[id], Total(w.slots, SlotsFds);
    TotalUpdate(w.tickets, TicketHeld, id, m.t);
    SlotlessHeld(GetLocal(w, id), m);
    hide Held, LocalHeld, SlotMoves, Total, KitHeld, TicketHeld, SlotsFds;
    AddFour(Total(v.tickets, TicketHeld), TicketHeld(t), Total(w.tickets, TicketHeld), TicketHeld(m.t),
            slots, multiset{}, slots, multiset{}, KitHeld(WorkerKit(w.worker)), Total(w.drivers, DriverHeld));
  }

  lemma PutTotalsSlotted(w: World, id: nat, m: Local)
    requires HasSlot(w, id) && SlotMoves(GetLocal(w, id), m) && w.tickets[id].slot != 0
    ensures AllHeld(PutLocal(w, id, m)) + LocalHeld(GetLocal(w, id)) == AllHeld(w) + LocalHeld(m)
  {
    var l, v, t := GetLocal(w, id), PutLocal(w, id, m), w.tickets[id];
    TotalUpdate(w.tickets, TicketHeld, id, m.t);
    TotalUpdate(w.slots, SlotsFds, t.slot - 1, m.slot);
    SlottedHeld(l, m);
    hide Held, LocalHeld, SlotMoves, Total, KitHeld, TicketHeld, SlotsFds;
    AddFour(Total(v.tickets, TicketHeld), TicketHeld(t), Total(w.tickets, TicketHeld), TicketHeld(m.t),
            Total(v.slots, SlotsFds), SlotsFds(l.slot), Total(w.slots, SlotsFds), SlotsFds(m.slot),
            KitHeld(WorkerKit(w.worker)), Total(w.drivers, DriverHeld));
  }

  lemma SlotlessHeld(l: Local, m: Local)
    requires SlotMoves(l, m) && l.t.slot == 0
    ensures LocalHeld(l) == TicketHeld(l.t) + multiset{} && LocalHeld(m) == TicketHeld(m.t) + multiset{}
  {
    hide Held;
  }

  lemma SlottedHeld(l: Local, m: Local)
    requires SlotMoves(l, m) && l.t.slot != 0
    ensures LocalHeld(l) == TicketHeld(l.t) + SlotsFds(l.slot) && LocalHeld(m) == TicketHeld(m.t) + SlotsFds(m.slot)
  {
    NoneHeld();
    hide Held;
  }

  lemma AddFour(ta: multiset<int>, t: multiset<int>, tb: multiset<int>, u: multiset<int>,
                sa: multiset<int>, q: multiset<int>, sb: multiset<int>, r: multiset<int>, k: multiset<int>,
                d: multiset<int>)
    requires ta + t == tb + u && sa + q == sb + r
    ensures ta + sa + k + d + (t + q) == tb + sb + k + d + (u + r)
  {
    forall x ensures (ta + sa + k + d + (t + q))[x] == (tb + sb + k + d + (u + r))[x] {
      assert (ta + t)[x] == (tb + u)[x] && (sa + q)[x] == (sb + r)[x];
    }
  }

  // ----- The other tickets

  /** A holder whose child is not the operation's own keeps its descriptors in order. */
  lemma FdsKept(l: Local, m: Local, f: Fds, signalled: bool)
    requires KernelMoves(l, m) && FdsOk(l.os, f, signalled) && (f.pid >= 0 ==> f.pid !in OwnChildren(l))
    ensures FdsOk(m.os, f, signalled)
  {
    hide OwnChildren;
  }

  lemma PidApart(w: World, id: nat, h: Holder, f: Fds)
    requires Accounted(w) && HasSlot(w, id) && Exists(w, h) && HeldBy(w, h) == Held(f) && f.pid >= 0
    requires h != ByTicket(id) && (w.tickets[id].slot != 0 ==> h != BySlot(w.tickets[id].slot - 1))
    ensures f.pid !in OwnChildren(GetLocal(w, id))
  {
    assert f.pid in Held(f) by { assert f.pid in One(f.pid); }
    hide HeldBy, Accounted, LocalHeld;
    OthersApart(w, id, h, f.pid);
    if f.pid in OwnChildren(GetLocal(w, id)) {
      ChildHeld(GetLocal(w, id), f.pid);
    }
  }

  /** Another slot's finished launch keeps its descriptors in order. */
  lemma OtherSlotDone(w: World, id: nat, m: Local, i: nat)
    requires Accounted(w) && HasSlot(w, id) && i < |w.slots| && w.tickets[id].slot != i + 1
    requires KernelMoves(GetLocal(w, id), m) && NativeDone(w.slots[i].native, w.os)
    ensures NativeDone(w.slots[i].native, m.os)
  {
    var n := w.slots[i].native;
    if n.created {
      PidApart(w, id, BySlot(i), n.fds) by { hide Held, Accounted, KernelMoves, FdsOk; }
      FdsKept(GetLocal(w, id), m, n.fds, false) by { hide Held, Accounted, KernelMoves; }
    }
    hide FdsOk, KernelMoves, Accounted, GetLocal;
  }

  lemma OtherTicketOk(w: World, id: nat, m: Local, other: nat)
    requires Accounted(w) && HasSlot(w, id) && KernelMoves(GetLocal(w, id), m)
    requires TicketOk(id, w.tickets[id], w.slots, w.os)
    requires other < |w.tickets| && other != id && TicketOk(other, w.tickets[other], w.slots, w.os)
    ensures var v := PutLocal(w, id, m); TicketOk(other, v.tickets[other], v.slots, v.os)
  {
    hide KernelMoves, TicketShape, Accounted, FdsOk, NativeDone, GetLocal;
    var t := w.tickets[other];
    OtherFds(w, id, m, other);
    if t.slot != 0 && t.state == SUBMITTED && w.slots[t.slot - 1].phase == Done {
      OtherSlotDone(w, id, m, t.slot - 1);
    }
  }

  lemma OtherFds(w: World, id: nat, m: Local, other: nat)
    requires Accounted(w) && HasSlot(w, id) && KernelMoves(GetLocal(w, id), m)
    requires other < |w.tickets| && other != id && FdsOk(w.os, w.tickets[other].fds, w.tickets[other].signalled)
    ensures FdsOk(m.os, w.tickets[other].fds, w.tickets[other].signalled)
  {
    var t := w.tickets[other];
    hide KernelMoves, Accounted, FdsOk;
    if t.fds.pid >= 0 { PidApart(w, id, ByTicket(other), t.fds); }
    FdsKept(GetLocal(w, id), m, t.fds, t.signalled);
  }

  lemma PutTicketsOk(w: World, id: nat, m: Local)
    requires HasSlot(w, id) && Moves(GetLocal(w, id), m) && LocalInv(id, m) && Accounted(w) && TicketsOk(w)
    ensures TicketsOk(PutLocal(w, id, m))
  {
    var v, l := PutLocal(w, id, m), GetLocal(w, id);
    assert KernelMoves(l, m) && TicketMoves(l, m) && SlotMoves(l, m);
    hide Moves, KernelMoves, TicketMoves, SlotMoves, LocalInv, Accounted, TicketShape, FdsOk, OwnsSlot, GetLocal;
    assert TicketOk(id, w.tickets[id], w.slots, w.os);
    OwnTicketOk(w, id, m);
    hide TicketOk, PutLocal;
    forall other | 0 <= other < |v.tickets| ensures TicketOk(other, v.tickets[other], v.slots, v.os) {
      if other != id {
        assert other < |w.tickets| by { PutSizes(w, id, m); }
        assert TicketOk(other, w.tickets[other], w.slots, w.os);
        OtherTicketOk(w, id, m, other);
      }
    }
  }

  lemma PutSizes(w: World, id: nat, m: Local)
    requires HasSlot(w, id)
    ensures var v := PutLocal(w, id, m); |v.tickets| == |w.tickets| && |v.slots| == |w.slots|
  {}

  lemma OwnTicketOk(w: World, id: nat, m: Local)
    requires HasSlot(w, id) && TicketMoves(GetLocal(w, id), m) && SlotMoves(GetLocal(w, id), m) && LocalInv(id, m)
    requires w.tickets[id].slot != 0 ==> w.tickets[id].home == w.tickets[id].slot
    ensures var v := PutLocal(w, id, m); TicketOk(id, v.tickets[id], v.slots, v.os)
  {
    hide TicketShape, FdsOk, Sane, Backed, NativeDone;
  }

  // ----- Slots, worker, queue

  lemma PutSlotsOk(w: World, id: nat, m: Local)
    requires HasSlot(w, id) && SlotMoves(GetLocal(w, id), m) && !w.lock.Submitting? && SlotsOk(w)
    requires w.tickets[id].slot != 0 ==> w.slots[w.tickets[id].slot - 1].owner == Some(id)
    requires m.t.slot != 0 ==> OwnsSlot(id, m.t, m.slot, m.os)
    ensures SlotsOk(PutLocal(w, id, m))
  {
    var v := PutLocal(w, id, m);
    hide SlotMoves, OwnsSlot, SlotOk, Claimed, BusyAt, GetLocal;
    forall i | 0 <= i < |v.slots| ensures SlotOk(i, v.slots[i], Claimed(v, i), BusyAt(v.worker, i), v.tickets) {
      assert SlotOk(i, w.slots[i], Claimed(w, i), BusyAt(w.worker, i), w.tickets);
      if i + 1 == w.tickets[id].slot { OwnSlotOk(w, id, m); } else { OtherSlotOk(w, id, m, i); }
    }
  }

  lemma OwnSlotOk(w: World, id: nat, m: Local)
    requires HasSlot(w, id) && w.tickets[id].slot != 0 && SlotMoves(GetLocal(w, id), m) && !w.lock.Submitting?
    requires w.slots[w.tickets[id].slot - 1].owner == Some(id)
    requires m.t.slot != 0 ==> OwnsSlot(id, m.t, m.slot, m.os)
    requires var i := w.tickets[id].slot - 1; SlotOk(i, w.slots[i], Claimed(w, i), BusyAt(w.worker, i), w.tickets)
    ensures var v, i := PutLocal(w, id, m), w.tickets[id].slot - 1;
            SlotOk(i, v.slots[i], Claimed(v, i), BusyAt(v.worker, i), v.tickets)
  {
    hide NativeDone;
  }

  lemma OtherSlotOk(w: World, id: nat, m: Local, i: nat)
    requires HasSlot(w, id) && i < |w.slots| && w.tickets[id].slot != i + 1 && !w.lock.Submitting?
    requires SlotOk(i, w.slots[i], Claimed(w, i), BusyAt(w.worker, i), w.tickets)
    ensures var v := PutLocal(w, id, m); SlotOk(i, v.slots[i], Claimed(v, i), BusyAt(v.worker, i), v.tickets)
  {}

  /** The worker's slot is in nobody's hands: no operation touches what it has made. */
  lemma PutWorkerOk(w: World, id: nat, m: Local)
    requires HasSlot(w, id) && KernelMoves(GetLocal(w, id), m) && SlotMoves(GetLocal(w, id), m)
    requires Accounted(w) && WorkerOk(w)
             && (w.worker.Busy? && w.worker.slot < |w.slots| ==> w.slots[w.worker.slot].phase == Working)
    ensures WorkerOk(PutLocal(w, id, m))
  {
    var v := PutLocal(w, id, m);
    if w.worker.Busy? {
      var b, c := WorkerBench(w), WorkerBench(v);
      assert c == b.(os := m.os) by { hide KernelMoves, Accounted, NativeDone, StageOk, NoChildren; }
      assert m.os.unreaped <= w.os.unreaped by { hide SlotMoves, NativeDone, StageOk, NoChildren; }
      hide SlotMoves, Accounted, KernelMoves, NativeDone, StageOk, GetLocal;
      if b.stage == Publish { WorkerDone(w, id, m); }
      StageKernel(b, m.os);
    }
  }

  lemma StageKernel(b: Bench, os: Os)
    ensures StageOk(b.(os := os)) == StageOk(b)
  {}

  lemma WorkerDone(w: World, id: nat, m: Local)
    requires Accounted(w) && HasSlot(w, id) && KernelMoves(GetLocal(w, id), m)
    requires w.worker.Busy? && w.worker.slot < |w.slots| && w.slots[w.worker.slot].phase == Working
    requires NativeDone(w.slots[w.worker.slot].native, w.os)
    ensures NativeDone(w.slots[w.worker.slot].native, m.os)
  {
    var i, l := w.worker.slot, GetLocal(w, id);
    var n := w.slots[i].native;
    if w.tickets[id].slot != i + 1 {
      hide NativeDone, KernelMoves, Accounted, GetLocal;
      OtherSlotDone(w, id, m, i);
    } else if n.created {
      assert l.os == w.os && OwnChildren(l) == Child(w.tickets[id].fds.pid);
      assert FdsOk(w.os, n.fds, false) && n.fds.pid >= 0;
      hide NativeDone, KernelMoves, OwnChildren, Accounted, Held, GetLocal, FdsOk;
      WorkingPid(w, id, i);
      FdsKept(l, m, n.fds, false);
      assert NativeDone(n, m.os) by { assert FdsOk(m.os, n.fds, false); }
    }
  }

  lemma WorkingPid(w: World, id: nat, i: nat)
    requires Accounted(w) && id < |w.tickets| && i < |w.slots| && w.slots[i].native.fds.pid >= 0
    ensures w.slots[i].native.fds.pid !in Child(w.tickets[id].fds.pid)
  {
    hide HeldBy, Held, Accounted;
    var f, g := w.slots[i].native.fds, w.tickets[id].fds;
    HolderFds(w, id, i);
    HasPid(f);
    HoldersApart(w, BySlot(i), ByTicket(id), f.pid);
    if g.pid >= 0 { HasPid(g); }
  }

  lemma HolderFds(w: World, id: nat, i: nat)
    requires id < |w.tickets| && i < |w.slots|
    ensures HeldBy(w, BySlot(i)) == Held(w.slots[i].native.fds) && HeldBy(w, ByTicket(id)) == Held(w.tickets[id].fds)
  {
    hide Held;
  }

  lemma HoldersApart(w: World, g: Holder, h: Holder, fd: Fd)
    requires Accounted(w) && Exists(w, g) && Exists(w, h) && g != h && fd in HeldBy(w, g)
    ensures fd !in HeldBy(w, h)
  {
    hide Accounted, HeldBy;
    if fd in HeldBy(w, h) { OneHolder(w, g, h, fd); }
  }

  lemma HasPid(f: Fds)
    requires f.pid >= 0
    ensures f.pid in Held(f)
  {
    assert f.pid in One(f.pid);
  }

  lemma {:induction false} SamePhases(s: seq<Slot>, t: seq<Slot>)
    requires |s| == |t| && forall i :: 0 <= i < |s| ==> (s[i].phase == Queued <==> t[i].phase == Queued)
    ensures QueuedCount(s) == QueuedCount(t)
  {
    if s != [] { SamePhases(s[..|s| - 1], t[..|s| - 1]); }
  }

  /** No operation on a ticket queues a slot or takes one off the queue. */
  lemma PutQueueOk(w: World, id: nat, m: Local)
    requires HasSlot(w, id) && SlotMoves(GetLocal(w, id), m) && QueueOk(w.slots, w.sem, w.posts, w.worker, w.next)
    ensures var v := PutLocal(w, id, m); QueueOk(v.slots, v.sem, v.posts, v.worker, v.next)
  {
    var v, l := PutLocal(w, id, m), GetLocal(w, id);
    assert forall i :: 0 <= i < |w.slots| ==> (v.slots[i].phase == Queued <==> w.slots[i].phase == Queued);
    SamePhases(v.slots, w.slots);
    if w.worker.Scanning? {
      var o :| w.worker.offset <= o < SLOTS && QueuedAt(w.slots, w.next, o);
      assert QueuedAt(v.slots, v.next, o);
    }
  }

  // ----- Homes, roots, drivers

  lemma PutHomesOk(w: World, id: nat, m: Local)
    requires HasSlot(w, id) && TicketMoves(GetLocal(w, id), m) && SlotMoves(GetLocal(w, id), m)
             && HomesOk(w.tickets, w.slots)
    ensures var v := PutLocal(w, id, m); HomesOk(v.tickets, v.slots)
  {
    var v := PutLocal(w, id, m);
    assert forall i :: 0 <= i < |w.slots| ==> v.slots[i].generation == w.slots[i].generation;
    assert forall a :: 0 <= a < |w.tickets| ==>
             v.tickets[a].home == w.tickets[a].home && v.tickets[a].generation == w.tickets[a].generation;
    hide PutLocal, TicketMoves, SlotMoves;
  }

  lemma {:induction false} WithoutIs(roots: seq<nat>, id: nat)
    requires NoRepeats(roots)
    ensures NoRepeats(Without(roots, id))
    ensures forall x: nat :: x in Without(roots, id) <==> x in roots && x != id
  {
    if roots != [] {
      WithoutIs(roots[1..], id);
      assert forall x: nat :: x in roots <==> x == roots[0] || x in roots[1..];
      var tail := Without(roots[1..], id);
      if roots[0] != id {
        assert roots[0] !in tail by { assert roots[0] !in roots[1..]; }
        assert Without(roots, id) == [roots[0]] + tail;
      }
    }
  }

  lemma PutRootsOk(w: World, id: nat, m: Local)
    requires HasSlot(w, id) && TicketMoves(GetLocal(w, id), m) && RootsOk(w.roots, w.tickets)
    requires m.unrooted == (Rooted(w.tickets[id]) && !Rooted(m.t))
    ensures var v := PutLocal(w, id, m); RootsOk(v.roots, v.tickets)
  {
    var v := PutLocal(w, id, m);
    WithoutIs(w.roots, id);
    hide NoRepeats;
    assert Rooted(m.t) ==> Rooted(w.tickets[id]);
    forall x: nat ensures x in v.roots <==> x < |v.tickets| && Rooted(v.tickets[x]) {
      assert x in w.roots <==> x < |w.tickets| && Rooted(w.tickets[x]);
    }
    hide PutLocal, Rooted;
  }

  lemma PutDriversOk(w: World, id: nat, m: Local)
    requires HasSlot(w, id) && TicketMoves(GetLocal(w, id), m) && m.os.unreaped <= w.os.unreaped
    requires DriversOk(w.drivers, w.tickets, w.os)
    ensures var v := PutLocal(w, id, m); DriversOk(v.drivers, v.tickets, v.os)
  {
    var v := PutLocal(w, id, m);
    forall d | 0 <= d < |v.drivers| ensures DriverOk(v.drivers[d], v.tickets, v.os) {
      assert DriverOk(w.drivers[d], w.tickets, w.os);
    }
  }

  lemma CoreAt(w: World, id: nat)
    requires Core(w) && id < |w.tickets|
    ensures HasSlot(w, id) && LocalInv(id, GetLocal(w, id))
    ensures w.tickets[id].slot != 0 ==> w.slots[w.tickets[id].slot - 1].owner == Some(id)
  {
    hide Accounted, SlotsOk, WorkerOk, HomesOk, RootsOk, QueueOk, DriversOk, Sane, TicketShape, FdsOk, NativeDone,
         LocalInv, GetLocal;
    assert TicketOk(id, w.tickets[id], w.slots, w.os);
    LocalFromWorld(w, id);
  }

  lemma CoreWorker(w: World)
    requires SlotsOk(w) && w.worker.Busy? && w.worker.slot < |w.slots|
    ensures w.slots[w.worker.slot].phase == Working
  {
    var i := w.worker.slot;
    assert SlotOk(i, w.slots[i], Claimed(w, i), BusyAt(w.worker, i), w.tickets);
  }

  /** The lift: an operation that keeps its own ticket's invariant and frame keeps the protocol's. */
  lemma PutKeeps(w: World, id: nat, m: Local)
    requires Core(w) && id < |w.tickets| && HasSlot(w, id) && !w.lock.Submitting?
    requires LocalInv(id, m) && Moves(GetLocal(w, id), m) && !GetLocal(w, id).unrooted
    ensures Core(PutLocal(w, id, m))
  {
    var l, v := GetLocal(w, id), PutLocal(w, id, m);
    CoreAt(w, id) by { hide Core, LocalInv, Moves; }
    assert m.os.unreaped <= w.os.unreaped && Balanced(l, m) && TicketMoves(l, m) && SlotMoves(l, m)
           && KernelMoves(l, m) by {
      hide Core, LocalInv, Balanced, SlotMoves, TicketMoves;
    }
    assert !m.broken && Sane(m.os)
           && (m.t.slot != 0 ==> OwnsSlot(id, m.t, m.slot, m.os)) by {
      hide Core, Moves, Sane, TicketShape, FdsOk, NativeDone, Backed;
    }
    hide LocalInv, Moves, KernelMoves, TicketMoves, SlotMoves, OwnsSlot, Balanced, Sane, GetLocal;
    hide Accounted, TicketsOk, SlotsOk, WorkerOk, HomesOk, RootsOk, QueueOk, DriversOk;
    PutAccounted(w, id, m);
    PutTicketsOk(w, id, m);
    PutSlotsOk(w, id, m);
    if w.worker.Busy? && w.worker.slot < |w.slots| { CoreWorker(w); }
    PutWorkerOk(w, id, m);
    PutQueueOk(w, id, m);
    PutHomesOk(w, id, m);
    PutRooted(w, id, m) by { hide Core; }
    PutRootsOk(w, id, m);
    PutDriversOk(w, id, m);
  }

  lemma PutRooted(w: World, id: nat, m: Local)
    requires HasSlot(w, id) && TicketMoves(GetLocal(w, id), m)
    ensures m.unrooted == (Rooted(w.tickets[id]) && !Rooted(m.t))
  {}
}
