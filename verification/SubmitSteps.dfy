/** The submitter's steps keep the invariant of the protocol. */
module SubmitSteps {
  import opened Wrappers
  import opened Kernel
  import opened Launch
  import opened LaunchLocal
  import opened Construct
  import opened Protocol
  import opened Accounting
  import opened Invariant
  import TicketSteps
  import opened WorkerSteps

  // ----- A new ticket

  lemma RootsAppend(tickets: seq<Ticket>, roots: seq<nat>, t: Ticket)
    requires RootsOk(roots, tickets) && Rooted(t)
    ensures RootsOk([|tickets|] + roots, tickets + [t])
  {
    var r, u := [|tickets|] + roots, tickets + [t];
    assert |tickets| !in roots;
    forall x: nat ensures x in r <==> x < |u| && Rooted(u[x]) {
      assert x in r <==> x == |tickets| || x in roots;
    }
  }

  lemma DriversAppend(drivers: seq<Driver>, tickets: seq<Ticket>, os: Os, t: Ticket)
    requires DriversOk(drivers, tickets, os)
    ensures DriversOk(drivers, tickets + [t], os)
  {
    forall d | 0 <= d < |drivers| ensures DriverOk(drivers[d], tickets + [t], os) {
      assert DriverOk(drivers[d], tickets, os);
    }
  }

  lemma FreeSlot(w: World, i: nat)
    requires SlotsOk(w) && i < |w.slots| && w.slots[i].phase == Free && w.lock == Unlocked
    ensures w.slots[i].owner == None && w.slots[i].native.fds == NO_FDS && !Claimed(w, i) && !BusyAt(w.worker, i)
  {
    assert SlotOk(i, w.slots[i], Claimed(w, i), BusyAt(w.worker, i), w.tickets);
  }

  ghost predicate Filled(w: World, i: nat, inputs: Inputs, v: World) {
    && i < |w.slots| && w.slots[i].phase == Free && w.slots[i].generation < LAST_GENERATION && w.lock == Unlocked
    && var id, g := |w.tickets|, w.slots[i].generation + 1;
       v == w.(slots := w.slots[i := Slot(Free, false, g, FRESH_NATIVE, Some(id), Some(inputs))],
               tickets := w.tickets + [NEW_OWNER.(slot := i + 1, generation := g, home := i + 1, asked := inputs)],
               roots := [id] + w.roots, lock := Submitting(i, id))
  }

  lemma FillIs(w: World, inputs: Inputs)
    requires SlotsOk(w) && w.lock == Unlocked && FirstFree(w.slots) < |w.slots|
    ensures Filled(w, FirstFree(w.slots), inputs, Fill(w, inputs))
  {
    var i := FirstFree(w.slots);
    assert SlotOk(i, w.slots[i], Claimed(w, i), BusyAt(w.worker, i), w.tickets);
  }

  lemma FilledAccounted(w: World, i: nat, inputs: Inputs, v: World)
    requires Filled(w, i, inputs, v) && Accounted(w) && w.slots[i].native.fds == NO_FDS
    ensures Accounted(v)
  {
    NoneHeld();
    var t := v.tickets[|w.tickets|];
    TotalUpdate(w.slots, SlotsFds, i, v.slots[i]);
    TotalAppend(w.tickets, TicketHeld, t);
    assert SlotsFds(w.slots[i]) == SlotsFds(v.slots[i]) == TicketHeld(t) == multiset{} by { hide Held; }
    hide SlotsFds, TicketHeld, Total, KitHeld;
    assert w.slots[i := v.slots[i]] == v.slots;
    AddCancel(Total(v.slots, SlotsFds), Total(w.slots, SlotsFds), multiset{});
    assert Total(v.tickets, TicketHeld) == Total(w.tickets, TicketHeld);
    hide Filled;
  }

  lemma FilledTicketsOk(w: World, i: nat, inputs: Inputs, v: World)
    requires Filled(w, i, inputs, v) && TicketsOk(w) && w.slots[i].owner == None && Sane(w.os)
    ensures TicketsOk(v)
  {
    forall id | 0 <= id < |v.tickets| ensures TicketOk(id, v.tickets[id], v.slots, v.os) {
      if id < |w.tickets| {
        assert TicketOk(id, w.tickets[id], w.slots, w.os);
        hide TicketShape, FdsOk, NativeDone, Sane;
      } else {
        assert -1 !in w.os.unreaped;
        hide NativeDone, Sane;
      }
    }
  }

  lemma FilledSlotsOk(w: World, i: nat, inputs: Inputs, v: World)
    requires Filled(w, i, inputs, v) && SlotsOk(w) && !BusyAt(w.worker, i)
    ensures SlotsOk(v)
  {
    forall j | 0 <= j < |v.slots| ensures SlotOk(j, v.slots[j], Claimed(v, j), BusyAt(v.worker, j), v.tickets) {
      assert SlotOk(j, w.slots[j], Claimed(w, j), BusyAt(w.worker, j), w.tickets);
      assert j == i || v.slots[j] == w.slots[j];
    }
  }

  /** Its slot and its generation together are new. */
  lemma FilledHomesOk(w: World, i: nat, inputs: Inputs, v: World)
    requires Filled(w, i, inputs, v) && HomesOk(w.tickets, w.slots)
    ensures HomesOk(v.tickets, v.slots)
  {
    var n := |w.tickets|;
    assert v.tickets[n].home == i + 1 && v.tickets[n].generation == w.slots[i].generation + 1;
    assert forall a :: 0 <= a < n ==> v.tickets[a] == w.tickets[a];
    assert forall j :: 0 <= j < |w.slots| ==> w.slots[j].generation <= v.slots[j].generation;
    forall a, b | 0 <= a < b < |v.tickets| && v.tickets[a].home == v.tickets[b].home != 0
      ensures v.tickets[a].generation < v.tickets[b].generation
    {
      assert b == n ==> w.tickets[a].generation <= w.slots[i].generation;
    }
  }

  lemma FilledWorkerOk(w: World, i: nat, inputs: Inputs, v: World)
    requires Filled(w, i, inputs, v) && WorkerOk(w) && !BusyAt(w.worker, i)
    ensures WorkerOk(v)
  {
    hide StageOk, NoChildren, NativeDone;
  }

  lemma FilledQueueOk(w: World, i: nat, inputs: Inputs, v: World)
    requires Filled(w, i, inputs, v) && QueueOk(w.slots, w.sem, w.posts, w.worker, w.next)
    ensures QueueOk(v.slots, v.sem, v.posts, v.worker, v.next)
  {
    TicketSteps.SamePhases(v.slots, w.slots);
    if w.worker.Scanning? {
      var o :| w.worker.offset <= o < SLOTS && QueuedAt(w.slots, w.next, o);
      assert QueuedAt(v.slots, v.next, o);
    }
  }

  lemma FillKeeps(w: World, inputs: Inputs)
    requires Core(w) && w.lock == Unlocked && FirstFree(w.slots) < |w.slots|
    ensures Inv(Fill(w, inputs))
  {
    hide Accounted, TicketsOk, SlotsOk, HomesOk, RootsOk, QueueOk, DriversOk, Sane, WorkerOk;
    var i, v := FirstFree(w.slots), Fill(w, inputs);
    FillIs(w, inputs);
    FreeSlot(w, i);
    hide Fill, SlotOk, Claimed, BusyAt;
    var t := v.tickets[|w.tickets|];
    assert Rooted(t);
    FilledAccounted(w, i, inputs, v);
    FilledTicketsOk(w, i, inputs, v);
    FilledSlotsOk(w, i, inputs, v);
    FilledWorkerOk(w, i, inputs, v);
    FilledHomesOk(w, i, inputs, v);
    FilledQueueOk(w, i, inputs, v);
    RootsAppend(w.tickets, w.roots, t);
    DriversAppend(w.drivers, w.tickets, w.os, t);
  }

  // ----- Publishing and waking

  lemma PublishQueueOk(w: World, i: nat)
    requires QueueOk(w.slots, w.sem, w.posts, w.worker, w.next) && i < |w.slots| && w.slots[i].phase != Queued
    ensures QueueOk(Phased(w, i, Queued), w.sem, w.posts + 1, w.worker, w.next)
  {
    var slots := Phased(w, i, Queued);
    QueuedCountUpdate(w.slots, i, slots[i]);
    if w.worker.Scanning? {
      var o :| w.worker.offset <= o < SLOTS && QueuedAt(w.slots, w.next, o);
      assert QueuedAt(slots, w.next, o);
    }
  }

  lemma LockedSlot(w: World)
    requires SlotsOk(w) && LockOk(w) && w.lock.Submitting?
    ensures var i := w.lock.slot; Claimed(w, i) && w.slots[i].phase == Free && !BusyAt(w.worker, i)
  {
    var i := w.lock.slot;
    assert SlotOk(i, w.slots[i], Claimed(w, i), BusyAt(w.worker, i), w.tickets);
  }

  lemma PublishKeeps(w: World)
    requires Inv(w) && w.lock.Submitting?
    ensures var i := w.lock.slot;
            i < |w.slots| && Inv(w.(slots := Phased(w, i, Queued), lock := Unlocked, posts := w.posts + 1))
  {
    hide Accounted, TicketsOk, SlotsOk, HomesOk, RootsOk, QueueOk, DriversOk, Sane, WorkerOk;
    var i := w.lock.slot;
    LockedSlot(w);
    var v := w.(slots := Phased(w, i, Queued), lock := Unlocked, posts := w.posts + 1);
    PhasedAccounted(w, i, Queued, v);
    PhasedTicketsOk(w, i, Queued);
    SameTickets(w.(slots := v.slots), v);
    PhasedSlotsOk(w, i, Queued, v);
    PhasedHomesOk(w, i, Queued);
    PublishQueueOk(w, i);
    PhasedWorkerOk(w, i, v);
  }

  lemma PhasedWorkerOk(w: World, i: nat, v: World)
    requires WorkerOk(w) && i < |w.slots| && v.slots == Phased(w, i, Queued) && v.worker == w.worker && v.os == w.os
    ensures WorkerOk(v)
  {
    hide StageOk, NoChildren, NativeDone;
  }

  /** A change that only the queue sees. */
  lemma QueueOnly(w: World, v: World)
    requires Inv(w) && v == w.(sem := v.sem, posts := v.posts, worker := v.worker)
    requires v.worker == w.worker || (!w.worker.Busy? && !v.worker.Busy?)
    requires QueueOk(v.slots, v.sem, v.posts, v.worker, v.next)
    ensures Inv(v)
  {
    hide Accounted, TicketsOk, SlotsOk, HomesOk, RootsOk, QueueOk, DriversOk, Sane, WorkerOk;
    SameTickets(w, v);
    if w.worker.Busy? {
      SameWorker(w, v);
    } else {
      IdleWorker(w, v);
    }
  }

  lemma SameWorker(w: World, v: World)
    requires v == w.(sem := v.sem, posts := v.posts)
    ensures Accounted(w) ==> Accounted(v)
    ensures SlotsOk(w) ==> SlotsOk(v)
    ensures WorkerOk(w) ==> WorkerOk(v)
  {
    hide StageOk, NoChildren, NativeDone, Total, KitHeld;
    if SlotsOk(w) {
      forall j | 0 <= j < |v.slots| ensures SlotOk(j, v.slots[j], Claimed(v, j), BusyAt(v.worker, j), v.tickets) {
        assert SlotOk(j, w.slots[j], Claimed(w, j), BusyAt(w.worker, j), w.tickets);
      }
    }
  }

  lemma InvQueue(w: World)
    requires Inv(w)
    ensures |w.slots| == SLOTS && w.next < SLOTS && QueueOk(w.slots, w.sem, w.posts, w.worker, w.next)
  {
    hide Accounted, TicketsOk, SlotsOk, HomesOk, RootsOk, QueueOk, DriversOk, Sane, WorkerOk, LockOk;
  }

  lemma WakeKeeps(w: World)
    requires Inv(w) && w.worker == Waiting && w.sem > 0
    ensures Inv(w.(sem := w.sem - 1, worker := Scanning(0)))
  {
    hide Inv, QueueOk;
    InvQueue(w);
    WakeQueueOk(w);
    QueueOnly(w, w.(sem := w.sem - 1, worker := Scanning(0)));
  }

  lemma PostKeeps(w: World)
    requires Inv(w) && w.posts > 0
    ensures Inv(w.(posts := w.posts - 1, sem := w.sem + 1))
  {
    hide Inv;
    InvQueue(w);
    assert QueueOk(w.slots, w.sem + 1, w.posts - 1, w.worker, w.next);
    hide QueueOk;
    QueueOnly(w, w.(posts := w.posts - 1, sem := w.sem + 1));
  }
}
