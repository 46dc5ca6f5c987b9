/** The invariant of the launch protocol. */
module Invariant {
  import opened Wrappers
  import opened Kernel
  import opened Launch
  import opened LaunchLocal
  import Construct
  import opened Protocol
  import opened Accounting

  /** The slot `q` a ticket names is its own, and what it holds fits the ticket's state. */
  ghost predicate OwnsSlot(id: nat, t: Ticket, q: Slot, os: Os) {
    && q.owner == Some(id) && q.generation == t.generation
    && (t.state != SUBMITTED ==> q.phase == Done && q.native.fds == NO_FDS)
    && (t.state == SUBMITTED ==> (q.stop <==> t.stopRequested) && (q.native.cancelled ==> t.stopRequested))
    && (t.state == SUBMITTED && q.phase == Done ==> NativeDone(q.native, os))
  }

  ghost predicate TicketOk(id: nat, t: Ticket, slots: seq<Slot>, os: Os) {
    && TicketShape(t) && FdsOk(os, t.fds, t.signalled)
    && t.slot <= |slots|
    && (t.slot != 0 ==> t.home == t.slot && OwnsSlot(id, t, slots[t.slot - 1], os))
  }

  ghost predicate TicketsOk(w: World) {
    forall id :: 0 <= id < |w.tickets| ==> TicketOk(id, w.tickets[id], w.slots, w.os)
  }

  /** A slot is taken from the moment a submitter fills it until its owner gives it back. */
  ghost predicate Claimed(w: World, i: nat)
    requires i < |w.slots|
  {
    w.slots[i].phase != Free || (w.lock.Submitting? && w.lock.slot == i)
  }

  /** A taken slot has the one owner that names it, and its inputs; a free one has neither, nor a descriptor. */
  ghost predicate SlotOk(i: nat, q: Slot, claimed: bool, busy: bool, tickets: seq<Ticket>) {
    && q.generation <= LAST_GENERATION
    && (!claimed ==> q.owner == None && q.inputs == None && q.native.fds == NO_FDS)
    && (claimed ==>
          q.owner.Some? && q.owner.value < |tickets| && tickets[q.owner.value].slot == i + 1 && q.inputs.Some?)
    && (claimed && q.phase != Done ==> tickets[q.owner.value].state == SUBMITTED)
    && (claimed && (q.phase == Free || q.phase == Queued) ==> q.native == FRESH_NATIVE)
    && (q.phase == Working <==> busy)
  }

  ghost predicate BusyAt(worker: Worker, i: nat) {
    worker.Busy? && worker.slot == i
  }

  ghost predicate SlotsOk(w: World) {
    forall i :: 0 <= i < |w.slots| ==> SlotOk(i, w.slots[i], Claimed(w, i), BusyAt(w.worker, i), w.tickets)
  }

  ghost function WorkerBench(w: World): Construct.Bench
    requires w.worker.Busy? && w.worker.slot < |w.slots|
  {
    Construct.Bench(w.slots[w.worker.slot].native, w.worker.stage, w.worker.kit, w.os)
  }

  /** The worker's slot exists, and what it has made so far fits its stage. */
  ghost predicate WorkerOk(w: World) {
    w.worker.Busy? ==>
      && w.worker.slot < |w.slots|
      && var b := WorkerBench(w);
         && Construct.StageOk(b) && Construct.NoChildren(b)
         && (b.stage == Construct.Publish ==> NativeDone(b.native, b.os))
  }

  /** Who holds the lock between two steps, and what it has done so far. */
  ghost predicate LockOk(w: World) {
    match w.lock
    case Unlocked => true
    case Submitting(i, p) => i < |w.slots| && w.slots[i].phase == Free && w.slots[i].owner == Some(p)
    case Stopping(p) => p < |w.tickets| && w.tickets[p].state == SUBMITTED && w.tickets[p].stopRequested
  }

  /** Slot and generation together never repeat. */
  ghost predicate HomesOk(tickets: seq<Ticket>, slots: seq<Slot>) {
    && (forall a :: 0 <= a < |tickets| && tickets[a].home != 0 ==>
          tickets[a].home <= |slots| && tickets[a].generation <= slots[tickets[a].home - 1].generation)
    && (forall a, b :: 0 <= a < b < |tickets| && tickets[a].home == tickets[b].home != 0 ==>
          tickets[a].generation < tickets[b].generation)
  }

  ghost predicate NoRepeats(s: seq<nat>) {
    forall i, j :: 0 <= i < j < |s| ==> s[i] != s[j]
  }

  /** The rooted list holds exactly the tickets whose launch is pending or whose process is not disposed, each once. */
  ghost predicate RootsOk(roots: seq<nat>, tickets: seq<Ticket>) {
    && NoRepeats(roots)
    && (forall id: nat :: id in roots <==> id < |tickets| && Rooted(tickets[id]))
  }

  ghost function QueuedCount(slots: seq<Slot>): nat {
    if slots == [] then 0
    else QueuedCount(slots[..|slots| - 1]) + if slots[|slots| - 1].phase == Queued then 1 else 0
  }

  ghost predicate QueuedAt(slots: seq<Slot>, next: nat, o: nat) {
    |slots| == SLOTS && slots[(next + o) % SLOTS].phase == Queued
  }

  /** Every queued slot is owed exactly one wake; a scanning worker has a queued slot ahead of it. */
  ghost predicate QueueOk(slots: seq<Slot>, sem: nat, posts: nat, worker: Worker, next: nat) {
    && QueuedCount(slots) == sem + posts + (if worker.Scanning? then 1 else 0)
    && (worker.Scanning? ==> exists o :: worker.offset <= o < SLOTS && QueuedAt(slots, next, o))
  }

  ghost predicate DriverOk(d: Driver, tickets: seq<Ticket>, os: Os) {
    && d.id < |tickets|
    && (d.pc.Polling? ==> d.pc.held >= 0 && d.pc.held !in os.unreaped)
    && (d.pc.Returned? ==> d.pc.step != PENDING && (d.pc.step == ERROR || d.pc.step == tickets[d.id].step))
  }

  ghost predicate DriversOk(drivers: seq<Driver>, tickets: seq<Ticket>, os: Os) {
    forall d :: 0 <= d < |drivers| ==> DriverOk(drivers[d], tickets, os)
  }

  /** All but the lock. */
  ghost predicate Core(w: World) {
    && |w.slots| == SLOTS && w.next < SLOTS && !w.broken && Sane(w.os)
    && Accounted(w) && TicketsOk(w) && SlotsOk(w) && WorkerOk(w)
    && HomesOk(w.tickets, w.slots) && RootsOk(w.roots, w.tickets)
    && QueueOk(w.slots, w.sem, w.posts, w.worker, w.next)
    && DriversOk(w.drivers, w.tickets, w.os)
  }

  ghost predicate Inv(w: World) {
    Core(w) && LockOk(w)
  }

  // ----- From the invariant to one ticket

  lemma LocalFromWorld(w: World, id: nat)
    requires |w.slots| == SLOTS && !w.broken && Sane(w.os) && Accounted(w) && id < |w.tickets|
             && TicketOk(id, w.tickets[id], w.slots, w.os)
    ensures HasSlot(w, id) && LocalInv(id, GetLocal(w, id))
  {
    LocalBacked(w, id);
    hide Accounted, Backed, TicketShape, FdsOk, Sane, NativeDone;
  }

  lemma LocalBacked(w: World, id: nat)
    requires Accounted(w) && HasSlot(w, id)
    ensures Backed(GetLocal(w, id))
  {
    hide AllHeld, LocalHeld, HeldBy, GetLocal;
    var t := w.tickets[id];
    LocalHolders(w, id);
    assert GetLocal(w, id).os == w.os by { LocalOs(w, id); }
    if t.slot == 0 {
      HolderHas(w, ByTicket(id));
    } else {
      HoldersTwo(w, ByTicket(id), BySlot(t.slot - 1));
    }
  }

  lemma LocalOs(w: World, id: nat)
    requires HasSlot(w, id)
    ensures GetLocal(w, id).os == w.os
  {}

  lemma LocalHolders(w: World, id: nat)
    requires HasSlot(w, id)
    ensures var t := w.tickets[id];
            LocalHeld(GetLocal(w, id)) ==
              if t.slot == 0 then HeldBy(w, ByTicket(id)) else HeldBy(w, ByTicket(id)) + HeldBy(w, BySlot(t.slot - 1))
  {
    hide Held;
  }

  /** No one else holds what a ticket and its slot hold. */
  lemma OthersApart(w: World, id: nat, h: Holder, fd: Fd)
    requires Accounted(w) && HasSlot(w, id) && Exists(w, h) && fd in HeldBy(w, h)
    requires h != ByTicket(id) && (w.tickets[id].slot != 0 ==> h != BySlot(w.tickets[id].slot - 1))
    ensures fd !in LocalHeld(GetLocal(w, id))
  {
    hide Accounted, LocalHeld, HeldBy, GetLocal;
    var t := w.tickets[id];
    LocalHolders(w, id);
    if fd in HeldBy(w, ByTicket(id)) {
      OneHolder(w, h, ByTicket(id), fd);
    } else if t.slot != 0 && fd in HeldBy(w, BySlot(t.slot - 1)) {
      OneHolder(w, h, BySlot(t.slot - 1), fd);
    }
  }

  lemma ChildHeld(l: Local, pid: Fd)
    requires pid in OwnChildren(l)
    ensures pid in LocalHeld(l)
  {}
}
