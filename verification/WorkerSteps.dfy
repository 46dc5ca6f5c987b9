/** The submitter's and the worker's steps keep the invariant of the protocol. */
module WorkerSteps {
  import opened Kernel
  import opened Launch
  import opened LaunchLocal
  import opened Construct
  import opened Protocol
  import opened Accounting
  import opened Invariant
  import opened TicketSteps

  // ----- The kernel opens descriptors and creates children

  /** Only new tokens become children. */
  ghost predicate Grows(k: Os, k2: Os) {
    && k.next <= k2.next && k2.killed == k.killed && k2.absent == k.absent && k.unreaped <= k2.unreaped
    && forall fd :: fd in k2.unreaped && fd < k.next ==> fd in k.unreaped
  }

  lemma HeldSmall(w: World, h: Holder, fd: Fd)
    requires Accounted(w) && Sane(w.os) && Exists(w, h) && One(fd) <= HeldBy(w, h)
    ensures fd < w.os.next
  {
    HolderHas(w, h);
    hide HeldBy, AllHeld, One, Sane;
    OneBelow(w.os, fd, AllHeld(w));
  }

  lemma FdsSmall(w: World, h: Holder, f: Fds)
    requires Accounted(w) && Sane(w.os) && Exists(w, h) && HeldBy(w, h) == Held(f)
    ensures f.pid < w.os.next && f.err < w.os.next && f.s0 < w.os.next && f.s1 < w.os.next && f.s2 < w.os.next
  {
    HeldParts(f);
    hide HeldBy, Held, One, Accounted, Sane;
    HeldSmall(w, h, f.pid); HeldSmall(w, h, f.err); HeldSmall(w, h, f.s0); HeldSmall(w, h, f.s1); HeldSmall(w, h, f.s2);
  }

  lemma HeldParts(f: Fds)
    ensures One(f.pid) <= Held(f) && One(f.err) <= Held(f) && One(f.s0) <= Held(f) && One(f.s1) <= Held(f)
            && One(f.s2) <= Held(f)
  {
    hide One;
  }

  lemma FdsGrow(k: Os, k2: Os, f: Fds, signalled: bool)
    requires FdsOk(k, f, signalled) && Grows(k, k2)
    requires f.pid < k.next && f.err < k.next && f.s0 < k.next && f.s1 < k.next && f.s2 < k.next
    ensures FdsOk(k2, f, signalled)
  {}

  lemma NativeGrows(w: World, k2: Os, i: nat)
    requires Accounted(w) && Sane(w.os) && i < |w.slots| && NativeDone(w.slots[i].native, w.os) && Grows(w.os, k2)
    ensures NativeDone(w.slots[i].native, k2)
  {
    var n := w.slots[i].native;
    hide Accounted, Sane, FdsOk, Held, Grows;
    FdsSmall(w, BySlot(i), n.fds);
    if n.created { FdsGrow(w.os, k2, n.fds, false); }
  }

  lemma TicketGrows(w: World, k2: Os, id: nat)
    requires Accounted(w) && Sane(w.os) && id < |w.tickets| && TicketOk(id, w.tickets[id], w.slots, w.os)
             && Grows(w.os, k2)
    ensures TicketOk(id, w.tickets[id], w.slots, k2)
  {
    var t := w.tickets[id];
    hide Accounted, Sane, FdsOk, Held, Grows, TicketShape, NativeDone;
    FdsSmall(w, ByTicket(id), t.fds);
    FdsGrow(w.os, k2, t.fds, t.signalled);
    if t.slot != 0 && t.state == SUBMITTED && w.slots[t.slot - 1].phase == Done { NativeGrows(w, k2, t.slot - 1); }
  }

  lemma TicketsGrow(w: World, k2: Os)
    requires Accounted(w) && Sane(w.os) && TicketsOk(w) && Grows(w.os, k2)
    ensures TicketsOk(w.(os := k2))
  {
    hide Accounted, Sane, TicketOk, Grows;
    forall id | 0 <= id < |w.tickets| ensures TicketOk(id, w.tickets[id], w.slots, k2) {
      TicketGrows(w, k2, id);
    }
  }

  lemma DriversGrow(w: World, k2: Os)
    requires Accounted(w) && Sane(w.os) && DriversOk(w.drivers, w.tickets, w.os) && Grows(w.os, k2)
    ensures DriversOk(w.drivers, w.tickets, k2)
  {
    hide Accounted, Sane;
    forall d | 0 <= d < |w.drivers| ensures DriverOk(w.drivers[d], w.tickets, k2) {
      assert DriverOk(w.drivers[d], w.tickets, w.os);
      if w.drivers[d].pc.Polling? { HeldSmall(w, ByDriver(d), w.drivers[d].pc.held); }
    }
  }

  lemma KitSmall(w: World)
    requires Accounted(w) && Sane(w.os) && w.worker.Busy?
    ensures var k, n := w.worker.kit, w.os.next; k.c0 < n && k.c1 < n && k.c2 < n && k.ep0 < n && k.ep1 < n
  {
    var k := w.worker.kit;
    assert One(k.c0) <= KitHeld(k) && One(k.c1) <= KitHeld(k) && One(k.c2) <= KitHeld(k)
           && One(k.ep0) <= KitHeld(k) && One(k.ep1) <= KitHeld(k) by { hide One; }
    hide Accounted, Sane, KitHeld, One;
    HeldSmall(w, ByWorker, k.c0); HeldSmall(w, ByWorker, k.c1); HeldSmall(w, ByWorker, k.c2);
    HeldSmall(w, ByWorker, k.ep0); HeldSmall(w, ByWorker, k.ep1);
  }

  lemma WorkerGrows(w: World, k2: Os)
    requires Accounted(w) && Sane(w.os) && WorkerOk(w) && Grows(w.os, k2)
    ensures WorkerOk(w.(os := k2))
  {
    if w.worker.Busy? {
      var i, b := w.worker.slot, WorkerBench(w);
      StageKernel(b, k2);
      KitSmall(w) by { hide Accounted, Sane, Grows, WorkerOk; }
      FdsSmall(w, BySlot(i), w.slots[i].native.fds) by { hide Accounted, Sane, Grows, WorkerOk, Held; }
      if b.stage == Publish { NativeGrows(w, k2, i) by { hide Accounted, Sane, Grows, NativeDone; } }
      hide Accounted, Sane, StageOk, NativeDone;
    }
  }

  // ----- One slot changes, its owner's claim unchanged

  lemma {:induction false} QueuedCountUpdate(slots: seq<Slot>, i: nat, q: Slot)
    requires i < |slots|
    ensures QueuedCount(slots[i := q]) + (if slots[i].phase == Queued then 1 else 0)
         == QueuedCount(slots) + (if q.phase == Queued then 1 else 0)
  {
    var n, u := |slots| - 1, slots[i := q];
    if i == n {
      assert u[..n] == slots[..n];
    } else {
      QueuedCountUpdate(slots[..n], i, q);
      assert u[..n] == slots[..n][i := q];
    }
  }

  lemma {:induction false} QueuedSomewhere(slots: seq<Slot>)
    requires QueuedCount(slots) > 0
    ensures exists i :: 0 <= i < |slots| && slots[i].phase == Queued
  {
    var n := |slots| - 1;
    if slots[n].phase != Queued {
      QueuedSomewhere(slots[..n]);
      var i :| 0 <= i < n && slots[..n][i].phase == Queued;
      assert slots[i].phase == Queued;
    }
  }

  /** Where slot `i` lies on the worker's round from `next`. */
  function Distance(next: nat, i: nat): (d: nat)
    requires next < SLOTS && i < SLOTS
    ensures d < SLOTS && (next + d) % SLOTS == i
  {
    if i >= next then i - next else i + SLOTS - next
  }

  lemma WakeQueueOk(w: World)
    requires |w.slots| == SLOTS && w.next < SLOTS && w.worker == Waiting && w.sem > 0
    requires QueueOk(w.slots, w.sem, w.posts, w.worker, w.next)
    ensures QueueOk(w.slots, w.sem - 1, w.posts, Scanning(0), w.next)
  {
    QueuedSomewhere(w.slots);
    var i :| 0 <= i < |w.slots| && w.slots[i].phase == Queued;
    assert QueuedAt(w.slots, w.next, Distance(w.next, i));
  }

  // ----- The worker builds

  lemma WorkGrows(b: Bench, c: Bench)
    requires BenchMoves(b, c) && Sane(b.os)
    ensures Grows(b.os, c.os)
  {
    hide BenchHeld;
  }

  lemma WorkerBenchInv(w: World)
    requires Accounted(w) && Sane(w.os) && WorkerOk(w) && w.worker.Busy?
    ensures BenchInv(WorkerBench(w))
  {
    var i, b := w.worker.slot, WorkerBench(w);
    assert BenchHeld(b) == HeldBy(w, BySlot(i)) + HeldBy(w, ByWorker) by { hide Held, KitHeld; }
    hide Accounted, Sane, HeldBy, BenchHeld, StageOk, NoChildren, NativeDone;
    HoldersTwo(w, BySlot(i), ByWorker);
    assert AllHeld(w) == multiset(w.os.open) by { assert Accounted(w); }
  }

  /** The world after the worker's bench became `c`. */
  ghost function Built(w: World, c: Bench): World
    requires w.worker.Busy? && w.worker.slot < |w.slots|
  {
    var i := w.worker.slot;
    w.(slots := w.slots[i := w.slots[i].(native := c.native)], worker := Busy(i, c.stage, c.kit), os := c.os)
  }

  lemma BuiltAccounted(w: World, c: Bench)
    requires Accounted(w) && w.worker.Busy? && w.worker.slot < |w.slots|
    requires BenchMoves(WorkerBench(w), c)
    ensures Accounted(Built(w, c))
  {
    var i, b, v := w.worker.slot, WorkerBench(w), Built(w, c);
    TotalUpdate(w.slots, SlotsFds, i, w.slots[i].(native := c.native));
    assert BenchHeld(b) == SlotsFds(w.slots[i]) + KitHeld(w.worker.kit)
           && BenchHeld(c) == SlotsFds(v.slots[i]) + KitHeld(c.kit) by { hide Held, KitHeld; }
    hide BenchHeld, SlotsFds, KitHeld, Total, TicketHeld;
    BuiltTotals(Total(w.tickets, TicketHeld), Total(v.slots, SlotsFds), SlotsFds(w.slots[i]), Total(w.slots, SlotsFds),
                SlotsFds(v.slots[i]),
                KitHeld(w.worker.kit), KitHeld(c.kit), Total(w.drivers, DriverHeld));
    Rebalance(AllHeld(v), BenchHeld(b), AllHeld(w), BenchHeld(c), multiset(c.os.open));
  }

  lemma BuiltTotals(t: multiset<int>, sa: multiset<int>, q: multiset<int>, sb: multiset<int>, r: multiset<int>,
                    kb: multiset<int>, ka: multiset<int>, d: multiset<int>)
    requires sa + q == sb + r
    ensures t + sa + ka + d + (q + kb) == t + sb + kb + d + (r + ka)
  {
    forall x ensures (t + sa + ka + d + (q + kb))[x] == (t + sb + kb + d + (r + ka))[x] {
      assert (sa + q)[x] == (sb + r)[x];
    }
  }

  /** A working slot's native may change under its ticket, as long as only the stop flag cancels. */
  lemma BuiltTicketsOk(w: World, c: Bench)
    requires w.worker.Busy? && w.worker.slot < |w.slots| && w.slots[w.worker.slot].phase == Working
    requires TicketsOk(w.(os := c.os))
    requires c.native.cancelled ==> w.slots[w.worker.slot].native.cancelled || w.slots[w.worker.slot].stop
    ensures TicketsOk(Built(w, c))
  {
    var v := Built(w, c);
    hide TicketShape, FdsOk, NativeDone;
    forall id | 0 <= id < |v.tickets| ensures TicketOk(id, v.tickets[id], v.slots, v.os) {
      assert TicketOk(id, w.tickets[id], w.slots, c.os);
    }
  }

  lemma BuiltSlotsOk(w: World, c: Bench)
    requires w.worker.Busy? && w.worker.slot < |w.slots| && SlotsOk(w)
    ensures SlotsOk(Built(w, c))
  {
    var v := Built(w, c);
    CoreWorker(w);
    forall i | 0 <= i < |v.slots| ensures SlotOk(i, v.slots[i], Claimed(v, i), BusyAt(v.worker, i), v.tickets) {
      assert SlotOk(i, w.slots[i], Claimed(w, i), BusyAt(w.worker, i), w.tickets);
    }
  }

  lemma SamePhasesQueueOk(slots: seq<Slot>, slots2: seq<Slot>, sem: nat, posts: nat, worker: Worker, worker2: Worker,
                          next: nat)
    requires |slots2| == |slots|
             && forall i :: 0 <= i < |slots| ==> (slots[i].phase == Queued <==> slots2[i].phase == Queued)
    requires QueueOk(slots, sem, posts, worker, next) && !worker.Scanning? && !worker2.Scanning?
    ensures QueueOk(slots2, sem, posts, worker2, next)
  {
    SamePhases(slots, slots2);
  }

  lemma SameGenerationsHomesOk(tickets: seq<Ticket>, slots: seq<Slot>, slots2: seq<Slot>)
    requires |slots2| == |slots| && forall i :: 0 <= i < |slots| ==> slots2[i].generation == slots[i].generation
    requires HomesOk(tickets, slots)
    ensures HomesOk(tickets, slots2)
  {}

  lemma StepIs(w: World, a: WorkAnswers)
    requires w.worker.Busy? && SlotsOk(w) && w.worker.slot < |w.slots|
    ensures var q := w.slots[w.worker.slot];
            && q.inputs.Some? && q.phase == Working
            && Step(w, a) == Built(w, Work(WorkerBench(w), q.inputs.value, q.stop, a))
  {
    var i := w.worker.slot;
    CoreWorker(w);
    assert SlotOk(i, w.slots[i], Claimed(w, i), BusyAt(w.worker, i), w.tickets);
    hide Work;
  }

  lemma BuiltWorkerOk(w: World, c: Bench)
    requires w.worker.Busy? && w.worker.slot < |w.slots| && BenchInv(c)
    ensures WorkerOk(Built(w, c))
  {
    assert WorkerBench(Built(w, c)) == c;
    hide StageOk, NoChildren, NativeDone, Sane, BenchHeld;
  }

  lemma StepKeeps(w: World, a: WorkAnswers)
    requires Core(w) && w.worker.Busy? && w.worker.slot < |w.slots| && w.worker.stage != Publish
    ensures Core(Step(w, a))
  {
    hide Accounted, TicketsOk, SlotsOk, HomesOk, RootsOk, QueueOk, DriversOk, Sane, BenchInv, BenchMoves, StageOk,
         NoChildren, NativeDone, BenchHeld;
    var q, b := w.slots[w.worker.slot], WorkerBench(w);
    StepIs(w, a);
    WorkerBenchInv(w);
    WorkKeeps(b, q.inputs.value, q.stop, a);
    var c := Work(b, q.inputs.value, q.stop, a);
    hide Work, Step, WorkerOk, WorkerBench;
    assert b.os == w.os
           && b.native == q.native by { assert WorkerBench(w) == Bench(q.native, w.worker.stage, w.worker.kit, w.os); }
    BuiltKeeps(w, c);
  }

  lemma BenchSane(b: Bench)
    requires BenchInv(b)
    ensures Sane(b.os)
  {
    hide Sane, StageOk, NoChildren, BenchHeld, NativeDone;
  }

  lemma BuiltKeeps(w: World, c: Bench)
    requires Core(w) && w.worker.Busy? && w.worker.slot < |w.slots| && BenchInv(c) && BenchMoves(WorkerBench(w), c)
    requires w.slots[w.worker.slot].phase == Working
    requires c.native.cancelled ==> w.slots[w.worker.slot].native.cancelled || w.slots[w.worker.slot].stop
    ensures Core(Built(w, c))
  {
    hide Accounted, TicketsOk, SlotsOk, HomesOk, RootsOk, QueueOk, DriversOk, Sane, BenchInv, WorkerOk, BenchMoves,
         Grows;
    var v := Built(w, c);
    assert Sane(c.os) by { BenchSane(c); }
    WorkGrows(WorkerBench(w), c);
    BuiltAccounted(w, c);
    TicketsGrow(w, c.os);
    BuiltTicketsOk(w, c);
    BuiltSlotsOk(w, c);
    BuiltWorkerOk(w, c);
    SameGenerationsHomesOk(w.tickets, w.slots, v.slots);
    SamePhasesQueueOk(w.slots, v.slots, w.sem, w.posts, w.worker, v.worker, w.next);
    DriversGrow(w, c.os);
  }

  // ----- One slot's phase changes

  ghost function Phased(w: World, i: nat, phase: Phase): seq<Slot>
    requires i < |w.slots|
  {
    w.slots[i := w.slots[i].(phase := phase)]
  }

  lemma PhasedAccounted(w: World, i: nat, phase: Phase, v: World)
    requires i < |w.slots| && Accounted(w)
    requires v.slots == Phased(w, i, phase) && v.tickets == w.tickets && v.drivers == w.drivers && v.os == w.os
    requires WorkerKit(v.worker) == WorkerKit(w.worker)
    ensures Accounted(v)
  {
    TotalUpdate(w.slots, SlotsFds, i, v.slots[i]);
    assert SlotsFds(v.slots[i]) == SlotsFds(w.slots[i]) by { hide Held; }
    hide SlotsFds, Total, KitHeld, TicketHeld;
    AddCancel(Total(v.slots, SlotsFds), Total(w.slots, SlotsFds), SlotsFds(w.slots[i]));
  }

  lemma AddCancel(a: multiset<int>, b: multiset<int>, c: multiset<int>)
    requires a + c == b + c
    ensures a == b
  {
    forall x ensures a[x] == b[x] { assert (a + c)[x] == (b + c)[x]; }
  }

  /** A phase change below Done, or to Done with the launch handed over. */
  lemma PhasedTicketsOk(w: World, i: nat, phase: Phase)
    requires i < |w.slots| && TicketsOk(w) && w.slots[i].phase != Done
    requires phase == Done ==> NativeDone(w.slots[i].native, w.os)
    ensures TicketsOk(w.(slots := Phased(w, i, phase)))
  {
    hide TicketShape, FdsOk, NativeDone;
    forall id | 0 <= id < |w.tickets| ensures TicketOk(id, w.tickets[id], Phased(w, i, phase), w.os) {
      assert TicketOk(id, w.tickets[id], w.slots, w.os);
    }
  }

  lemma PhasedSlotsOk(w: World, i: nat, phase: Phase, v: World)
    requires i < |w.slots| && SlotsOk(w) && Claimed(w, i) && phase != Free && w.slots[i].phase != Done
    requires v.slots == Phased(w, i, phase) && v.tickets == w.tickets
    requires forall j :: 0 <= j < |w.slots| && j != i ==>
               (BusyAt(v.worker, j) <==> BusyAt(w.worker, j)) && (Claimed(v, j) <==> Claimed(w, j))
    requires BusyAt(v.worker, i) <==> phase == Working
    requires phase == Queued ==> w.slots[i].phase == Free
    ensures SlotsOk(v)
  {
    forall j | 0 <= j < |v.slots| ensures SlotOk(j, v.slots[j], Claimed(v, j), BusyAt(v.worker, j), v.tickets) {
      assert SlotOk(j, w.slots[j], Claimed(w, j), BusyAt(w.worker, j), w.tickets);
      assert j == i || v.slots[j] == w.slots[j];
    }
  }

  lemma PhasedHomesOk(w: World, i: nat, phase: Phase)
    requires i < |w.slots| && HomesOk(w.tickets, w.slots)
    ensures HomesOk(w.tickets, Phased(w, i, phase))
  {
    SameGenerationsHomesOk(w.tickets, w.slots, Phased(w, i, phase));
  }

  /** `Scan` finds a slot: it leaves the queue with the wake that woke the worker. */
  lemma ScanQueueOk(w: World)
    requires |w.slots| == SLOTS && w.next < SLOTS && w.worker.Scanning?
             && QueueOk(w.slots, w.sem, w.posts, w.worker, w.next)
    ensures w.worker.offset < SLOTS
    ensures var v := Scan(w); QueueOk(v.slots, v.sem, v.posts, v.worker, v.next)
  {
    var v, o := Scan(w), w.worker.offset;
    var o2 :| o <= o2 < SLOTS && QueuedAt(w.slots, w.next, o2);
    var i := (w.next + o) % SLOTS;
    if w.slots[i].phase == Queued {
      QueuedCountUpdate(w.slots, i, v.slots[i]);
    } else {
      assert o2 != o;
      assert QueuedAt(v.slots, v.next, o2);
    }
  }

  /** If the slot the worker looks at is queued it leaves the queue and becomes the worker's; otherwise no slot changes
      and the round goes on. */
  lemma ScanClaims(w: World)
    requires |w.slots| == SLOTS && w.next < SLOTS && w.worker.Scanning? && w.worker.offset < SLOTS
    ensures var v, i := Scan(w), (w.next + w.worker.offset) % SLOTS;
            if w.slots[i].phase == Queued then
              && QueuedCount(v.slots) + 1 == QueuedCount(w.slots)
              && v == w.(slots := Phased(w, i, Working), worker := Busy(i, Snapshot, NO_KIT))
            else v == w.(worker := Scanning(w.worker.offset + 1))
  {
    var i := (w.next + w.worker.offset) % SLOTS;
    QueuedCountUpdate(w.slots, i, w.slots[i].(phase := Working));
    hide QueuedCount;
  }

  lemma ScanKeeps(w: World)
    requires Core(w) && w.worker.Scanning?
    ensures Core(Scan(w)) && w.worker.offset < SLOTS
    ensures var v, i := Scan(w), (w.next + w.worker.offset) % SLOTS;
            if w.slots[i].phase == Queued then
              && QueuedCount(v.slots) + 1 == QueuedCount(w.slots)
              && v.slots == Phased(w, i, Working) && v.worker == Busy(i, Snapshot, NO_KIT)
            else v.slots == w.slots && v.worker == Scanning(w.worker.offset + 1)
  {
    hide Accounted, TicketsOk, SlotsOk, HomesOk, RootsOk, QueueOk, DriversOk, Sane, WorkerOk, QueuedCount;
    ScanQueueOk(w);
    ScanClaims(w);
    var v, i := Scan(w), (w.next + w.worker.offset) % SLOTS;
    hide Scan;
    if w.slots[i].phase == Queued {
      QueuedSlot(w, i);
      PhasedAccounted(w, i, Working, v);
      PhasedTicketsOk(w, i, Working);
      ScanSlotsOk(w, i, v);
      PhasedHomesOk(w, i, Working);
      ClaimedWorkerOk(v);
      SameTickets(w.(slots := v.slots), v);
      hide Phased;
    } else {
      SameTickets(w, v);
      IdleWorker(w, v);
    }
  }

  lemma SameTickets(w: World, v: World)
    requires TicketsOk(w) && v.tickets == w.tickets && v.slots == w.slots && v.os == w.os
    ensures TicketsOk(v)
  {
    hide TicketOk;
  }

  /** A worker that holds no slot before or after. */
  lemma IdleWorker(w: World, v: World)
    requires v.slots == w.slots && v.tickets == w.tickets && v.drivers == w.drivers && v.os == w.os && v.lock == w.lock
    requires !w.worker.Busy? && !v.worker.Busy?
    ensures Accounted(w) ==> Accounted(v)
    ensures SlotsOk(w) ==> SlotsOk(v)
    ensures WorkerOk(v)
  {
    assert Accounted(w) ==> Accounted(v) by { hide SlotsOk, KitHeld, Total; }
    hide Accounted;
    if SlotsOk(w) {
      forall j | 0 <= j < |v.slots| ensures SlotOk(j, v.slots[j], Claimed(v, j), BusyAt(v.worker, j), v.tickets) {
        assert SlotOk(j, w.slots[j], Claimed(w, j), BusyAt(w.worker, j), w.tickets);
      }
    }
  }

  lemma QueuedSlot(w: World, i: nat)
    requires SlotsOk(w) && i < |w.slots| && w.slots[i].phase == Queued
    ensures Claimed(w, i) && w.slots[i].native == FRESH_NATIVE
  {
    assert SlotOk(i, w.slots[i], Claimed(w, i), BusyAt(w.worker, i), w.tickets);
  }

  lemma ScanSlotsOk(w: World, i: nat, v: World)
    requires SlotsOk(w) && i < |w.slots| && w.slots[i].phase == Queued && !w.worker.Busy?
    requires v == w.(slots := Phased(w, i, Working), worker := Busy(i, Snapshot, NO_KIT))
    ensures SlotsOk(v)
  {
    hide SlotOk;
    PhasedSlotsOk(w, i, Working, v);
  }

  lemma ClaimedWorkerOk(v: World)
    requires v.worker.Busy? && v.worker.slot < |v.slots| && v.worker.stage == Snapshot && v.worker.kit == NO_KIT
    requires v.slots[v.worker.slot].native == FRESH_NATIVE && Sane(v.os)
    ensures WorkerOk(v)
  {
    assert -1 !in v.os.unreaped;
    hide Sane, NativeDone;
  }

  // ----- Handing over

  lemma FinishKeeps(w: World)
    requires Core(w) && w.worker.Busy? && w.worker.slot < |w.slots| && w.worker.stage == Publish
    ensures Core(Finish(w))
  {
    hide Accounted, TicketsOk, SlotsOk, HomesOk, RootsOk, QueueOk, DriversOk, Sane;
    var v, i := Finish(w), w.worker.slot;
    CoreWorker(w);
    assert v.slots == Phased(w, i, Done);
    assert NativeDone(w.slots[i].native, w.os) && w.worker.kit == NO_KIT by { hide NoChildren, NativeDone; }
    hide WorkerOk, NativeDone, SlotOk;
    PhasedAccounted(w, i, Done, v);
    PhasedTicketsOk(w, i, Done);
    SameTickets(w.(slots := v.slots), v);
    PhasedSlotsOk(w, i, Done, v);
    PhasedHomesOk(w, i, Done);
    assert WorkerOk(v) by { assert !v.worker.Busy?; }
    SamePhasesQueueOk(w.slots, v.slots, w.sem, w.posts, w.worker, v.worker, w.next);
    assert QueueOk(v.slots, w.sem, w.posts, Waiting, v.next) by {
      NextIrrelevant(v.slots, w.sem, w.posts, w.next, v.next);
    }
  }

  lemma NextIrrelevant(slots: seq<Slot>, sem: nat, posts: nat, next: nat, next2: nat)
    requires QueueOk(slots, sem, posts, Waiting, next)
    ensures QueueOk(slots, sem, posts, Waiting, next2)
  {}
}
