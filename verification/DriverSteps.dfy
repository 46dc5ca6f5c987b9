/** Direct and blocking starts keep the invariant of the protocol. */
module DriverSteps {
  import opened Kernel
  import opened Launch
  import opened LaunchLocal
  import opened Construct
  import opened Protocol
  import opened Accounting
  import opened Invariant
  import opened TicketSteps
  import opened WorkerSteps
  import SubmitSteps

  // ----- Checking from a driver

  lemma CheckTicketKeeps(w: World, id: nat, a: Answers)
    requires !w.lock.Submitting? && Callable(w, id, a) && Core(w)
    ensures var (r, v) := CheckTicket(w, id, a);
            && Core(v) && |v.tickets| == |w.tickets| && v.drivers == w.drivers && v.lock == w.lock
            && Answered(r, v.tickets[id])
  {
    var l := GetLocal(w, id);
    hide Core;
    CoreAt(w, id) by { hide LocalInv; }
    assert !l.unrooted && l.t == w.tickets[id];
    hide LocalInv, Moves, CheckStart, GetLocal;
    CheckStartKeeps(id, l, a);
    PutKeeps(w, id, CheckStart(id, l, a).1);
  }

  // ----- Drivers and the kernel change

  lemma DriversChange(w: World, v: World)
    requires v == w.(drivers := v.drivers, os := v.os) && Core(w)
    requires Accounted(v) && Sane(v.os) && Grows(w.os, v.os) && DriversOk(v.drivers, v.tickets, v.os)
    ensures Core(v)
  {
    hide Accounted, TicketsOk, SlotsOk, HomesOk, RootsOk, QueueOk, DriversOk, Sane, WorkerOk, Grows;
    TicketsGrow(w, v.os);
    SameTickets(w.(os := v.os), v);
    WorkerGrows(w, v.os);
    SameBench(w, v);
  }

  lemma SameBench(w: World, v: World)
    requires v == w.(drivers := v.drivers, os := v.os)
    ensures WorkerOk(w.(os := v.os)) ==> WorkerOk(v)
    ensures SlotsOk(w) ==> SlotsOk(v)
  {
    hide StageOk, NoChildren, NativeDone;
    if SlotsOk(w) {
      forall j | 0 <= j < |v.slots| ensures SlotOk(j, v.slots[j], Claimed(v, j), BusyAt(v.worker, j), v.tickets) {
        assert SlotOk(j, w.slots[j], Claimed(w, j), BusyAt(w.worker, j), w.tickets);
      }
    }
  }

  /** Driver `d`, which holds nothing, ends up holding `fd`, or nothing. */
  lemma DriverAccounted(w: World, d: nat, pc: Pc, open: set<int>, v: World)
    requires Accounted(w) && d < |w.drivers| && v == SetPc(w, d, pc).(os := v.os)
    requires multiset(v.os.open) + DriverHeld(w.drivers[d]) == multiset(w.os.open) + DriverHeld(v.drivers[d])
    ensures Accounted(v)
  {
    TotalUpdate(w.drivers, DriverHeld, d, v.drivers[d]);
    hide DriverHeld, Total, TicketHeld, SlotsFds, KitHeld;
    AddThree(Total(w.tickets, TicketHeld), Total(w.slots, SlotsFds), KitHeld(WorkerKit(w.worker)),
             Total(v.drivers, DriverHeld), DriverHeld(w.drivers[d]), Total(w.drivers, DriverHeld),
             DriverHeld(v.drivers[d]));
    Rebalance(AllHeld(v), DriverHeld(w.drivers[d]), AllHeld(w), DriverHeld(v.drivers[d]), multiset(v.os.open));
  }

  lemma AddThree(t: multiset<int>, s: multiset<int>, k: multiset<int>, a: multiset<int>, b: multiset<int>,
                 c: multiset<int>, e: multiset<int>)
    requires a + b == c + e
    ensures t + s + k + a + b == t + s + k + c + e
  {
    forall x ensures (t + s + k + a + b)[x] == (t + s + k + c + e)[x] {
      assert (a + b)[x] == (c + e)[x];
    }
  }

  lemma SetPcDrivers(w: World, d: nat, pc: Pc, os: Os)
    requires d < |w.drivers| && DriversOk(w.drivers, w.tickets, os)
             && DriverOk(Driver(w.drivers[d].id, pc), w.tickets, os)
    ensures DriversOk(SetPc(w, d, pc).drivers, w.tickets, os)
  {
    var v := SetPc(w, d, pc);
    forall e | 0 <= e < |v.drivers| ensures DriverOk(v.drivers[e], w.tickets, os) {
      assert DriverOk(w.drivers[e], w.tickets, os);
    }
  }

  lemma SetPcKeeps(w: World, d: nat, pc: Pc)
    requires d < |w.drivers| && !w.drivers[d].pc.Polling? && !pc.Polling? && Core(w)
    requires DriverOk(Driver(w.drivers[d].id, pc), w.tickets, w.os)
    ensures Core(SetPc(w, d, pc))
  {
    var v := SetPc(w, d, pc);
    hide Accounted, TicketsOk, SlotsOk, HomesOk, RootsOk, QueueOk, DriversOk, Sane, WorkerOk, DriverOk;
    DriverAccounted(w, d, pc, w.os.open, v);
    SetPcDrivers(w, d, pc, w.os);
    assert Grows(w.os, v.os);
    DriversChange(w, v);
  }

  lemma BeginKeeps(w: World, id: nat)
    requires id < |w.tickets| && Core(w)
    ensures Core(Begin(w, id))
  {
    var v := Begin(w, id);
    hide TicketsOk, SlotsOk, HomesOk, RootsOk, QueueOk, Sane, WorkerOk, Total, TicketHeld, SlotsFds, KitHeld;
    TotalAppend(w.drivers, DriverHeld, Driver(id, Sleeping));
    assert Accounted(v) by { hide DriversOk; }
    hide Accounted;
    assert Grows(w.os, v.os) && DriversOk(v.drivers, v.tickets, v.os);
    hide DriversOk;
    DriversChange(w, v);
  }

  /** What a driver polls is a descriptor its ticket holds. */
  lemma DupTarget(w: World, id: nat)
    requires id < |w.tickets| && w.tickets[id].step == PENDING && w.tickets[id].state != SUBMITTED && Core(w)
    ensures PollFd(w.tickets[id]) in w.os.open
  {
    hide Core, LocalInv;
    CoreAt(w, id);
    HeldFd(id, GetLocal(w, id));
  }

  lemma HeldFd(id: nat, l: Local)
    requires LocalInv(id, l) && l.t.step == PENDING && l.t.state != SUBMITTED
    ensures PollFd(l.t) in l.os.open
  {
    var fd := PollFd(l.t);
    assert fd >= 0 && One(fd) <= LocalHeld(l) by { hide Backed, FdsOk, Sane, One; }
    assert fd in One(fd);
    hide LocalHeld, TicketShape, Sane, FdsOk, One;
  }

  lemma DupKeeps(w: World, d: nat, fd: Fd)
    requires d < |w.drivers| && !w.drivers[d].pc.Polling? && fd in w.os.open && w.drivers[d].id < |w.tickets| && Core(w)
    ensures Core(Dup(w, d, fd)) && fd != w.os.next
  {
    var v, next := Dup(w, d, fd), w.os.next;
    hide Accounted, TicketsOk, SlotsOk, HomesOk, RootsOk, QueueOk, DriversOk, WorkerOk;
    assert next !in w.os.unreaped;
    hide Sane;
    OpenSane(w.os);
    assert Grows(w.os, v.os);
    DriverAccounted(w, d, Polling(next, fd), v.os.open, v) by { hide Grows; }
    DriversGrow(w, v.os) by { hide Grows; }
    SetPcDrivers(w, d, Polling(next, fd), v.os);
    hide Grows;
    DriversChange(w, v);
  }

  lemma WakeUpKeeps(w: World, d: nat, wake: Wake)
    requires d < |w.drivers| && w.drivers[d].pc.Polling? && Core(w)
    ensures Core(WakeUp(w, d, wake))
  {
    hide Accounted, TicketsOk, SlotsOk, HomesOk, RootsOk, QueueOk, WorkerOk, DriversOk, Sane, One, Close;
    var v, held := WakeUp(w, d, wake), w.drivers[d].pc.held;
    PollTarget(w, d);
    CloseSane(w.os, held);
    assert Grows(w.os, v.os);
    hide Grows;
    DriverAccounted(w, d, Woken(wake), v.os.open, v);
    DriversGrow(w, v.os);
    SetPcDrivers(w, d, Woken(wake), v.os);
    DriversChange(w, v);
  }

  lemma PollTarget(w: World, d: nat)
    requires d < |w.drivers| && w.drivers[d].pc.Polling? && Core(w)
    ensures var held := w.drivers[d].pc.held;
            held >= 0 && held !in w.os.unreaped && One(held) <= multiset(w.os.open) && w.drivers[d].id < |w.tickets|
  {
    hide TicketsOk, SlotsOk, HomesOk, RootsOk, QueueOk, WorkerOk, AllHeld, Sane, One;
    assert DriverOk(w.drivers[d], w.tickets, w.os);
    HolderHas(w, ByDriver(d));
    assert AllHeld(w) == multiset(w.os.open);
  }

  lemma CloseSane(k: Os, fd: Fd)
    requires Sane(k) && One(fd) <= multiset(k.open) && fd >= 0 && fd !in k.unreaped
    ensures var c := Close(k, fd);
            && Sane(c) && c == k.(open := c.open)
            && multiset(c.open) + One(fd) == multiset(k.open)
  {
    CloseBalance(k, fd);
    assert fd in One(fd);
  }

  /** A driver that just went to poll polls a duplicate of what its own pending ticket holds: the handshake pipe while
      it launches, its child's pidfd once it fails or aborts. */
  ghost predicate PollsOwn(w: World, d: nat) {
    && d < |w.drivers|
    && var pc := w.drivers[d].pc;
       pc.Polling? ==>
         && w.drivers[d].id < |w.tickets|
         && var t := w.tickets[w.drivers[d].id];
            && t.step == PENDING && t.state != SUBMITTED
            && pc.of == (if t.state == LAUNCHING then t.fds.err else t.fds.pid)
            && pc.of in w.os.open && pc.held != pc.of
  }

  lemma BlockKeeps(w: World, d: nat, r: LaunchStep, dup: bool)
    requires d < |w.drivers| && !w.drivers[d].pc.Polling? && w.drivers[d].id < |w.tickets| && Core(w)
    requires Answered(r, w.tickets[w.drivers[d].id])
    ensures Core(Block(w, d, r, dup)) && Block(w, d, r, dup).lock == w.lock
    ensures PollsOwn(Block(w, d, r, dup), d)
  {
    hide Core;
    var id := w.drivers[d].id;
    var t := w.tickets[id];
    if r != PENDING {
      SetPcKeeps(w, d, Returned(r));
    } else if t.state == SUBMITTED {
      SetPcKeeps(w, d, Sleeping);
    } else if !dup {
      SetPcKeeps(w, d, Returned(ERROR));
    } else {
      DupTarget(w, id);
      DupKeeps(w, d, PollFd(t));
    }
  }

  lemma DriveKeeps(w: World, d: nat, a: Answers, dup: bool)
    requires !w.lock.Submitting? && d < |w.drivers| && !w.drivers[d].pc.Polling? && Callable(w, w.drivers[d].id, a)
             && Core(w)
    ensures Core(Drive(w, d, a, dup)) && Drive(w, d, a, dup).lock == w.lock && PollsOwn(Drive(w, d, a, dup), d)
  {
    var id := w.drivers[d].id;
    hide Core, Answered, CheckTicket, Block;
    CheckTicketKeeps(w, id, a);
    var (r, v) := CheckTicket(w, id, a);
    BlockKeeps(v, d, r, dup);
  }

  lemma ResumeKeeps(w: World, d: nat, a: Answers, dup: bool)
    requires !w.lock.Submitting? && d < |w.drivers| && !w.drivers[d].pc.Polling? && Callable(w, w.drivers[d].id, a)
             && Core(w)
    ensures Core(Resume(w, d, a, dup)) && Resume(w, d, a, dup).lock == w.lock && PollsOwn(Resume(w, d, a, dup), d)
  {
    hide Core, Drive;
    if w.drivers[d].pc == Woken(WakeError) && w.tickets[w.drivers[d].id].step == PENDING {
      SetPcKeeps(w, d, Returned(ERROR));
    } else {
      DriveKeeps(w, d, a, dup);
    }
  }

  // ----- A direct start

  ghost predicate BuildMoves(b: Bench, c: Bench) {
    && multiset(c.os.open) + BenchHeld(b) == multiset(b.os.open) + BenchHeld(c)
    && Grows(b.os, c.os)
  }

  lemma BuildTransitive(b: Bench, c: Bench, d: Bench)
    requires BuildMoves(b, c) && BuildMoves(c, d)
    ensures BuildMoves(b, d)
  {
    hide BenchHeld;
    BalanceTransitive(multiset(b.os.open), BenchHeld(b), multiset(c.os.open), BenchHeld(c), multiset(d.os.open),
                      BenchHeld(d));
  }

  lemma {:induction false} WorkAllKeeps(b: Bench, inputs: Inputs, works: seq<WorkAnswers>)
    requires BenchInv(b)
    ensures var c := WorkAll(b, inputs, works); BenchInv(c) && BuildMoves(b, c)
    decreases |works|
  {
    hide BenchInv, BenchHeld, Work;
    if works != [] && b.stage != Publish {
      WorkKeeps(b, inputs, false, works[0]) by { hide BenchMoves; }
      var c := Work(b, inputs, false, works[0]);
      BenchSane(b);
      WorkGrows(b, c) by { hide BenchMoves; }
      assert BuildMoves(b, c) by { hide Grows; }
      hide BenchMoves, BuildMoves;
      WorkAllKeeps(c, inputs, works[1..]);
      BuildTransitive(b, c, WorkAll(c, inputs, works[1..]));
    } else {
      assert Grows(b.os, b.os);
    }
  }

  lemma DirectBenchIs(w: World, inputs: Inputs, works: seq<WorkAnswers>)
    requires Sane(w.os) && DirectBench(w, inputs, works).stage == Publish
    ensures var c := DirectBench(w, inputs, works);
            && Sane(c.os) && NativeDone(c.native, c.os) && Grows(w.os, c.os)
            && multiset(c.os.open) == multiset(w.os.open) + Held(c.native.fds)
  {
    hide BenchInv, WorkAll, BuildMoves, BenchHeld, Sane, NativeDone, Grows, Held;
    var b, c := Bench(FRESH_NATIVE, Checking, NO_KIT, w.os), DirectBench(w, inputs, works);
    FreshBench(w.os);
    WorkAllKeeps(b, inputs, works);
    DoneBench(c);
    BuildIs(b, c);
    DropEmpty(multiset(c.os.open), multiset(w.os.open), Held(c.native.fds));
  }

  lemma FreshBench(os: Os)
    requires Sane(os)
    ensures var b := Bench(FRESH_NATIVE, Checking, NO_KIT, os); BenchInv(b) && BenchHeld(b) == multiset{}
  {
    assert -1 !in os.unreaped;
    hide Sane;
  }

  lemma DoneBench(c: Bench)
    requires BenchInv(c) && c.stage == Publish
    ensures Sane(c.os) && NativeDone(c.native, c.os) && BenchHeld(c) == Held(c.native.fds) + multiset{}
  {
    assert KitHeld(NO_KIT) == multiset{};
    hide Sane, NativeDone, NoChildren, Held, KitHeld;
  }

  lemma BuildIs(b: Bench, c: Bench)
    requires BuildMoves(b, c)
    ensures multiset(c.os.open) + BenchHeld(b) == multiset(b.os.open) + BenchHeld(c) && Grows(b.os, c.os)
  {
    hide BenchHeld, Grows;
  }

  lemma DropEmpty(a: multiset<int>, b: multiset<int>, c: multiset<int>)
    requires a + multiset{} == b + (c + multiset{})
    ensures a == b + c
  {
    forall x ensures a[x] == (b + c)[x] { assert (a + multiset{})[x] == (b + (c + multiset{}))[x]; }
  }

  lemma LaunchedKeeps(w: World, b: Bench, inputs: Inputs)
    requires w.lock == Unlocked && Core(w)
    requires Sane(b.os) && NativeDone(b.native, b.os) && Grows(w.os, b.os)
    requires multiset(b.os.open) == multiset(w.os.open) + Held(b.native.fds)
    ensures Core(Launched(w, b, inputs))
  {
    hide Accounted, TicketsOk, SlotsOk, HomesOk, RootsOk, QueueOk, DriversOk, Sane, WorkerOk, Grows;
    var v := Launched(w, b, inputs);
    DriversGrow(w, b.os) by { hide NativeDone, Held; }
    if !b.native.created {
      NoneHeld();
      assert multiset(b.os.open) == multiset(w.os.open);
      assert Accounted(v) by { SameHolders(w, v); }
      hide Held, NativeDone;
      DriversChange(w, v);
    } else {
      LaunchedTicket(w, b, inputs);
      hide NativeDone, Held;
      TicketsGrow(w, b.os);
      WorkerGrows(w, b.os);
      var t := v.tickets[|w.tickets|];
      LaunchedAccounted(w, v, t);
      LaunchedParts(w, v, t);
      SubmitSteps.RootsAppend(w.tickets, w.roots, t);
      SubmitSteps.DriversAppend(w.drivers, w.tickets, b.os, t);
    }
  }

  lemma SameHolders(w: World, v: World)
    requires Accounted(w) && v == w.(os := v.os) && multiset(v.os.open) == multiset(w.os.open)
    ensures Accounted(v)
  {
    hide Total, KitHeld;
  }

  lemma LaunchedTicket(w: World, b: Bench, inputs: Inputs)
    requires b.native.created && NativeDone(b.native, b.os)
    ensures var v := Launched(w, b, inputs);
            var t := v.tickets[|w.tickets|];
            TicketShape(t) && FdsOk(b.os, t.fds, t.signalled) && Rooted(t) && t.slot == 0 == t.home
            && t.fds == b.native.fds
  {}

  lemma LaunchedAccounted(w: World, v: World, t: Ticket)
    requires v == w.(os := v.os, tickets := w.tickets + [t], roots := v.roots)
    requires Accounted(w) && multiset(v.os.open) == multiset(w.os.open) + Held(t.fds)
    ensures Accounted(v)
  {
    TotalAppend(w.tickets, TicketHeld, t);
    hide Total, KitHeld, SlotsFds, Held;
  }

  lemma LaunchedParts(w: World, v: World, t: Ticket)
    requires v == w.(os := v.os, tickets := w.tickets + [t], roots := v.roots)
    requires TicketShape(t) && FdsOk(v.os, t.fds, t.signalled) && t.slot == 0 == t.home
    requires TicketsOk(w.(os := v.os)) && SlotsOk(w) && HomesOk(w.tickets, w.slots) && WorkerOk(w.(os := v.os))
    ensures TicketsOk(v) && SlotsOk(v) && HomesOk(v.tickets, v.slots) && WorkerOk(v)
  {
    hide TicketOk, SlotOk, HomesOk, TicketShape, FdsOk, TicketsOk, SlotsOk, WorkerOk;
    LaunchedTickets(w, v, t);
    LaunchedSlots(w, v, t);
    LaunchedHomes(w, v, t);
    LaunchedWorker(w, v, t);
  }

  lemma LaunchedTickets(w: World, v: World, t: Ticket)
    requires v == w.(os := v.os, tickets := w.tickets + [t], roots := v.roots)
    requires TicketShape(t) && FdsOk(v.os, t.fds, t.signalled) && t.slot == 0 && TicketsOk(w.(os := v.os))
    ensures TicketsOk(v)
  {
    hide TicketShape, FdsOk, OwnsSlot;
    forall id | 0 <= id < |v.tickets| ensures TicketOk(id, v.tickets[id], v.slots, v.os) {
      assert id < |w.tickets| ==> TicketOk(id, w.tickets[id], w.slots, v.os);
    }
  }

  lemma LaunchedSlots(w: World, v: World, t: Ticket)
    requires v == w.(os := v.os, tickets := w.tickets + [t], roots := v.roots) && SlotsOk(w)
    ensures SlotsOk(v)
  {
    forall j | 0 <= j < |v.slots| ensures SlotOk(j, v.slots[j], Claimed(v, j), BusyAt(v.worker, j), v.tickets) {
      assert SlotOk(j, w.slots[j], Claimed(w, j), BusyAt(w.worker, j), w.tickets);
    }
  }

  lemma LaunchedHomes(w: World, v: World, t: Ticket)
    requires v.tickets == w.tickets + [t] && v.slots == w.slots && t.home == 0 && HomesOk(w.tickets, w.slots)
    ensures HomesOk(v.tickets, v.slots)
  {}

  lemma LaunchedWorker(w: World, v: World, t: Ticket)
    requires v == w.(os := v.os, tickets := w.tickets + [t], roots := v.roots) && WorkerOk(w.(os := v.os))
    ensures WorkerOk(v)
  {
    hide StageOk, NoChildren, NativeDone;
  }

  /** Before its first check. */
  lemma DirectCore(w: World, inputs: Inputs, works: seq<WorkAnswers>)
    requires w.lock == Unlocked && DirectBench(w, inputs, works).stage == Publish && Core(w)
    ensures Core(Launched(w, DirectBench(w, inputs, works), inputs))
  {
    hide Accounted, TicketsOk, SlotsOk, HomesOk, RootsOk, QueueOk, DriversOk, Sane, WorkerOk, DirectBench, NativeDone,
         Grows, Held;
    DirectBenchIs(w, inputs, works);
    LaunchedKeeps(w, DirectBench(w, inputs, works), inputs);
    hide Launched;
  }

  lemma DirectKeeps(w: World, inputs: Inputs, works: seq<WorkAnswers>, a: Answers, dup: bool)
    requires w.lock == Unlocked && DirectBench(w, inputs, works).stage == Publish && ReadFits(NEW_OWNER, a.read)
             && Core(w)
    requires forall id :: 0 <= id < |w.tickets| ==> HasSlot(w, id)
    ensures Core(Direct(w, inputs, works, a, dup)) && Direct(w, inputs, works, a, dup).lock == w.lock
  {
    DirectCore(w, inputs, works);
    hide Core, DirectBench, Drive;
    var b := DirectBench(w, inputs, works);
    if b.native.created { FirstDrive(w, b, inputs, a, dup); }
    hide Core, Launched;
  }

  /** The new ticket's first turn of the loop, in the same step. */
  lemma FirstDrive(w: World, b: Bench, inputs: Inputs, a: Answers, dup: bool)
    requires b.native.created && Core(Launched(w, b, inputs)) && w.lock == Unlocked && ReadFits(NEW_OWNER, a.read)
    ensures var v, id := Launched(w, b, inputs), |w.tickets|;
            && HasSlot(Begin(v, id), id)
            && var u := Drive(Begin(v, id), |v.drivers|, a, dup); Core(u) && u.lock == w.lock
  {
    hide Core, Drive;
    var v, id := Launched(w, b, inputs), |w.tickets|;
    BeginKeeps(v, id);
    DriveKeeps(Begin(v, id), |v.drivers|, a, dup);
  }
}
