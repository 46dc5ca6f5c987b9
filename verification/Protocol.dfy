/** The process-launch protocol: submitters, the worker, ticket holders and drivers as atomic steps over eight slots, a
    semaphore, a mutex and the kernel, in any interleaving.  The worker takes no lock. */
module Protocol {
  import opened Wrappers
  import opened Kernel
  import opened Launch
  import opened Construct

  // ----- Data

  datatype Worker = Waiting | Scanning(offset: nat) | Busy(slot: nat, stage: Stage, kit: Kit)

  /** Who holds `process_lock` between two steps: a submitter before it publishes slot `slot`, or an abort that has
      asked the worker to stop. */
  datatype Lock = Unlocked | Submitting(slot: nat, id: nat) | Stopping(id: nat)

  datatype Wake = WakeReady | WakeSignal | WakeError

  /** A blocking `drive_start`: asleep, polling the duplicate `held` of descriptor `of`, back from the poll, or
      returned. */
  datatype Pc = Sleeping | Polling(held: Fd, of: Fd) | Woken(wake: Wake) | Returned(step: LaunchStep)

  datatype Driver = Driver(id: nat, pc: Pc)

  datatype World = World(slots: seq<Slot>, tickets: seq<Ticket>, roots: seq<nat>, lock: Lock, sem: nat, posts: nat,
                         worker: Worker, next: nat, drivers: seq<Driver>, os: Os, broken: bool)

  const SLOTS: nat := 8
  const LAST_GENERATION: nat := 0xFFFF_FFFF_FFFF_FFFF

  const INIT := World(seq(SLOTS, _ => EMPTY_SLOT), [], [], Unlocked, 0, 0, Waiting, 0, [], BOOT, false)

  /** `a`: what the system calls answer; `dup`: whether `fcntl(F_DUPFD_CLOEXEC)` succeeds. */
  datatype Event =
    | SubmitFill(inputs: Inputs) | SubmitPublish | SubmitPost
    | WorkerWake | WorkerScan | WorkerWork(work: WorkAnswers) | WorkerPublish
    | Check(id: nat, a: Answers)
    | AbortBegin(id: nat, a: Answers) | AbortEnd(a: Answers)
    | DirectStart(inputs: Inputs, works: seq<WorkAnswers>, a: Answers, dup: bool)
    | DriveBegin(id: nat, a: Answers, dup: bool) | DriveWake(driver: nat, wake: Wake)
    | DriveResume(driver: nat, a: Answers, dup: bool)
    | PollExit(id: nat, wait: WaitResult) | CloseStdin(id: nat, errno: int) | Dispose(id: nat, errnos: Errnos)

  // ----- Operations on one ticket

  predicate HasSlot(w: World, id: nat) {
    id < |w.tickets| && w.tickets[id].slot <= |w.slots|
  }

  function GetLocal(w: World, id: nat): Local
    requires HasSlot(w, id)
  {
    var t := w.tickets[id];
    Local(t, if t.slot == 0 then EMPTY_SLOT else w.slots[t.slot - 1], w.os, false, w.broken)
  }

  function PutLocal(w: World, id: nat, m: Local): World
    requires HasSlot(w, id)
  {
    var i := w.tickets[id].slot;
    w.(tickets := w.tickets[id := m.t], slots := if i == 0 then w.slots else w.slots[i - 1 := m.slot],
       roots := if m.unrooted then Without(w.roots, id) else w.roots, os := m.os, broken := m.broken)
  }

  function CheckTicket(w: World, id: nat, a: Answers): (LaunchStep, World)
    requires HasSlot(w, id)
  {
    var (r, m) := CheckStart(id, GetLocal(w, id), a);
    (r, PutLocal(w, id, m))
  }

  // ----- Submission

  /** The first slot the submitter's scan accepts. */
  function FirstFree(slots: seq<Slot>): (i: nat)
    ensures i <= |slots|
    ensures i < |slots| ==> slots[i].phase == Free && slots[i].generation != LAST_GENERATION
  {
    if slots == [] || (slots[0].phase == Free && slots[0].generation != LAST_GENERATION) then 0
    else 1 + FirstFree(slots[1..])
  }

  function Fill(w: World, inputs: Inputs): World {
    var i, id := FirstFree(w.slots), |w.tickets|;
    if i == |w.slots| then w
    else
      var g := w.slots[i].generation + 1;
      w.(slots := w.slots[i := Slot(Free, false, g, FRESH_NATIVE, Some(id), Some(inputs))],
         tickets := w.tickets + [NEW_OWNER.(slot := i + 1, generation := g, home := i + 1, asked := inputs)],
         roots := [id] + w.roots, lock := Submitting(i, id))
  }

  // ----- The worker

  function Scan(w: World): World
    requires w.worker.Scanning? && |w.slots| == SLOTS
  {
    var o := w.worker.offset;
    var i := (w.next + o) % SLOTS;
    if o >= SLOTS then w.(worker := Waiting)
    else if w.slots[i].phase != Queued then w.(worker := Scanning(o + 1))
    else w.(slots := w.slots[i := w.slots[i].(phase := Working)], worker := Busy(i, Snapshot, NO_KIT))
  }

  function Step(w: World, a: WorkAnswers): World
    requires w.worker.Busy? && w.worker.slot < |w.slots|
  {
    var i := w.worker.slot;
    var q := w.slots[i];
    if q.inputs.None? then w.(broken := true)
    else
      var c := Work(Bench(q.native, w.worker.stage, w.worker.kit, w.os), q.inputs.value, q.stop, a);
      w.(slots := w.slots[i := q.(native := c.native)], worker := Busy(i, c.stage, c.kit), os := c.os)
  }

  function Finish(w: World): World
    requires w.worker.Busy? && w.worker.slot < |w.slots|
  {
    var i := w.worker.slot;
    w.(slots := w.slots[i := w.slots[i].(phase := Done)], worker := Waiting, next := (i + 1) % SLOTS)
  }

  // ----- Blocking starts

  function SetPc(w: World, d: nat, pc: Pc): World
    requires d < |w.drivers|
  {
    w.(drivers := w.drivers[d := w.drivers[d].(pc := pc)])
  }

  /** Duplicating a descriptor for the poll; duplicating one that is not open is a fault. */
  function Dup(w: World, d: nat, fd: Fd): World
    requires d < |w.drivers|
  {
    if fd !in w.os.open then w.(os := w.os.(fault := true))
    else SetPc(w.(os := Open(w.os)), d, Polling(w.os.next, fd))
  }

  /** What tells that a pending launch has moved: its handshake pipe, then its child. */
  function PollFd(t: Ticket): Fd {
    if t.state == LAUNCHING then t.fds.err else t.fds.pid
  }

  /** After a check: return its answer, sleep, or poll a duplicate with the lock released. */
  function Block(w: World, d: nat, r: LaunchStep, dup: bool): World
    requires d < |w.drivers| && w.drivers[d].id < |w.tickets|
  {
    var t := w.tickets[w.drivers[d].id];
    if r != PENDING then SetPc(w, d, Returned(r))
    else if t.state == SUBMITTED then SetPc(w, d, Sleeping)
    else if !dup then SetPc(w, d, Returned(ERROR))
    else Dup(w, d, PollFd(t))
  }

  /** One turn of `drive_start`'s loop. */
  function Drive(w: World, d: nat, a: Answers, dup: bool): World
    requires d < |w.drivers| && HasSlot(w, w.drivers[d].id)
  {
    var (r, v) := CheckTicket(w, w.drivers[d].id, a);
    Block(v, d, r, dup)
  }

  function Begin(w: World, id: nat): World {
    w.(drivers := w.drivers + [Driver(id, Sleeping)])
  }

  /** The poll is over and the duplicate closed, still without the lock. */
  function WakeUp(w: World, d: nat, wake: Wake): World
    requires d < |w.drivers| && w.drivers[d].pc.Polling?
  {
    SetPc(w.(os := Close(w.os, w.drivers[d].pc.held)), d, Woken(wake))
  }

  function Resume(w: World, d: nat, a: Answers, dup: bool): World
    requires d < |w.drivers| && HasSlot(w, w.drivers[d].id)
  {
    var driver := w.drivers[d];
    if driver.pc == Woken(WakeError) && w.tickets[driver.id].step == PENDING then SetPc(w, d, Returned(ERROR))
    else Drive(w, d, a, dup)
  }

  /** `construct_native` in one go, without a stop flag. */
  function WorkAll(b: Bench, inputs: Inputs, works: seq<WorkAnswers>): Bench
    decreases |works|
  {
    if works == [] || b.stage == Publish then b else WorkAll(Work(b, inputs, false, works[0]), inputs, works[1..])
  }

  function DirectBench(w: World, inputs: Inputs, works: seq<WorkAnswers>): Bench {
    WorkAll(Bench(FRESH_NATIVE, Checking, NO_KIT, w.os), inputs, works)
  }

  /** `process_begin`: no ticket unless a child was created. */
  function Launched(w: World, b: Bench, inputs: Inputs): World {
    if !b.native.created then w.(os := b.os)
    else
      w.(os := b.os, tickets := w.tickets + [NEW_OWNER.(state := LAUNCHING, fds := b.native.fds, asked := inputs)],
         roots := [|w.tickets|] + w.roots)
  }

  function Direct(w: World, inputs: Inputs, works: seq<WorkAnswers>, a: Answers, dup: bool): World
    requires forall id :: 0 <= id < |w.tickets| ==> HasSlot(w, id)
  {
    var b, id := DirectBench(w, inputs, works), |w.tickets|;
    var v := Launched(w, b, inputs);
    if !b.native.created then v else Drive(Begin(v, id), |v.drivers|, a, dup)
  }

  // ----- Steps

  predicate Callable(w: World, id: nat, a: Answers) {
    HasSlot(w, id) && ReadFits(w.tickets[id], a.read)
  }

  predicate Enabled(w: World, e: Event) {
    && |w.slots| == SLOTS
    && match e
       case SubmitFill(_) => w.lock == Unlocked && FirstFree(w.slots) < SLOTS
       case SubmitPublish => w.lock.Submitting? && w.lock.slot < SLOTS
       case SubmitPost => w.posts > 0
       case WorkerWake => w.worker == Waiting && w.sem > 0
       case WorkerScan => w.worker.Scanning?
       case WorkerWork(_) => w.worker.Busy? && w.worker.slot < SLOTS && w.worker.stage != Publish
       case WorkerPublish => w.worker.Busy? && w.worker.slot < SLOTS && w.worker.stage == Publish
       case Check(id, a) => w.lock == Unlocked && Callable(w, id, a)
       case AbortBegin(id, a) => w.lock == Unlocked && Callable(w, id, a)
       case AbortEnd(a) => w.lock.Stopping? && Callable(w, w.lock.id, a)
       case DirectStart(inputs, works, a, _) =>
         && w.lock == Unlocked && DirectBench(w, inputs, works).stage == Publish && ReadFits(NEW_OWNER, a.read)
         && forall id :: 0 <= id < |w.tickets| ==> HasSlot(w, id)
       case DriveBegin(id, a, _) => w.lock == Unlocked && Callable(w, id, a)
       case DriveWake(d, _) => d < |w.drivers| && w.drivers[d].pc.Polling?
       case DriveResume(d, a, _) =>
         && w.lock == Unlocked && d < |w.drivers| && (w.drivers[d].pc.Sleeping? || w.drivers[d].pc.Woken?)
         && Callable(w, w.drivers[d].id, a)
       case PollExit(id, _) => w.lock == Unlocked && HasSlot(w, id)
       case CloseStdin(id, _) => w.lock == Unlocked && HasSlot(w, id)
       case Dispose(id, _) => w.lock == Unlocked && HasSlot(w, id)
  }

  function Apply(w: World, e: Event): World
    requires Enabled(w, e)
  {
    match e
    case SubmitFill(inputs) => Fill(w, inputs)
    case SubmitPublish =>
      var i := w.lock.slot;
      w.(slots := w.slots[i := w.slots[i].(phase := Queued)], lock := Unlocked, posts := w.posts + 1)
    case SubmitPost => w.(posts := w.posts - 1, sem := w.sem + 1)
    case WorkerWake => w.(sem := w.sem - 1, worker := Scanning(0))
    case WorkerScan => Scan(w)
    case WorkerWork(a) => Step(w, a)
    case WorkerPublish => Finish(w)
    case Check(id, a) => CheckTicket(w, id, a).1
    case AbortBegin(id, a) =>
      var l := GetLocal(w, id);
      if l.t.state == SUBMITTED then PutLocal(w, id, RequestStop(l)).(lock := Stopping(id))
      else PutLocal(w, id, FinishAbort(id, RequestStop(l), a).1)
    case AbortEnd(a) => PutLocal(w, w.lock.id, FinishAbort(w.lock.id, GetLocal(w, w.lock.id), a).1).(lock := Unlocked)
    case DirectStart(inputs, works, a, dup) => Direct(w, inputs, works, a, dup)
    case DriveBegin(id, a, dup) => Drive(Begin(w, id), |w.drivers|, a, dup)
    case DriveWake(d, wake) => WakeUp(w, d, wake)
    case DriveResume(d, a, dup) => Resume(w, d, a, dup)
    case PollExit(id, wait) => PutLocal(w, id, Launch.PollExit(GetLocal(w, id), wait).1)
    case CloseStdin(id, e) => PutLocal(w, id, Launch.CloseStdin(GetLocal(w, id), e).1)
    case Dispose(id, es) => PutLocal(w, id, Launch.Dispose(GetLocal(w, id), es).1)
  }

  /** Duplicating what is not open is a fault. */
  lemma DupFaults(w: World, d: nat, fd: Fd)
    requires d < |w.drivers|
    ensures Dup(w, d, fd).os.fault <==> w.os.fault || fd !in w.os.open
  {}

  /** A round that finds nothing sends the worker back to sleep. */
  lemma RoundEnds(w: World)
    requires w.worker.Scanning? && w.worker.offset >= SLOTS && |w.slots| == SLOTS
    ensures Scan(w) == w.(worker := Waiting)
  {}

  lemma LocalTicket(w: World, id: nat)
    requires HasSlot(w, id)
    ensures var l := GetLocal(w, id); l.t == w.tickets[id] && l.os == w.os && !l.unrooted
  {}

  lemma ApplyCheck(w: World, id: nat, a: Answers)
    requires Enabled(w, Check(id, a))
    ensures w.lock == Unlocked && Callable(w, id, a)
    ensures Apply(w, Check(id, a)) == PutLocal(w, id, CheckStart(id, GetLocal(w, id), a).1)
  {
    hide CheckStart, GetLocal, PutLocal;
  }

  lemma ApplyAbortBegin(w: World, id: nat, a: Answers)
    requires Enabled(w, AbortBegin(id, a))
    ensures w.lock == Unlocked && Callable(w, id, a) && !RequestStop(GetLocal(w, id)).unrooted
    ensures var l := GetLocal(w, id);
            Apply(w, AbortBegin(id, a)) ==
              if w.tickets[id].state == SUBMITTED then PutLocal(w, id, RequestStop(l)).(lock := Stopping(id))
              else PutLocal(w, id, FinishAbort(id, RequestStop(l), a).1)
  {
    LocalTicket(w, id);
    assert !RequestStop(GetLocal(w, id)).unrooted;
    hide FinishAbort, RequestStop, GetLocal, PutLocal;
  }

  lemma ApplyAbortEnd(w: World, a: Answers)
    requires Enabled(w, AbortEnd(a))
    ensures w.lock.Stopping? && Callable(w, w.lock.id, a)
    ensures Apply(w, AbortEnd(a)) ==
              PutLocal(w, w.lock.id, FinishAbort(w.lock.id, GetLocal(w, w.lock.id), a).1).(lock := Unlocked)
  {
    hide FinishAbort, GetLocal, PutLocal;
  }

  lemma ApplyPollExit(w: World, id: nat, wait: WaitResult)
    requires Enabled(w, PollExit(id, wait))
    ensures w.lock == Unlocked && HasSlot(w, id)
    ensures Apply(w, PollExit(id, wait)) == PutLocal(w, id, Launch.PollExit(GetLocal(w, id), wait).1)
  {
    hide Launch.PollExit, GetLocal, PutLocal;
  }

  lemma ApplyCloseStdin(w: World, id: nat, errno: int)
    requires Enabled(w, CloseStdin(id, errno))
    ensures w.lock == Unlocked && HasSlot(w, id)
    ensures Apply(w, CloseStdin(id, errno)) == PutLocal(w, id, Launch.CloseStdin(GetLocal(w, id), errno).1)
  {
    hide Launch.CloseStdin, GetLocal, PutLocal;
  }

  lemma ApplyDispose(w: World, id: nat, es: Errnos)
    requires Enabled(w, Dispose(id, es))
    ensures w.lock == Unlocked && HasSlot(w, id)
    ensures Apply(w, Dispose(id, es)) == PutLocal(w, id, Launch.Dispose(GetLocal(w, id), es).1)
  {
    hide Launch.Dispose, GetLocal, PutLocal;
  }

  // ----- Runs

  predicate Legal(w: World, es: seq<Event>)
    decreases |es|
  {
    es == [] || (Enabled(w, es[0]) && Legal(Apply(w, es[0]), es[1..]))
  }

  function After(w: World, es: seq<Event>): World
    requires Legal(w, es)
    decreases |es|
  {
    if es == [] then w else After(Apply(w, es[0]), es[1..])
  }
}
