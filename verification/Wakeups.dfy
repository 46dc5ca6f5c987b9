/** The semaphore and the worker's round: no wakeup is lost, each claims one slot, and waiting is bounded. */
module Wakeups {
  import opened Wrappers
  import opened Kernel
  import opened Launch
  import Construct
  import opened Protocol
  import opened Invariant
  import opened WorkerSteps
  import opened SubmitSteps
  import opened Safety

  function Scanned(w: World): nat
    requires w.worker.Scanning?
  {
    (w.next + w.worker.offset) % SLOTS
  }

  /** The step claims the slot the worker looks at. */
  predicate Claims(w: World, e: Event) {
    e.WorkerScan? && w.worker.Scanning? && w.worker.offset < SLOTS && |w.slots| == SLOTS
    && w.slots[Scanned(w)].phase == Queued
  }

  function CountClaims(w: World, es: seq<Event>): nat
    requires Legal(w, es)
    decreases |es|
  {
    if es == [] then 0 else (if Claims(w, es[0]) then 1 else 0) + CountClaims(Apply(w, es[0]), es[1..])
  }

  function CountWakes(es: seq<Event>): nat {
    if es == [] then 0 else (if es[0].WorkerWake? then 1 else 0) + CountWakes(es[1..])
  }

  function Awake(worker: Worker): nat {
    if worker.Scanning? then 1 else 0
  }

  lemma CheckKeepsWorker(w: World, id: nat, a: Answers)
    requires HasSlot(w, id)
    ensures var v := CheckTicket(w, id, a).1; v.worker == w.worker && v.next == w.next
  {
    hide CheckStart, Without;
  }

  lemma DriveKeepsWorker(w: World, d: nat, a: Answers, dup: bool)
    requires d < |w.drivers| && HasSlot(w, w.drivers[d].id)
    ensures Drive(w, d, a, dup).worker == w.worker && Drive(w, d, a, dup).next == w.next
  {
    hide CheckTicket;
    CheckKeepsWorker(w, w.drivers[d].id, a);
  }

  lemma DirectKeepsWorker(w: World, inputs: Inputs, works: seq<Construct.WorkAnswers>, a: Answers, dup: bool)
    requires forall id :: 0 <= id < |w.tickets| ==> HasSlot(w, id)
    ensures var v := Direct(w, inputs, works, a, dup); v.worker == w.worker && v.next == w.next
  {
    hide DirectBench, Drive;
    var b := DirectBench(w, inputs, works);
    if b.native.created {
      DriveKeepsWorker(Begin(Launched(w, b, inputs), |w.tickets|), |w.drivers|, a, dup);
    }
  }

  lemma OperationKeepsWorker(w: World, e: Event)
    requires Enabled(w, e) && (e.Check? || e.AbortBegin? || e.AbortEnd? || e.PollExit? || e.CloseStdin? || e.Dispose?)
    ensures Apply(w, e).worker == w.worker && Apply(w, e).next == w.next
  {
    hide CheckStart, FinishAbort, RequestStop, Launch.PollExit, Launch.CloseStdin, Launch.Dispose, Without, GetLocal;
  }

  /** Only the worker's own steps move it. */
  lemma WorkerFrame(w: World, e: Event)
    requires Enabled(w, e) && !e.WorkerWake? && !e.WorkerScan? && !e.WorkerWork? && !e.WorkerPublish?
    ensures Apply(w, e).worker == w.worker && Apply(w, e).next == w.next
  {
    hide Drive, Direct, DirectBench, Fill, Close;
    if e.Check? || e.AbortBegin? || e.AbortEnd? || e.PollExit? || e.CloseStdin? || e.Dispose? {
      hide Enabled, Apply;
      OperationKeepsWorker(w, e);
    } else {
      match e
      case SubmitFill(inputs) => FillKeepsWorker(w, inputs);
      case SubmitPublish =>
      case SubmitPost =>
      case DirectStart(inputs, works, a, dup) => DirectKeepsWorker(w, inputs, works, a, dup);
      case DriveBegin(id, a, dup) => DriveKeepsWorker(Begin(w, id), |w.drivers|, a, dup);
      case DriveWake(d, wake) =>
      case DriveResume(d, a, dup) => DriveKeepsWorker(w, d, a, dup);
    }
  }

  lemma FillKeepsWorker(w: World, inputs: Inputs)
    ensures Fill(w, inputs).worker == w.worker && Fill(w, inputs).next == w.next
  {}

  lemma ScanOffset(w: World)
    requires w.worker.Scanning? && Inv(w)
    ensures w.worker.offset < SLOTS
  {
    hide Inv;
    InvQueue(w);
  }

  lemma AwakeStep(w: World, e: Event)
    requires Inv(w) && Enabled(w, e)
    ensures Awake(w.worker) + (if e.WorkerWake? then 1 else 0) ==
              (if Claims(w, e) then 1 else 0) + Awake(Apply(w, e).worker)
  {
    hide Inv, Apply, Enabled, Claims;
    if w.worker.Scanning? { ScanOffset(w); }
    if e.WorkerWake? || e.WorkerScan? || e.WorkerWork? || e.WorkerPublish? {
      AwakeWorker(w, e);
    } else {
      WorkerFrame(w, e);
      assert !Claims(w, e) by { NoClaim(w, e); }
    }
  }

  lemma NoClaim(w: World, e: Event)
    requires !e.WorkerScan?
    ensures !Claims(w, e)
  {}

  lemma AwakeWorker(w: World, e: Event)
    requires Enabled(w, e) && (e.WorkerWake? || e.WorkerScan? || e.WorkerWork? || e.WorkerPublish?)
    requires w.worker.Scanning? ==> w.worker.offset < SLOTS
    ensures Awake(w.worker) + (if e.WorkerWake? then 1 else 0) ==
              (if Claims(w, e) then 1 else 0) + Awake(Apply(w, e).worker)
  {
    hide Construct.Work;
  }

  /** Every wake claims exactly one slot; only a worker still on its round has a wake it has not used. */
  lemma {:induction false} WakesClaim(w: World, es: seq<Event>)
    requires Inv(w) && Legal(w, es)
    ensures Awake(w.worker) + CountWakes(es) == CountClaims(w, es) + Awake(After(w, es).worker)
    decreases |es|
  {
    hide Inv, Apply, Enabled, Claims, Awake;
    if es != [] {
      AwakeStep(w, es[0]);
      Inductive(w, es[0]);
      WakesClaim(Apply(w, es[0]), es[1..]);
    }
  }

  lemma EachWakeClaimsOne(es: seq<Event>)
    requires Legal(INIT, es)
    ensures CountWakes(es) == CountClaims(INIT, es) + Awake(After(INIT, es).worker)
  {
    hide Legal, After, CountClaims, Inv;
    InitInv();
    WakesClaim(INIT, es);
  }

  /** In every reachable state the queued slots are the posts made and not used, the posts still to be made, and the one
      a woken worker has yet to claim; so a worker asleep with a slot queued has a post coming or a wake waiting. */
  lemma NoLostWakeup(es: seq<Event>)
    requires Legal(INIT, es)
    ensures var w := After(INIT, es);
            && QueuedCount(w.slots) == w.sem + w.posts + Awake(w.worker)
            && (w.worker == Waiting && w.posts == 0 && QueuedCount(w.slots) > 0 ==> Enabled(w, WorkerWake))
            && (w.worker.Scanning? ==> w.worker.offset < SLOTS)
            && (w.worker.Scanning? ==> exists o :: w.worker.offset <= o < SLOTS && QueuedAt(w.slots, w.next, o))
  {
    ReachableInv(es);
    hide Legal, After, Inv, Enabled;
    InvQueue(After(INIT, es));
    WakeEnabled(After(INIT, es));
  }

  lemma WakeEnabled(w: World)
    ensures |w.slots| == SLOTS && w.worker == Waiting && w.sem > 0 ==> Enabled(w, WorkerWake)
  {}

  // ----- Bounded waiting

  /** Where the worker's next round starts. */
  function NextRound(w: World): nat {
    if w.worker.Busy? then (w.worker.slot + 1) % SLOTS else w.next
  }

  /** How many other slots can still be claimed before a queued slot `j`: its distance along the round, or, if this
      round has passed it, what is left of this round and then the distance. */
  function Rank(w: World, j: nat): (r: int)
    requires j < SLOTS && w.next < SLOTS
  {
    var d := Distance(NextRound(w), j);
    if w.worker.Scanning? && w.worker.offset > d then d + SLOTS - w.worker.offset else d
  }

  lemma RankAtMostSeven(w: World, j: nat)
    requires j < SLOTS && w.next < SLOTS
    ensures Rank(w, j) <= 7
  {}

  lemma RoundMoves(next: nat, o: nat, j: nat)
    requires next < SLOTS && o < SLOTS && j < SLOTS && o != Distance(next, j)
    ensures var d := Distance(next, j);
            Distance(((next + o) % SLOTS + 1) % SLOTS, j) == if o < d then d - o - 1 else d + SLOTS - 1 - o
  {
    var p := (next + o) % SLOTS;
    assert p == if next + o < SLOTS then next + o else next + o - SLOTS;
    assert (p + 1) % SLOTS == if p + 1 < SLOTS then p + 1 else 0;
  }

  lemma ScannedAt(w: World, j: nat)
    requires w.worker.Scanning? && w.next < SLOTS && j < SLOTS && w.worker.offset == Distance(w.next, j)
    ensures Scanned(w) == j
  {}

  lemma NextBelow(w: World)
    requires Inv(w)
    ensures w.next < SLOTS && |w.slots| == SLOTS
  {
    hide Inv;
    InvQueue(w);
  }

  /** A claim of another slot brings the worker nearer to `j`; nothing takes it further away. */
  lemma RankStep(w: World, e: Event, j: nat)
    requires Inv(w) && Enabled(w, e) && j < SLOTS && Inv(Apply(w, e))
    requires |w.slots| == SLOTS && w.slots[j].phase == Queued
    requires var v := Apply(w, e); |v.slots| == SLOTS && v.slots[j].phase == Queued && w.next < SLOTS && v.next < SLOTS
    ensures Rank(Apply(w, e), j) + (if Claims(w, e) then 1 else 0) <= Rank(w, j)
  {
    hide Inv, Enabled, Apply, Distance;
    if w.worker.Scanning? { ScanOffset(w); }
    if e.WorkerScan? {
      ScanApplies(w);
      ScanRank(w, j);
    } else if e.WorkerWake? || e.WorkerWork? || e.WorkerPublish? {
      RoundKept(w, e);
    } else {
      WorkerFrame(w, e);
    }
  }

  lemma ScanApplies(w: World)
    requires Enabled(w, WorkerScan)
    ensures w.worker.Scanning? && Apply(w, WorkerScan) == Scan(w)
  {
    hide Scan;
  }

  lemma RoundKept(w: World, e: Event)
    requires Enabled(w, e) && (e.WorkerWake? || e.WorkerWork? || e.WorkerPublish?)
    ensures var v := Apply(w, e);
            NextRound(v) == NextRound(w) && !w.worker.Scanning? && (v.worker.Scanning? ==> v.worker.offset == 0)
  {
    hide Construct.Work;
  }

  lemma ScanRank(w: World, j: nat)
    requires w.worker.Scanning? && w.worker.offset < SLOTS && |w.slots| == SLOTS && j < SLOTS && w.next < SLOTS
    requires w.slots[j].phase == Queued && Scan(w).slots[j].phase == Queued
    ensures Rank(Scan(w), j) + (if Claims(w, WorkerScan) then 1 else 0) <= Rank(w, j)
  {
    var o, d := w.worker.offset, Distance(w.next, j);
    if o == d { ScannedAt(w, j); } else { RoundMoves(w.next, o, j); }
    hide Distance;
  }

  ghost predicate StaysQueued(w: World, es: seq<Event>, j: nat)
    requires Legal(w, es)
    decreases |es|
  {
    && j < |w.slots| && w.slots[j].phase == Queued
    && (es == [] || StaysQueued(Apply(w, es[0]), es[1..], j))
  }

  lemma {:induction false} RankRun(w: World, es: seq<Event>, j: nat)
    requires Inv(w) && Legal(w, es) && j < SLOTS && w.next < SLOTS && StaysQueued(w, es, j)
    ensures CountClaims(w, es) <= Rank(w, j)
    decreases |es|
  {
    hide Inv, Apply, Enabled, Claims, Rank;
    if es == [] {
      RankNonNegative(w, j);
    } else {
      var v := Apply(w, es[0]);
      Inductive(w, es[0]);
      NextBelow(w);
      NextBelow(v);
      assert StaysQueued(v, es[1..], j);
      RankStep(w, es[0], j);
      RankRun(v, es[1..], j);
    }
  }

  lemma RankNonNegative(w: World, j: nat)
    requires Inv(w) && j < SLOTS && w.next < SLOTS
    ensures Rank(w, j) >= 0
  {
    if w.worker.Scanning? { ScanOffset(w); }
    hide Inv;
  }

  /** A queued slot is claimed after at most seven claims of other slots, whatever anyone submits meanwhile. */
  lemma BoundedWaiting(es: seq<Event>, fs: seq<Event>, j: nat)
    requires Legal(INIT, es) && Legal(After(INIT, es), fs) && j < SLOTS
    requires StaysQueued(After(INIT, es), fs, j)
    ensures CountClaims(After(INIT, es), fs) <= 7
  {
    ReachableInv(es);
    hide Legal, After, CountClaims, StaysQueued, Inv;
    var w := After(INIT, es);
    NextBelow(w);
    RankRun(w, fs, j);
    RankAtMostSeven(w, j);
  }
}
