/** The command batch: rows tried in order while fewer than `jobs` children run, and children waited for until none is
    left. */
module CommandBatch {
  // ----- The system

  /** Starting a child: no temporary files, fork's errno, or a new process. */
  datatype StartAnswer = NoFiles | NoFork(error: int) | Forked(pid: int)

  /** How a process ended. */
  datatype Ending = Exited(code: int) | Signalled(signal: int) | Unclear

  /** A failing wait finds no such child any more. */
  datatype WaitAnswer = Interrupted | NotYet | Ended(ending: Ending) | WaitFailed(error: int)

  datatype RowResult = StartError(error: int) | Exit(code: int) | WaitError(error: int)

  /** What happens to the batch's processes, in order. */
  datatype Event = Started(row: nat, pid: int) | Refused(row: nat, error: int) | Reaped(pid: int, answer: WaitAnswer)

  const EAGAIN: int := 11

  /** The children of the batch that run, each pid with the row it was started for. */
  function Live(trace: seq<Event>): map<int, nat> {
    if trace == [] then map[] else LiveAfter(Live(trace[..|trace| - 1]), trace[|trace| - 1])
  }

  function LiveAfter(live: map<int, nat>, e: Event): map<int, nat> {
    if e.Started? then live[e.pid := e.row] else if e.Reaped? then live - {e.pid} else live
  }

  /** The process table and the answers to come.  Any numbers of refused starts and unfinished waits are followed by no
      more starts and by the end of every child, so that no child runs for ever.  `foreign` holds the children others
      started. Only `Start` and `WaitPid` change any of it. */
  class System {
    var starts: seq<StartAnswer>
    var waits: seq<WaitAnswer>
    var foreign: set<int>
    var fault: bool
    var trace: seq<Event>

    /** `mdk_cmd_start`.  A pid in use is not given again; when none is left fork fails. */
    method Start(row: nat) returns (failed: int, pid: int)
      modifies this`starts, this`trace
      ensures failed == 0 ==>
                && pid > 0 && pid !in Live(old(trace)) && pid !in foreign
                && trace == old(trace) + [Started(row, pid)]
      ensures failed != 0 ==> pid == 0 && trace == old(trace) + [Refused(row, failed)]
      ensures starts == old(if starts == [] then [] else starts[1..])
      ensures old(starts == []) ==> failed == EAGAIN
      ensures old(starts != []) ==>
                match old(if starts == [] then NoFiles else starts[0])
                case NoFiles => failed == -1
                case NoFork(e) => failed == if e != 0 then e else -1
                case Forked(p) =>
                  if p > 0 && p !in Live(old(trace)) && p !in foreign then failed == 0 && pid == p else failed == EAGAIN
    {
      var a := if starts == [] then NoFork(EAGAIN) else starts[0];
      if starts != [] { starts := starts[1..]; }
      match a {
        case NoFiles => failed, pid := -1, 0;
        case NoFork(e) => failed, pid := if e != 0 then e else -1, 0;
        case Forked(p) =>
          if p > 0 && p !in Live(trace) && p !in foreign { failed, pid := 0, p; } else { failed, pid := EAGAIN, 0; }
      }
      trace := trace + [if failed == 0 then Started(row, pid) else Refused(row, failed)];
    }

    /** `waitpid` with WNOHANG on one pid.  A child that ended, or is found missing, is gone; waiting on anything but a
        running child of the batch is a fault, and takes the status of a foreign child away. */
    method WaitPid(pid: int) returns (a: WaitAnswer)
      modifies this`waits, this`foreign, this`fault, this`trace
      ensures fault == (old(fault) || pid !in Live(old(trace)))
      ensures pid in Live(old(trace)) ==> foreign == old(foreign)
      ensures trace == old(trace) + if Gone(a) && pid in Live(old(trace)) then [Reaped(pid, a)] else []
      ensures |waits| <= |old(waits)| && (!Gone(a) ==> |waits| < |old(waits)|)
      ensures old(waits != []) ==> a == old(if waits == [] then NotYet else waits[0]) && waits == old(waits)[1..]
    {
      a := if waits == [] then Ended(Exited(0)) else waits[0];
      if waits != [] { waits := waits[1..]; }
      if pid !in Live(trace) {
        fault := true;
        if Gone(a) { foreign := foreign - {pid}; }
      } else if Gone(a) {
        trace := trace + [Reaped(pid, a)];
      }
    }
  }

  predicate Gone(a: WaitAnswer) {
    a.Ended? || a.WaitFailed?
  }

  /** What a wait that found the child gone makes of its row. */
  function Result(a: WaitAnswer): RowResult
    requires Gone(a)
  {
    match a
    case WaitFailed(e) => WaitError(e)
    case Ended(Exited(code)) => Exit(code)
    case Ended(Signalled(signal)) => Exit(128 + signal)
    case Ended(Unclear) => Exit(1)
  }

  // ----- What a trace says

  /** The event is the end of trying to start a row: its child runs, or it never will.  EAGAIN is final only when no
      child of the batch is left to wait for. */
  ghost predicate Begins(before: seq<Event>, e: Event) {
    e.Started? || (e.Refused? && (e.error != EAGAIN || Live(before) == map[]))
  }

  /** How many rows were begun. */
  ghost function Begun(trace: seq<Event>): nat {
    if trace == [] then 0
    else
      var before := trace[..|trace| - 1];
      Begun(before) + if Begins(before, trace[|trace| - 1]) then 1 else 0
  }

  /** The event settles row `k`: its start failed for good, or its own child is gone. */
  ghost predicate Settling(before: seq<Event>, e: Event, k: nat) {
    match e
    case Started(_, _) => false
    case Refused(row, _) => row == k && Begins(before, e)
    case Reaped(pid, a) => Gone(a) && pid in Live(before) && Live(before)[pid] == k
  }

  ghost function Settled(e: Event): RowResult
    requires e.Refused? || (e.Reaped? && Gone(e.answer))
  {
    if e.Refused? then StartError(e.error) else Result(e.answer)
  }

  /** The results row `k` was settled with, in order. */
  ghost function Settlements(trace: seq<Event>, k: nat): seq<RowResult> {
    if trace == [] then []
    else
      var before, e := trace[..|trace| - 1], trace[|trace| - 1];
      Settlements(before, k) + if Settling(before, e, k) then [Settled(e)] else []
  }

  /** What event `i` may be, given what came before it: only the first row not begun is tried, and only below the limit;
      only a running child of the batch is reaped. */
  ghost predicate EventOk(before: seq<Event>, e: Event, jobs: int) {
    match e
    case Started(row, pid) => row == Begun(before) && |Live(before)| < jobs && pid !in Live(before)
    case Refused(row, _) => row == Begun(before) && |Live(before)| < jobs
    case Reaped(pid, a) => pid in Live(before) && Gone(a)
  }

  ghost predicate TraceOk(trace: seq<Event>, jobs: int) {
    forall i :: 0 <= i < |trace| ==> EventOk(trace[..i], trace[i], jobs)
  }

  /** Nothing more can be started: every row has begun, `jobs` children run, or fork has just asked to wait. */
  ghost predicate Full(trace: seq<Event>, n: nat, jobs: int) {
    || Begun(trace) == n || |Live(trace)| == jobs
    || (trace != [] && trace[|trace| - 1] == Refused(Begun(trace), EAGAIN))
  }

  /** Full, but for children reaped since. */
  ghost predicate Waits(trace: seq<Event>, n: nat, jobs: int) {
    Full(trace, n, jobs) || (trace != [] && trace[|trace| - 1].Reaped? && Waits(trace[..|trace| - 1], n, jobs))
  }

  /** The batch waits for children only when it can start no more. */
  ghost predicate NeverIdle(trace: seq<Event>, n: nat, jobs: int) {
    forall i :: 0 <= i < |trace| && trace[i].Reaped? ==> Waits(trace[..i], n, jobs)
  }

  lemma NeverIdleStep(trace: seq<Event>, e: Event, n: nat, jobs: int)
    requires NeverIdle(trace, n, jobs) && (e.Reaped? ==> Waits(trace, n, jobs))
    ensures NeverIdle(trace + [e], n, jobs) && (e.Reaped? ==> Waits(trace + [e], n, jobs))
  {
    hide Full;
    var t := trace + [e];
    assert t[..|trace|] == trace;
    forall i | 0 <= i < |t| && t[i].Reaped? ensures Waits(t[..i], n, jobs) {
      if i < |trace| { assert t[..i] == trace[..i]; }
    }
  }

  lemma TraceStep(trace: seq<Event>, e: Event, jobs: int)
    requires TraceOk(trace, jobs) && EventOk(trace, e, jobs)
    ensures TraceOk(trace + [e], jobs)
    ensures Begun(trace + [e]) == Begun(trace) + if Begins(trace, e) then 1 else 0
    ensures forall k ::
              Settlements(trace + [e], k) == Settlements(trace, k) + if Settling(trace, e, k) then [Settled(e)] else []
    ensures Live(trace + [e]) == LiveAfter(Live(trace), e)
  {
    var t := trace + [e];
    assert t[..|trace|] == trace;
    hide EventOk;
    forall i | 0 <= i < |t| ensures EventOk(t[..i], t[i], jobs) {
      if i < |trace| {
        assert EventOk(trace[..i], trace[i], jobs);
        assert t[..i] == trace[..i];
      }
    }
  }

  /** A trace in order never has more than `jobs` children running. */
  lemma {:induction false} NeverTooMany(trace: seq<Event>, jobs: int, p: nat)
    requires TraceOk(trace, jobs) && jobs >= 1 && p <= |trace|
    ensures |Live(trace[..p])| <= jobs
  {
    if p > 0 {
      NeverTooMany(trace, jobs, p - 1);
      var before, e := trace[..p - 1], trace[p - 1];
      assert EventOk(before, e, jobs);
      assert trace[..p][..p - 1] == before;
      if e.Reaped? { Removal(Live(before), e.pid); }
    }
  }

  predicate Reaps(e: Event, pid: int) {
    e.Reaped? && e.pid == pid
  }

  ghost predicate RunsFor(live: map<int, nat>, pid: int, row: nat) {
    pid in live && live[pid] == row
  }

  lemma NowRuns(live: map<int, nat>, pid: int, row: nat)
    ensures RunsFor(LiveAfter(live, Started(row, pid)), pid, row)
  {}

  lemma StillRuns(live: map<int, nat>, e: Event, pid: int, row: nat)
    requires RunsFor(live, pid, row) && !Reaps(e, pid) && (e.Started? ==> e.pid != pid)
    ensures RunsFor(LiveAfter(live, e), pid, row)
  {}

  /** Until it is reaped, a started child runs for its row. */
  lemma {:induction false} RunsUntilReaped(trace: seq<Event>, jobs: int, i: nat, p: nat, pid: int, row: nat)
    requires TraceOk(trace, jobs) && i < p <= |trace| && trace[i] == Started(row, pid)
    requires forall j :: i < j < p ==> !Reaps(trace[j], pid)
    ensures RunsFor(Live(trace[..p]), pid, row)
  {
    hide Live, LiveAfter, TraceOk, RunsFor;
    LiveStep(trace, p - 1);
    if i == p - 1 {
      NowRuns(Live(trace[..i]), pid, row);
    } else {
      RunsUntilReaped(trace, jobs, i, p - 1, pid, row);
      OthersOnly(trace, jobs, p - 1, pid, row);
      StillRuns(Live(trace[..p - 1]), trace[p - 1], pid, row);
    }
  }

  lemma LiveStep(trace: seq<Event>, p: nat)
    requires p < |trace|
    ensures Live(trace[..p + 1]) == LiveAfter(Live(trace[..p]), trace[p])
  {
    assert trace[..p + 1][..p] == trace[..p];
    hide LiveAfter;
  }

  /** A running child's pid is not given to another. */
  lemma OthersOnly(trace: seq<Event>, jobs: int, p: nat, pid: int, row: nat)
    requires TraceOk(trace, jobs) && p < |trace| && RunsFor(Live(trace[..p]), pid, row)
    ensures trace[p].Started? ==> trace[p].pid != pid
  {
    hide Live, Begun;
    assert EventOk(trace[..p], trace[p], jobs);
  }

  /** When no child is left, every child that was started has been reaped, settling the row it was started for. */
  lemma EveryChildReaped(trace: seq<Event>, jobs: int, i: nat) returns (j: nat)
    requires TraceOk(trace, jobs) && Live(trace) == map[] && i < |trace| && trace[i].Started?
    ensures i < j < |trace| && Reaps(trace[j], trace[i].pid)
    ensures Settling(trace[..j], trace[j], trace[i].row)
  {
    hide Live;
    j := i + 1;
    while j < |trace| && !Reaps(trace[j], trace[i].pid)
      invariant i < j <= |trace|
      invariant forall k :: i < k < j ==> !Reaps(trace[k], trace[i].pid)
    {
      j := j + 1;
    }
    RunsUntilReaped(trace, jobs, i, j, trace[i].pid, trace[i].row);
    assert trace[..|trace|] == trace;
    assert EventOk(trace[..j], trace[j], jobs);
  }

  lemma Removal(m: map<int, nat>, pid: int)
    requires pid in m
    ensures |m - {pid}| == |m| - 1
  {
    var r := m - {pid};
    assert m.Keys == r.Keys + {pid};
    assert |m.Keys| == |r.Keys| + 1;
  }

  // ----- The batch

  /** Below `next` the child table holds the pid of every running child of the batch in its own row, and 0 elsewhere. */
  ghost predicate Table(live: map<int, nat>, kids: seq<int>, next: nat)
    requires next <= |kids|
  {
    && (forall k :: 0 <= k < next && kids[k] != 0 ==> kids[k] in live && live[kids[k]] == k)
    && (forall pid :: pid in live ==> pid != 0 && live[pid] < next && kids[live[pid]] == pid)
  }

  ghost predicate BatchOk(trace: seq<Event>, kids: seq<int>, res: seq<RowResult>, next: nat, running: int, jobs: int) {
    && next <= |kids| == |res| && jobs >= 1
    && TraceOk(trace, jobs)
    && Table(Live(trace), kids, next) && running == |Live(trace)| <= jobs
    && Begun(trace) == next
    && (forall k :: 0 <= k < |kids| ==> Settlements(trace, k) == if k < next && kids[k] == 0 then [res[k]] else [])
  }

  lemma BatchFull(trace: seq<Event>, kids: seq<int>, res: seq<RowResult>, next: nat, running: int, jobs: int)
    requires BatchOk(trace, kids, res, next, running, jobs) && (running >= jobs || next == |kids|)
    ensures Full(trace, |kids|, jobs)
  {
    hide TraceOk, Live, Settlements, Begun, Table;
  }

  lemma StartedOk(trace: seq<Event>, kids: seq<int>, res: seq<RowResult>, next: nat, running: int, jobs: int, pid: int)
    requires BatchOk(trace, kids, res, next, running, jobs) && next < |kids| && running < jobs
    requires pid > 0 && pid !in Live(trace)
    ensures BatchOk(trace + [Started(next, pid)], kids[next := pid], res, next + 1, running + 1, jobs)
  {
    hide TraceOk, Live, Settlements, Begun;
    TraceStep(trace, Started(next, pid), jobs);
  }

  lemma RefusedOk(trace: seq<Event>, kids: seq<int>, res: seq<RowResult>, next: nat, running: int, jobs: int,
                  error: int)
    requires BatchOk(trace, kids, res, next, running, jobs) && next < |kids| && running < jobs
    ensures error == EAGAIN && running > 0 ==>
              && BatchOk(trace + [Refused(next, error)], kids, res, next, running, jobs)
              && Full(trace + [Refused(next, error)], |kids|, jobs)
    ensures error != EAGAIN || running == 0 ==>
              BatchOk(trace + [Refused(next, error)], kids[next := 0], res[next := StartError(error)], next + 1,
                      running, jobs)
  {
    hide TraceOk, Live, Settlements, Begun;
    assert running == 0 <==> Live(trace) == map[] by { if |Live(trace)| == 0 { assert Live(trace).Keys == {}; } }
    TraceStep(trace, Refused(next, error), jobs);
  }

  lemma ReapedOk(trace: seq<Event>, kids: seq<int>, res: seq<RowResult>, next: nat, running: int, jobs: int, k: nat,
                 a: WaitAnswer)
    requires BatchOk(trace, kids, res, next, running, jobs) && k < next && kids[k] != 0 && Gone(a)
    ensures running > 0
    ensures BatchOk(trace + [Reaped(kids[k], a)], kids[k := 0], res[k := Result(a)], next, running - 1, jobs)
  {
    hide TraceOk, Live, Settlements, Begun;
    TraceStep(trace, Reaped(kids[k], a), jobs);
    Removal(Live(trace), kids[k]);
  }

  lemma BatchFacts(trace: seq<Event>, kids: seq<int>, res: seq<RowResult>, next: nat, running: int, jobs: int)
    requires BatchOk(trace, kids, res, next, running, jobs)
    ensures next <= |kids| == |res| && jobs >= 1 && 0 <= running <= jobs
    ensures running == 0 <==> forall k :: 0 <= k < next ==> kids[k] == 0
    ensures forall k :: 0 <= k < next && kids[k] != 0 ==> kids[k] in Live(trace)
  {
    hide TraceOk, Live, Settlements, Begun;
    if forall k :: 0 <= k < next ==> kids[k] == 0 {
      forall pid: int ensures pid !in Live(trace) {}
      assert Live(trace) == map[];
    }
  }

  /** The inner loop: rows are started while there is room and fork does not ask to wait. */
  method StartRows(w: System, kids: array<int>, res: array<RowResult>, next0: nat, running0: int, jobs: int)
    returns (next: nat, running: int)
    requires (kids as object) != res && kids.Length == res.Length
    requires BatchOk(w.trace, kids[..], res[..], next0, running0, jobs) && NeverIdle(w.trace, kids.Length, jobs)
    modifies w`starts, w`trace, kids, res
    ensures BatchOk(w.trace, kids[..], res[..], next, running, jobs) && NeverIdle(w.trace, kids.Length, jobs)
    ensures Full(w.trace, kids.Length, jobs)
    ensures next0 <= next && (next0 < kids.Length && running0 == 0 ==> next0 < next)
    ensures 2 * (kids.Length - next) + running <= 2 * (kids.Length - next0) + running0
    ensures running == 0 && next0 < next ==> 2 * (kids.Length - next) + running < 2 * (kids.Length - next0) + running0
  {
    hide BatchOk, Live, NeverIdle, Full;
    next, running := next0, running0;
    BatchFacts(w.trace, kids[..], res[..], next, running, jobs);
    while running < jobs && next < kids.Length
      invariant BatchOk(w.trace, kids[..], res[..], next, running, jobs) && NeverIdle(w.trace, kids.Length, jobs)
      invariant next0 <= next <= kids.Length && running0 <= running <= running0 + (next - next0)
    {
      ghost var t, k, r := w.trace, kids[..], res[..];
      var failed, pid := w.Start(next);
      NeverIdleStep(t, if failed == 0 then Started(next, pid) else Refused(next, failed), kids.Length, jobs);
      if failed == 0 {
        StartedOk(t, k, r, next, running, jobs, pid);
      } else {
        RefusedOk(t, k, r, next, running, jobs, failed);
      }
      if failed == EAGAIN && running > 0 { return; }
      kids[next] := pid;
      if failed != 0 {
        res[next] := StartError(failed);
        assert kids[..] == k[next := 0] && res[..] == r[next := StartError(failed)];
      } else {
        assert kids[..] == k[next := pid] && res[..] == r;
        running := running + 1;
      }
      next := next + 1;
      BatchFacts(w.trace, kids[..], res[..], next, running, jobs);
    }
    BatchFull(w.trace, kids[..], res[..], next, running, jobs);
  }

  lemma FullWaits(trace: seq<Event>, n: nat, jobs: int)
    requires Full(trace, n, jobs)
    ensures Waits(trace, n, jobs)
  {}

  lemma NothingIdle(n: nat, jobs: int)
    ensures NeverIdle([], n, jobs)
  {}

  /** `mdk_cmd_waitpid`: retried while interrupted. */
  method Wait(w: System, pid: int) returns (a: WaitAnswer)
    modifies w`waits, w`foreign, w`fault, w`trace
    ensures w.fault == (old(w.fault) || pid !in Live(old(w.trace)))
    ensures pid in Live(old(w.trace)) ==> w.foreign == old(w.foreign)
    ensures w.trace == old(w.trace) + if Gone(a) && pid in Live(old(w.trace)) then [Reaped(pid, a)] else []
    ensures a.NotYet? || Gone(a)
    ensures |w.waits| <= |old(w.waits)| && (!Gone(a) ==> |w.waits| < |old(w.waits)|)
  {
    hide Live;
    a := w.WaitPid(pid);
    while a.Interrupted?
      invariant w.fault == (old(w.fault) || pid !in Live(old(w.trace)))
      invariant pid in Live(old(w.trace)) ==> w.foreign == old(w.foreign)
      invariant w.trace == old(w.trace) + if Gone(a) && pid in Live(old(w.trace)) then [Reaped(pid, a)] else []
      invariant |w.waits| <= |old(w.waits)| && (!Gone(a) ==> |w.waits| < |old(w.waits)|)
      decreases a.Interrupted?, |w.waits|
    {
      assert w.trace == old(w.trace);
      a := w.WaitPid(pid);
    }
  }

  /** One sweep over the children: each is waited for by its own pid. */
  method Sweep(w: System, kids: array<int>, res: array<RowResult>, next: nat, running0: int, jobs: int)
    returns (running: int, settled: nat)
    requires (kids as object) != res && kids.Length == res.Length
    requires BatchOk(w.trace, kids[..], res[..], next, running0, jobs)
    requires NeverIdle(w.trace, kids.Length, jobs) && Waits(w.trace, kids.Length, jobs)
    modifies w`waits, w`foreign, w`fault, w`trace, kids, res
    ensures BatchOk(w.trace, kids[..], res[..], next, running, jobs) && running == running0 - settled
    ensures NeverIdle(w.trace, kids.Length, jobs) && Waits(w.trace, kids.Length, jobs)
    ensures w.foreign == old(w.foreign) && w.fault == old(w.fault)
    ensures settled == 0 && running0 > 0 ==> |w.waits| < |old(w.waits)|
  {
    hide BatchOk, Live, NeverIdle, Waits;
    running, settled := running0, 0;
    BatchFacts(w.trace, kids[..], res[..], next, running, jobs);
    for k := 0 to next
      invariant BatchOk(w.trace, kids[..], res[..], next, running, jobs) && running == running0 - settled
      invariant NeverIdle(w.trace, kids.Length, jobs) && Waits(w.trace, kids.Length, jobs)
      invariant w.foreign == old(w.foreign) && w.fault == old(w.fault)
      invariant |w.waits| <= |old(w.waits)|
      invariant settled == 0 ==> w.trace == old(w.trace) && kids[..] == old(kids[..])
      invariant settled == 0 && |w.waits| == |old(w.waits)| ==> forall j :: 0 <= j < k ==> kids[j] == 0
    {
      if kids[k] == 0 { continue; }
      ghost var t, ks, r := w.trace, kids[..], res[..];
      BatchFacts(t, ks, r, next, running, jobs);
      var a := Wait(w, kids[k]);
      if a == NotYet {
        assert w.trace == t;
        continue;
      }
      ReapedOk(t, ks, r, next, running, jobs, k, a);
      NeverIdleStep(t, Reaped(ks[k], a), kids.Length, jobs);
      res[k] := Result(a);
      kids[k] := 0;
      assert kids[..] == ks[k := 0] && res[..] == r[k := Result(a)];
      running := running - 1;
      settled := settled + 1;
    }
    BatchFacts(w.trace, kids[..], res[..], next, running, jobs);
  }

  lemma Finished(trace: seq<Event>, kids: seq<int>, res: seq<RowResult>, jobs: int)
    requires BatchOk(trace, kids, res, |kids|, 0, jobs)
    ensures TraceOk(trace, jobs) && jobs >= 1 && Live(trace) == map[] && Begun(trace) == |kids|
    ensures forall k :: 0 <= k < |res| ==> Settlements(trace, k) == [res[k]]
  {
    BatchFacts(trace, kids, res, |kids|, 0, jobs);
    hide TraceOk, Live, Settlements, Begun;
    assert Live(trace).Keys == {};
  }

  lemma {:induction false} SettledAt(trace: seq<Event>, k: nat, i: nat, p: nat)
    requires i < p <= |trace| && Settling(trace[..i], trace[i], k)
    ensures Settled(trace[i]) in Settlements(trace[..p], k)
  {
    assert trace[..p][..p - 1] == trace[..p - 1];
    hide Settling, Settled;
    if i < p - 1 { SettledAt(trace, k, i, p - 1); }
  }

  lemma {:induction false} BegunGrows(trace: seq<Event>, p: nat, q: nat)
    requires p <= q <= |trace|
    ensures Begun(trace[..p]) <= Begun(trace[..q])
  {
    if p < q {
      assert trace[..q][..q - 1] == trace[..q - 1];
      BegunGrows(trace, p, q - 1);
    }
  }

  ghost predicate RowsBelow(live: map<int, nat>, n: nat) {
    forall pid :: pid in live ==> live[pid] < n
  }

  lemma RowsBelowAfter(live: map<int, nat>, e: Event, n: nat, m: nat)
    requires RowsBelow(live, n) && n <= m && (e.Started? ==> e.row < m)
    ensures RowsBelow(LiveAfter(live, e), m)
  {}

  lemma BegunStep(trace: seq<Event>, jobs: int, p: nat)
    requires p < |trace| && TraceOk(trace, jobs)
    ensures Begun(trace[..p]) <= Begun(trace[..p + 1])
    ensures trace[p].Started? ==> trace[p].row < Begun(trace[..p + 1])
    ensures trace[p].Refused? && Begins(trace[..p], trace[p]) ==> trace[p].row < Begun(trace[..p + 1])
  {
    assert trace[..p + 1][..p] == trace[..p];
    assert EventOk(trace[..p], trace[p], jobs);
    hide Live;
  }

  /** Only rows already begun have a running child. */
  lemma {:induction false} LiveBegun(trace: seq<Event>, jobs: int, p: nat)
    requires TraceOk(trace, jobs) && p <= |trace|
    ensures RowsBelow(Live(trace[..p]), Begun(trace[..p]))
  {
    if p > 0 {
      hide Live, Begun, TraceOk, LiveAfter, RowsBelow;
      LiveBegun(trace, jobs, p - 1);
      LiveStep(trace, p - 1);
      BegunStep(trace, jobs, p - 1);
      RowsBelowAfter(Live(trace[..p - 1]), trace[p - 1], Begun(trace[..p - 1]), Begun(trace[..p]));
    }
  }

  lemma RefusedResult(trace: seq<Event>, jobs: int, results: seq<RowResult>, i: nat)
    requires i < |trace| && TraceOk(trace, jobs) && trace[i].Refused? && Begins(trace[..i], trace[i])
    requires Begun(trace) == |results| && forall k :: 0 <= k < |results| ==> Settlements(trace, k) == [results[k]]
    ensures trace[i].row < |results| && results[trace[i].row] == StartError(trace[i].error)
  {
    hide Begins, Begun, Live, Settlements, TraceOk;
    assert trace[..|trace|] == trace;
    BegunStep(trace, jobs, i);
    BegunGrows(trace, i + 1, |trace|);
    SettledAt(trace, trace[i].row, i, |trace|);
  }

  lemma ReapedResult(trace: seq<Event>, jobs: int, results: seq<RowResult>, i: nat)
    requires i < |trace| && TraceOk(trace, jobs) && trace[i].Reaped?
    requires Begun(trace) == |results| && forall k :: 0 <= k < |results| ==> Settlements(trace, k) == [results[k]]
    ensures var live, pid, a := Live(trace[..i]), trace[i].pid, trace[i].answer;
            pid in live && live[pid] < |results| && Gone(a) && results[live[pid]] == Result(a)
  {
    hide Begins, Begun, Live, Settlements;
    var before, e := trace[..i], trace[i];
    assert trace[..|trace|] == trace;
    assert EventOk(before, e, jobs);
    LiveBegun(trace, jobs, i);
    BegunGrows(trace, i, |trace|);
    SettledAt(trace, Live(before)[e.pid], i, |trace|);
  }

  /** The one result of a row is what happened to its own child, or its own failed start. */
  lemma Outcomes(trace: seq<Event>, jobs: int, results: seq<RowResult>)
    requires TraceOk(trace, jobs) && Begun(trace) == |results|
    requires forall k :: 0 <= k < |results| ==> Settlements(trace, k) == [results[k]]
    ensures forall i :: 0 <= i < |trace| && trace[i].Refused? ==>
              var Refused(row, e) := trace[i];
              e != EAGAIN || Live(trace[..i]) == map[] ==> row < |results| && results[row] == StartError(e)
    ensures forall i :: 0 <= i < |trace| && trace[i].Reaped? ==>
              var live, pid := Live(trace[..i]), trace[i].pid;
              && pid in live && live[pid] < |results|
              && match trace[i].answer
                 case Ended(Exited(code)) => results[live[pid]] == Exit(code)
                 case Ended(Signalled(signal)) => results[live[pid]] == Exit(128 + signal)
                 case Ended(Unclear) => results[live[pid]] == Exit(1)
                 case WaitFailed(e) => results[live[pid]] == WaitError(e)
                 case NotYet => false
                 case Interrupted => false
  {
    forall i | 0 <= i < |trace| && trace[i].Refused? && Begins(trace[..i], trace[i])
      ensures trace[i].row < |results| && results[trace[i].row] == StartError(trace[i].error)
    {
      RefusedResult(trace, jobs, results, i);
    }
    forall i | 0 <= i < |trace| && trace[i].Reaped?
      ensures var live, pid, a := Live(trace[..i]), trace[i].pid, trace[i].answer;
              pid in live && live[pid] < |results| && Gone(a) && results[live[pid]] == Result(a)
    {
      ReapedResult(trace, jobs, results, i);
    }
    hide Live, Settlements, Begun, TraceOk;
  }

  /** The loop: `jobs` is at least one. */
  method RunRows(n: nat, jobs: int, w: System) returns (results: seq<RowResult>)
    requires w.trace == [] && jobs >= 1
    modifies w
    ensures TraceOk(w.trace, jobs) && NeverIdle(w.trace, n, jobs) && Live(w.trace) == map[] && Begun(w.trace) == n
    ensures w.fault == old(w.fault) && w.foreign == old(w.foreign)
    ensures |results| == n && forall k :: 0 <= k < n ==> Settlements(w.trace, k) == [results[k]]
  {
    var kids, res := new int[n](_ => 0), new RowResult[n](_ => Exit(0));
    var next, running := 0, 0;
    assert BatchOk(w.trace, kids[..], res[..], next, running, jobs);
    hide BatchOk, TraceOk, Live, Settlements, Begun, NeverIdle, Waits, Full;
    assert NeverIdle([], n, jobs) by { NothingIdle(n, jobs); }
    while next < n || running > 0
      invariant next <= n && BatchOk(w.trace, kids[..], res[..], next, running, jobs) && NeverIdle(w.trace, n, jobs)
      invariant w.fault == old(w.fault) && w.foreign == old(w.foreign)
      decreases 2 * (n - next) + running
    {
      ghost var measure := 2 * (n - next) + running;
      next, running := StartRows(w, kids, res, next, running, jobs);
      BatchFacts(w.trace, kids[..], res[..], next, running, jobs);
      if running == 0 { continue; }
      FullWaits(w.trace, n, jobs);
      var settled := 0;
      while settled == 0
        invariant BatchOk(w.trace, kids[..], res[..], next, running, jobs)
        invariant NeverIdle(w.trace, n, jobs) && Waits(w.trace, n, jobs)
        invariant w.fault == old(w.fault) && w.foreign == old(w.foreign)
        invariant settled == 0 ==> running > 0
        invariant 2 * (n - next) + running + settled <= measure
        decreases settled == 0, |w.waits|
      {
        running, settled := Sweep(w, kids, res, next, running, jobs);
        BatchFacts(w.trace, kids[..], res[..], next, running, jobs);
      }
    }
    results := res[..];
    Finished(w.trace, kids[..], res[..], jobs);
  }

  /** `mdk_run_command_batch`.  The rows are tried in input order, a refusal with EAGAIN again later while children of
      the batch run; never more than `jobs` of them run; each is waited for by its own pid alone and is gone when the
      batch returns; every row is settled exactly once, by its own child or its own failed start, with the result
      returned in its place.  Each pass that reaches a sweep lowers 2 * (unstarted rows) + running. */
  method RunBatch(n: nat, jobsWord: int, w: System) returns (results: seq<RowResult>)
    requires w.trace == []
    modifies w
    ensures var jobs := if jobsWord / 2 < 1 then 1 else jobsWord / 2;
            TraceOk(w.trace, jobs) && forall p :: 0 <= p <= |w.trace| ==> |Live(w.trace[..p])| <= jobs
    ensures Live(w.trace) == map[] && Begun(w.trace) == n
    ensures NeverIdle(w.trace, n, if jobsWord / 2 < 1 then 1 else jobsWord / 2)
    ensures w.fault == old(w.fault) && w.foreign == old(w.foreign)
    ensures |results| == n && forall k :: 0 <= k < n ==> Settlements(w.trace, k) == [results[k]]
    ensures forall i :: 0 <= i < |w.trace| && w.trace[i].Refused? ==>
              var Refused(row, e) := w.trace[i];
              e != EAGAIN || Live(w.trace[..i]) == map[] ==> row < n && results[row] == StartError(e)
    ensures forall i :: 0 <= i < |w.trace| && w.trace[i].Reaped? ==>
              var live, pid := Live(w.trace[..i]), w.trace[i].pid;
              && pid in live && live[pid] < n
              && match w.trace[i].answer
                 case Ended(Exited(code)) => results[live[pid]] == Exit(code)
                 case Ended(Signalled(signal)) => results[live[pid]] == Exit(128 + signal)
                 case Ended(Unclear) => results[live[pid]] == Exit(1)
                 case WaitFailed(e) => results[live[pid]] == WaitError(e)
                 case NotYet => false
                 case Interrupted => false
  {
    hide TraceOk, Live, Settlements, Begun, NeverIdle;
    var jobs := if jobsWord / 2 < 1 then 1 else jobsWord / 2;
    results := RunRows(n, jobs, w);
    Outcomes(w.trace, jobs, results);
    forall p | 0 <= p <= |w.trace| ensures |Live(w.trace[..p])| <= jobs { NeverTooMany(w.trace, jobs, p); }
  }
}
