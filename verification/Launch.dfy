/** One ticket, the submission slot it may own, and the kernel: the launch operations as functions on these three.
    The protocol module interleaves them. */
module Launch {
  import opened Wrappers
  import opened Kernel

  // ----- Data

  datatype Phase = Free | Queued | Working | Done

  datatype State = SUBMITTED | LAUNCHING | FAILING | ABORTING | RUNNING | REAPED | LOST | DISPOSED

  /** `MdkLaunchStep`: a ticket's verdict, or a call's result. */
  datatype LaunchStep = PENDING | OWNED | FAILED | ABORTED | LOST_WAIT | ERROR

  datatype Failure = Failure(operation: int, error: int)

  const NO_FAILURE := Failure(0, 0)
  const CANCELLED := Failure(12, 0)
  const ECHILD: int := 10
  const WAIT_LOST := Failure(5, ECHILD)

  /** The descriptors a launch or a ticket holds. */
  datatype Fds = Fds(pid: Fd, err: Fd, s0: Fd, s1: Fd, s2: Fd)

  const NO_FDS := Fds(-1, -1, -1, -1, -1)

  function Held(f: Fds): multiset<int> {
    One(f.pid) + One(f.err) + One(f.s0) + One(f.s1) + One(f.s2)
  }

  datatype Native = Native(fds: Fds, created: bool, cancelled: bool, failure: Failure)

  const FRESH_NATIVE := Native(NO_FDS, false, false, NO_FAILURE)

  /** A submission's inputs: which streams are pipes, and whether the snapshot will accept the options. */
  datatype Inputs = Inputs(pipe0: bool, pipe1: bool, pipe2: bool, acceptable: bool)

  datatype Slot = Slot(phase: Phase, stop: bool, generation: nat, native: Native, owner: Option<nat>,
                       inputs: Option<Inputs>)

  const EMPTY_SLOT := Slot(Free, false, 0, FRESH_NATIVE, None, None)

  /** How a reaped child ended: kind 0 is an exit and 1 a signal. */
  datatype Status = Status(kind: int, value: int, core: bool)

  /** A ticket.  `home` is the slot it was submitted through (0 when started directly), `asked` what it was started with
      and `cancelled` whether an abort was ever accepted while it was pending: they record history and no branch reads
      them. */
  datatype Ticket = Ticket(state: State, step: LaunchStep, fds: Fds, signalled: bool, recordLen: nat, failure: Failure,
                           status: Status, slot: nat, generation: nat, stopRequested: bool, home: nat, asked: Inputs,
                           cancelled: bool)

  const NO_STATUS := Status(0, 0, false)
  const NO_INPUTS := Inputs(false, false, false, false)
  const NEW_OWNER :=
    Ticket(SUBMITTED, PENDING, NO_FDS, false, 0, NO_FAILURE, NO_STATUS, 0, 0, false, 0, NO_INPUTS, false)

  const RECORD_SIZE: nat := 8

  /** What an operation on ticket `id` works on.  `slot` is the ticket's slot when it has one.  `unrooted` says the
      ticket left the rooted list; `broken` records an `abort()` or the unreachable "invalid launch state" branch. */
  datatype Local = Local(t: Ticket, slot: Slot, os: Os, unrooted: bool, broken: bool)

  // ----- What the system calls can answer

  datatype ReadResult = ReadAgain | ReadBytes(n: nat, operation: int, errno: int) | ReadEof | ReadError(errno: int)

  datatype Ending = ByExit | BySignal | ByDump

  datatype WaitResult = Interrupted | StillRunning | Exited(ending: Ending, value: int) | NoChild
    | WaitError(errno: int)

  datatype Answers = Answers(read: ReadResult, kill: KillResult, wait: WaitResult)

  /** A read of the launch record asks for the rest of it and no more. */
  predicate ReadFits(t: Ticket, r: ReadResult) {
    r.ReadBytes? ==> 1 <= r.n && t.recordLen + r.n <= RECORD_SIZE
  }

  // ----- Closing

  function CloseErr(l: Local): Local {
    l.(os := Close(l.os, l.t.fds.err), t := l.t.(fds := l.t.fds.(err := -1)))
  }

  function ClosePid(l: Local): Local {
    l.(os := Close(l.os, l.t.fds.pid), t := l.t.(fds := l.t.fds.(pid := -1)))
  }

  function CloseStreams(l: Local): Local {
    var os := Close(Close(Close(l.os, l.t.fds.s0), l.t.fds.s1), l.t.fds.s2);
    l.(os := os, t := l.t.(fds := l.t.fds.(s0 := -1, s1 := -1, s2 := -1)))
  }

  // ----- Release and adoption

  function Release(id: nat, l: Local): Local {
    if l.t.slot == 0 then l
    else
      var bad := l.slot.generation != l.t.generation || l.slot.owner != Some(id) || l.slot.phase != Done;
      l.(broken := l.broken || bad,
         slot := l.slot.(owner := None, inputs := None, phase := Free),
         t := l.t.(slot := 0))
  }

  function Unroot(l: Local): Local {
    l.(unrooted := true)
  }

  function AdoptNative(l: Local): Local {
    l.(t := l.t.(fds := l.slot.native.fds, state := LAUNCHING),
       slot := l.slot.(native := l.slot.native.(fds := NO_FDS)))
  }

  /** Whether the ticket has been adopted from its slot by the time the call returns, and what changed. */
  function Adopt(id: nat, l: Local): (bool, Local) {
    if l.t.state != SUBMITTED then (true, l)
    else
      var l1 := l.(broken := l.broken || l.slot.generation != l.t.generation || l.slot.owner != Some(id));
      var n := l.slot.native;
      if l.slot.phase != Done then (false, l1)
      else if !n.created then
        var t := l1.t.(failure := if n.cancelled then CANCELLED else n.failure,
                       step := if n.cancelled then ABORTED else FAILED, state := REAPED);
        (true, Unroot(Release(id, l1.(t := t))))
      else
        var l2 := AdoptNative(l1);
        (true, if l2.t.stopRequested then CloseStreams(CloseErr(l2.(t := l2.t.(state := ABORTING)))) else l2)
  }

  // ----- Waiting and killing

  function StatusOf(ending: Ending, value: int): Status {
    Status(if ending == ByExit then 0 else 1, value, ending == ByDump)
  }

  /** `observe`: 0 when nothing is known yet, 1 reaped, -1 lost, -2 a wait error that may pass. */
  function Observe(l: Local, w: WaitResult): (int, Local) {
    var l1 := l.(os := Wait(l.os, l.t.fds.pid, w.Exited? || w.NoChild?));
    match w
    case Interrupted => (0, l1)
    case StillRunning => (0, l1)
    case WaitError(_) => (-2, l1)
    case NoChild => var l2 := ClosePid(l1); (-1, l2.(t := l2.t.(state := LOST)))
    case Exited(ending, value) =>
      var l2 := ClosePid(l1);
      (1, l2.(t := l2.t.(state := REAPED, status := StatusOf(ending, value))))
  }

  function SendKill(l: Local, r: KillResult): (bool, Local) {
    if l.t.signalled then (true, l)
    else
      var l1 := l.(os := Kill(l.os, l.t.fds.pid, r));
      if r.KillError? then (false, l1) else (true, l1.(t := l1.t.(signalled := true)))
  }

  // ----- check, abort

  function ToFailing(l: Local, f: Failure): Local {
    var l1 := CloseStreams(CloseErr(l));
    l1.(t := l1.t.(failure := f, state := FAILING))
  }

  function KnownOperation(op: int): int {
    if op == 1 || op == 3 || op == 4 || op == 10 then op else 11
  }

  /** The handshake read of a LAUNCHING ticket: decided (with the call's result) or on to the failure path. */
  function Handshake(id: nat, l: Local, r: ReadResult): (Option<LaunchStep>, Local) {
    match r
    case ReadAgain => (Some(PENDING), l)
    case ReadBytes(n, op, e) =>
      var len := l.t.recordLen + n;
      var l1 := l.(t := l.t.(recordLen := len));
      if len == RECORD_SIZE then (None, ToFailing(l1, Failure(KnownOperation(op), e))) else (Some(PENDING), l1)
    case ReadEof =>
      if l.t.recordLen == 0 then
        var l1 := CloseErr(l);
        (Some(OWNED), Release(id, l1.(t := l1.t.(state := RUNNING, step := OWNED))))
      else (None, ToFailing(l, Failure(11, 0)))
    case ReadError(e) => (None, ToFailing(l, Failure(11, e)))
  }

  /** The kill-and-reap path of a FAILING or ABORTING ticket. */
  function KillAndReap(id: nat, l: Local, a: Answers): (LaunchStep, Local) {
    var before := l.t.state;
    var (sent, l1) := SendKill(l, a.kill);
    var (r, l2) := Observe(l1, a.wait);
    if r == 0 then (if sent then PENDING else ERROR, l2)
    else if r == -2 then (ERROR, l2)
    else
      var l3 := Unroot(Release(id, CloseStreams(CloseErr(l2))));
      var step := if r == -1 then LOST_WAIT else if before == ABORTING then ABORTED else FAILED;
      var failure := if r == -1 then WAIT_LOST else if before == ABORTING then CANCELLED else l3.t.failure;
      (step, l3.(t := l3.t.(step := step, failure := failure)))
  }

  function CheckStart(id: nat, l: Local, a: Answers): (LaunchStep, Local) {
    var (adopted, l1) := Adopt(id, l);
    if !adopted then (PENDING, l1)
    else if l1.t.step == OWNED then (if l1.t.state != DISPOSED then OWNED else ERROR, l1)
    else if l1.t.step != PENDING then (l1.t.step, l1)
    else
      var (decided, l2) := if l1.t.state == LAUNCHING then Handshake(id, l1, a.read) else (None, l1);
      if decided.Some? then (decided.value, l2)
      else if l2.t.state == FAILING || l2.t.state == ABORTING then KillAndReap(id, l2, a)
      else (ERROR, l2.(broken := true))
  }

  /** The first half of an abort: a SUBMITTED ticket asks the worker to stop. */
  function RequestStop(l: Local): Local {
    var l1 := l.(t := l.t.(cancelled := l.t.cancelled || l.t.step == PENDING));
    if l.t.state != SUBMITTED then l1
    else l1.(t := l1.t.(stopRequested := true), slot := l.slot.(stop := true))
  }

  /** The rest of it; the worker may have moved in between. */
  function FinishAbort(id: nat, l: Local, a: Answers): (LaunchStep, Local) {
    var (adopted, l1) := Adopt(id, l);
    if !adopted then (PENDING, l1)
    else if l1.t.step == OWNED then (ERROR, l1)
    else
      var l2 := if l1.t.state == LAUNCHING || l1.t.state == FAILING
                then CloseStreams(CloseErr(l1.(t := l1.t.(state := ABORTING)))) else l1;
      CheckStart(id, l2, a)
  }

  // ----- The owned process

  datatype Outcome = Refused(error: Failure) | Nothing | ExitStatus(status: Status) | Fine

  const NOT_OWNED := Refused(Failure(0, 0))
  const CLOSED := Refused(Failure(8, 0))
  const STILL_RUNNING := Refused(Failure(9, 0))

  function WaitFailure(w: WaitResult): Failure {
    if w.WaitError? then Failure(5, w.errno) else WAIT_LOST
  }

  function PollExit(l: Local, w: WaitResult): (Outcome, Local) {
    if l.t.step != OWNED then (NOT_OWNED, l)
    else if l.t.state == DISPOSED then (CLOSED, l)
    else
      var (r, l1) := if l.t.state == RUNNING then Observe(l, w) else (0, l);
      if r < 0 then (Refused(WaitFailure(w)), l1)
      else if l1.t.state == LOST then (Refused(WAIT_LOST), l1)
      else if l1.t.state == RUNNING then (Nothing, l1)
      else (ExitStatus(l1.t.status), l1)
  }

  /** The errno of one `close_once`, 0 when there was nothing to close.  A failing close closes all the same. */
  function CloseError(fd: Fd, errno: int): int {
    if fd < 0 then 0 else errno
  }

  function CloseOutcome(e: int): Outcome {
    if e != 0 then Refused(Failure(6, e)) else Fine
  }

  /** `errno`: what the close reports, 0 for success. */
  function CloseStdin(l: Local, errno: int): (Outcome, Local) {
    if l.t.step != OWNED then (NOT_OWNED, l)
    else if l.t.state == DISPOSED then (CLOSED, l)
    else
      (CloseOutcome(CloseError(l.t.fds.s0, errno)),
       l.(os := Close(l.os, l.t.fds.s0), t := l.t.(fds := l.t.fds.(s0 := -1))))
  }

  /** What the closes of the three streams report. */
  datatype Errnos = Errnos(e0: int, e1: int, e2: int)

  /** The first error among the streams still held. */
  function FirstError(f: Fds, es: Errnos): int {
    var e0, e1 := CloseError(f.s0, es.e0), CloseError(f.s1, es.e1);
    if e0 != 0 then e0 else if e1 != 0 then e1 else CloseError(f.s2, es.e2)
  }

  function Dispose(l: Local, es: Errnos): (Outcome, Local) {
    if l.t.step != OWNED then (NOT_OWNED, l)
    else if l.t.state == DISPOSED then (Fine, l)
    else if l.t.state == RUNNING then (STILL_RUNNING, l)
    else
      var l1 := ClosePid(CloseStreams(l));
      (if l.t.state == LOST then Refused(WAIT_LOST) else CloseOutcome(FirstError(l.t.fds, es)),
       Unroot(l1.(t := l1.t.(state := DISPOSED))))
  }
}
