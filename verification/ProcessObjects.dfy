/** The launch code's own objects: the ticket, the submission slot and the doubly linked list of rooted tickets, updated
    in place.  Each method is proved to do what the function of the same name in `Launch` says. */
module ProcessObjects {
  import opened Wrappers
  import opened Kernel
  import opened Launch

  /** The kernel, and whether an `abort()` was reached. */
  class System {
    var os: Os
    var broken: bool

    constructor ()
      ensures os == BOOT && !broken
    {
      os, broken := BOOT, false;
    }

    method Close(fd: Fd)
      modifies this`os
      ensures os == Kernel.Close(old(os), fd)
    {
      os := Kernel.Close(os, fd);
    }
  }

  class Submission {
    var phase: Phase
    var stop: bool
    var generation: nat
    var native: Native
    var owner: Option<nat>
    var inputs: Option<Inputs>

    constructor ()
      ensures View() == EMPTY_SLOT
    {
      phase, stop, generation, native, owner, inputs := Free, false, 0, FRESH_NATIVE, None, None;
    }

    ghost function View(): Slot
      reads this
    {
      Slot(phase, stop, generation, native, owner, inputs)
    }
  }

  class Process {
    const id: nat
    var next: Process?
    var previous: Process?
    var state: State
    var step: LaunchStep
    var pid: Fd
    var err: Fd
    const streams: array<Fd>
    var signalled: bool
    var recordLen: nat
    var failure: Failure
    var status: Status
    var slot: nat
    var generation: nat
    var stopRequested: bool
    ghost var home: nat
    ghost var asked: Inputs
    ghost var cancelled: bool

    /** `new_owner`. */
    constructor (id: nat)
      ensures this.id == id && next == null && previous == null && streams.Length == 3 && fresh(streams)
      ensures View() == NEW_OWNER
    {
      this.id := id;
      next, previous := null, null;
      state, step := SUBMITTED, PENDING;
      pid, err := -1, -1;
      streams := new Fd[3](_ => -1);
      signalled, recordLen, failure, status := false, 0, NO_FAILURE, NO_STATUS;
      slot, generation, stopRequested := 0, 0, false;
      home, asked, cancelled := 0, NO_INPUTS, false;
    }

    ghost function View(): Ticket
      reads this`state, this`step, this`pid, this`err, this`signalled, this`recordLen, this`failure, this`status,
            this`slot, this`generation, this`stopRequested, this`home, this`asked, this`cancelled, streams
      requires streams.Length == 3
    {
      Ticket(state, step, Fds(pid, err, streams[0], streams[1], streams[2]), signalled, recordLen, failure, status,
             slot, generation, stopRequested, home, asked, cancelled)
    }

    /** The ticket, its slot and the kernel as `Launch` sees them. */
    ghost function Here(q: Submission, sys: System): Local
      reads this, streams, q, sys
      requires streams.Length == 3
    {
      Local(View(), q.View(), sys.os, false, sys.broken)
    }

    method CloseErr(sys: System, ghost q: Submission)
      requires streams.Length == 3
      modifies this`err, sys`os
      ensures Here(q, sys) == Launch.CloseErr(old(Here(q, sys)))
    {
      var fd := err;
      err := -1;
      sys.Close(fd);
    }

    method ClosePid(sys: System, ghost q: Submission)
      requires streams.Length == 3
      modifies this`pid, sys`os
      ensures Here(q, sys) == Launch.ClosePid(old(Here(q, sys)))
    {
      var fd := pid;
      pid := -1;
      sys.Close(fd);
    }

    method CloseStreams(sys: System, ghost q: Submission)
      requires streams.Length == 3
      modifies streams, sys`os
      ensures Here(q, sys) == Launch.CloseStreams(old(Here(q, sys)))
    {
      ghost var s, os := streams[..], sys.os;
      for i := 0 to 3
        invariant forall j :: 0 <= j < 3 ==> streams[j] == if j < i then -1 else s[j]
        invariant sys.os == (if i == 0 then os else if i == 1 then Kernel.Close(os, s[0])
                             else if i == 2 then Kernel.Close(Kernel.Close(os, s[0]), s[1])
                             else Kernel.Close(Kernel.Close(Kernel.Close(os, s[0]), s[1]), s[2]))
      {
        var fd := streams[i];
        streams[i] := -1;
        sys.Close(fd);
      }
    }

    method Release(sys: System, q: Submission)
      requires streams.Length == 3
      modifies this`slot, sys`broken, q
      ensures Here(q, sys) == Launch.Release(id, old(Here(q, sys)))
    {
      if slot == 0 { return; }
      if q.generation != generation || q.owner != Some(id) || q.phase != Done { sys.broken := true; }
      q.owner := None;
      q.inputs := None;
      slot := 0;
      q.phase := Free;
    }

    method Observe(sys: System, ghost q: Submission, w: WaitResult) returns (r: int)
      requires streams.Length == 3
      modifies this`pid, this`state, this`status, sys`os
      ensures (r, Here(q, sys)) == Launch.Observe(old(Here(q, sys)), w)
    {
      sys.os := Kernel.Wait(sys.os, pid, w.Exited? || w.NoChild?);
      match w
      case Interrupted => r := 0;
      case StillRunning => r := 0;
      case WaitError(_) => r := -2;
      case NoChild => ClosePid(sys, q); state := LOST; r := -1;
      case Exited(ending, value) =>
        status := Status(if ending == ByExit then 0 else 1, value, ending == ByDump);
        ClosePid(sys, q);
        state := REAPED;
        r := 1;
    }

    method SendKill(sys: System, ghost q: Submission, k: KillResult) returns (sent: bool)
      requires streams.Length == 3
      modifies this`signalled, sys`os
      ensures (sent, Here(q, sys)) == Launch.SendKill(old(Here(q, sys)), k)
    {
      if signalled { return true; }
      sys.os := Kernel.Kill(sys.os, pid, k);
      if k.KillError? { return false; }
      signalled := true;
      return true;
    }

    // ----- Operations that may take the ticket off the rooted list

    /** What holds of the list between calls: it is well formed, and a ticket that is not on it has no links. */
    ghost predicate Linked(roots: RootList)
      reads this`next, this`previous, roots, roots.nodes`next, roots.nodes`previous
    {
      roots.Valid() && (this !in roots.nodes ==> next == null == previous)
    }

    /** The objects are as `m` says, and the list lost this ticket exactly if `m` says so. */
    ghost predicate Becomes(m: Local, sys: System, q: Submission, roots: RootList, was: seq<Process>)
      reads this, streams, q, sys, roots, roots.nodes`next, roots.nodes`previous
      requires streams.Length == 3
    {
      && Here(q, sys) == m.(unrooted := false) && Linked(roots)
      && roots.nodes == (if m.unrooted then Without(was, this) else was)
    }

    method AdoptNative(q: Submission, ghost sys: System)
      requires streams.Length == 3
      modifies this`pid, this`err, this`state, streams, q`native
      ensures Here(q, sys) == Launch.AdoptNative(old(Here(q, sys)))
    {
      var f := q.native.fds;
      pid, err := f.pid, f.err;
      streams[0], streams[1], streams[2] := f.s0, f.s1, f.s2;
      q.native := q.native.(fds := NO_FDS);
      state := LAUNCHING;
    }

    /** The launch never made a child. */
    method TakeRefusal(sys: System, q: Submission)
      requires streams.Length == 3
      modifies this`failure, this`step, this`state, this`slot, sys`broken, q
      ensures var l, n := old(Here(q, sys)), old(q.native);
              var t := l.t.(failure := if n.cancelled then CANCELLED else n.failure,
                            step := if n.cancelled then ABORTED else FAILED, state := REAPED);
              Here(q, sys) == Launch.Release(id, l.(t := t))
    {
      var n := q.native;
      failure := if n.cancelled then CANCELLED else n.failure;
      step := if n.cancelled then ABORTED else FAILED;
      state := REAPED;
      Release(sys, q);
    }

    /** It did: the descriptors move to the ticket, which aborts at once if it was asked to stop. */
    method TakeLaunch(sys: System, q: Submission)
      requires streams.Length == 3
      modifies this`pid, this`err, this`state, streams, sys`os, q`native
      ensures var l := Launch.AdoptNative(old(Here(q, sys)));
              Here(q, sys) ==
                if l.t.stopRequested then Launch.CloseStreams(Launch.CloseErr(l.(t := l.t.(state := ABORTING)))) else l
    {
      hide Launch.CloseStreams, Launch.CloseErr;
      AdoptNative(q, sys);
      if stopRequested {
        state := ABORTING;
        CloseErr(sys, q);
        CloseStreams(sys, q);
      }
    }

    method AdoptRefusal(sys: System, q: Submission, roots: RootList)
      requires streams.Length == 3 && Linked(roots)
      modifies this, q, sys, roots, roots.Members()`next, roots.Members()`previous
      ensures var l, n := old(Here(q, sys)), old(q.native);
              var t := l.t.(failure := if n.cancelled then CANCELLED else n.failure,
                            step := if n.cancelled then ABORTED else FAILED, state := REAPED);
              Becomes(Launch.Unroot(Launch.Release(id, l.(t := t))), sys, q, roots, old(roots.nodes))
    {
      hide RootList.Valid, Linked, Without, Launch.Release;
      TakeRefusal(sys, q);
      roots.Unroot(this);
    }

    method AdoptLaunch(sys: System, q: Submission, roots: RootList)
      requires streams.Length == 3 && Linked(roots)
      modifies this, streams, q, sys
      ensures var l := Launch.AdoptNative(old(Here(q, sys)));
              Here(q, sys) ==
                if l.t.stopRequested then Launch.CloseStreams(Launch.CloseErr(l.(t := l.t.(state := ABORTING)))) else l
      ensures Linked(roots)
    {
      hide RootList.Valid, Linked, Launch.CloseStreams, Launch.CloseErr;
      TakeLaunch(sys, q);
    }

    method Adopt(sys: System, q: Submission, roots: RootList) returns (adopted: bool)
      requires streams.Length == 3 && Linked(roots)
      modifies this, streams, q, sys, roots, roots.Members()`next, roots.Members()`previous
      ensures var (r, m) := Launch.Adopt(id, old(Here(q, sys)));
              adopted == r && Becomes(m, sys, q, roots, old(roots.nodes))
    {
      hide RootList.Valid, Linked, Without, Launch.Release, Launch.CloseStreams, Launch.CloseErr;
      if state != SUBMITTED { return true; }
      if q.generation != generation || q.owner != Some(id) { sys.broken := true; }
      if q.phase != Done { return false; }
      if q.native.created { AdoptLaunch(sys, q, roots); } else { AdoptRefusal(sys, q, roots); }
      return true;
    }

    /** On to the failure path, with the streams and the error pipe closed. */
    method Fail(sys: System, q: Submission, f: Failure)
      requires streams.Length == 3
      modifies this`err, this`failure, this`state, streams, sys`os
      ensures Here(q, sys) == Launch.ToFailing(old(Here(q, sys)), f)
    {
      hide Launch.CloseErr, Launch.CloseStreams;
      CloseErr(sys, q);
      CloseStreams(sys, q);
      failure, state := f, FAILING;
    }

    method Own(sys: System, q: Submission)
      requires streams.Length == 3
      modifies this`err, this`state, this`step, this`slot, sys, q
      ensures var l := Launch.CloseErr(old(Here(q, sys)));
              Here(q, sys) == Launch.Release(id, l.(t := l.t.(state := RUNNING, step := OWNED)))
    {
      hide Launch.CloseErr, Launch.Release;
      CloseErr(sys, q);
      state, step := RUNNING, OWNED;
      Release(sys, q);
    }

    method Handshake(sys: System, q: Submission, r: ReadResult) returns (decided: Option<LaunchStep>)
      requires streams.Length == 3
      modifies this`err, this`state, this`step, this`slot, this`failure, this`recordLen, streams, q, sys
      ensures (decided, Here(q, sys)) == Launch.Handshake(id, old(Here(q, sys)), r)
    {
      hide Launch.ToFailing, Launch.CloseErr, Launch.Release;
      match r
      case ReadAgain => decided := Some(PENDING);
      case ReadBytes(n, op, e) =>
        recordLen := recordLen + n;
        if recordLen == RECORD_SIZE {
          Fail(sys, q, Failure(KnownOperation(op), e));
          decided := None;
        } else {
          decided := Some(PENDING);
        }
      case ReadEof =>
        if recordLen == 0 {
          Own(sys, q);
          decided := Some(OWNED);
        } else {
          Fail(sys, q, Failure(11, 0));
          decided := None;
        }
      case ReadError(e) =>
        Fail(sys, q, Failure(11, e));
        decided := None;
    }

    /** The child is gone: everything is closed and the slot given back. */
    method LetGo(sys: System, q: Submission)
      requires streams.Length == 3
      modifies this`err, this`slot, streams, sys, q
      ensures Here(q, sys) == Launch.Release(id, Launch.CloseStreams(Launch.CloseErr(old(Here(q, sys)))))
    {
      hide Launch.Release, Launch.CloseStreams, Launch.CloseErr;
      CloseErr(sys, q);
      CloseStreams(sys, q);
      Release(sys, q);
    }

    method Retire(sys: System, q: Submission, roots: RootList)
      requires streams.Length == 3 && Linked(roots)
      modifies this, streams, q, sys, roots, roots.Members()`next, roots.Members()`previous
      ensures Becomes(Launch.Unroot(Launch.Release(id, Launch.CloseStreams(Launch.CloseErr(old(Here(q, sys)))))), sys,
                      q, roots, old(roots.nodes))
    {
      hide RootList.Valid, Linked, Without, Launch.Release, Launch.CloseStreams, Launch.CloseErr;
      LetGo(sys, q);
      roots.Unroot(this);
    }

    method Conclude(o: int, before: State) returns (r: LaunchStep)
      requires streams.Length == 3
      modifies this`failure, this`step
      ensures r == (if o == -1 then LOST_WAIT else if before == ABORTING then ABORTED else FAILED)
      ensures View() ==
                old(View()).(step := r,
                             failure := if o == -1 then WAIT_LOST else if before == ABORTING then CANCELLED
                                        else old(failure))
    {
      if o == -1 {
        failure, step := WAIT_LOST, LOST_WAIT;
      } else if before == ABORTING {
        failure, step := CANCELLED, ABORTED;
      } else {
        step := FAILED;
      }
      return step;
    }

    method KillAndReap(sys: System, q: Submission, roots: RootList, a: Answers) returns (r: LaunchStep)
      requires streams.Length == 3 && Linked(roots)
      modifies this, streams, q, sys, roots, roots.Members()`next, roots.Members()`previous
      ensures var (r0, m) := Launch.KillAndReap(id, old(Here(q, sys)), a);
              r == r0 && Becomes(m, sys, q, roots, old(roots.nodes))
    {
      hide RootList.Valid, Linked, Without, Launch.Release, Launch.CloseStreams, Launch.CloseErr, Launch.Observe,
           Launch.SendKill;
      KillAndReapCases(id, Here(q, sys), a);
      hide Launch.KillAndReap, Becomes, Linked, RootList.Valid;
      var before := state;
      var sent := SendKill(sys, q, a.kill);
      var o := Observe(sys, q, a.wait);
      if o == 0 || o == -2 {
        return if o == 0 && sent then PENDING else ERROR;
      }
      Retire(sys, q, roots);
      r := Conclude(o, before);
    }

    method CheckStart(sys: System, q: Submission, roots: RootList, a: Answers) returns (r: LaunchStep)
      requires streams.Length == 3 && Linked(roots)
      modifies this, streams, q, sys, roots, roots.Members()`next, roots.Members()`previous
      ensures var (r0, m) := Launch.CheckStart(id, old(Here(q, sys)), a);
              r == r0 && Becomes(m, sys, q, roots, old(roots.nodes))
    {
      hide RootList.Valid, Linked, Without, Kernel.Close;
      hide Launch.Adopt, Launch.Handshake, Launch.KillAndReap;
      AdoptedPending(id, Here(q, sys));
      var adopted := Adopt(sys, q, roots);
      if !adopted { return PENDING; }
      if step == OWNED { return if state != DISPOSED then OWNED else ERROR; }
      if step != PENDING { return step; }
      if state == LAUNCHING {
        var decided := Handshake(sys, q, a.read);
        if decided.Some? { return decided.value; }
      }
      if state == FAILING || state == ABORTING {
        r := KillAndReap(sys, q, roots, a);
        return;
      }
      sys.broken := true;
      return ERROR;
    }

    method RequestStop(sys: System, q: Submission)
      requires streams.Length == 3
      modifies this`stopRequested, this`cancelled, q`stop
      ensures Here(q, sys) == Launch.RequestStop(old(Here(q, sys)))
    {
      cancelled := cancelled || step == PENDING;
      if state == SUBMITTED {
        stopRequested := true;
        q.stop := true;
      }
    }

    method FinishAbort(sys: System, q: Submission, roots: RootList, a: Answers) returns (r: LaunchStep)
      requires streams.Length == 3 && Linked(roots)
      modifies this, streams, q, sys, roots, roots.Members()`next, roots.Members()`previous
      ensures var (r0, m) := Launch.FinishAbort(id, old(Here(q, sys)), a);
              r == r0 && Becomes(m, sys, q, roots, old(roots.nodes))
    {
      hide RootList.Valid, Linked, Without, Kernel.Close;
      hide Launch.Adopt, Launch.CheckStart;
      AdoptedPending(id, Here(q, sys));
      ghost var m := Launch.Adopt(id, Here(q, sys)).1;
      var adopted := Adopt(sys, q, roots);
      if !adopted { return PENDING; }
      if step == OWNED { return ERROR; }
      assert roots.Members() <= old(roots.Members()) by { WithoutWithin(old(roots.nodes), this); }
      if m.unrooted { CheckSettled(id, m, a); }
      if state == LAUNCHING || state == FAILING {
        state := ABORTING;
        CloseErr(sys, q);
        CloseStreams(sys, q);
      }
      r := CheckStart(sys, q, roots, a);
    }

    method PollExit(sys: System, q: Submission, w: WaitResult) returns (o: Outcome)
      requires streams.Length == 3
      modifies this`pid, this`state, this`status, sys`os
      ensures (o, Here(q, sys)) == Launch.PollExit(old(Here(q, sys)), w)
    {
      if step != OWNED { return NOT_OWNED; }
      if state == DISPOSED { return CLOSED; }
      if state == RUNNING {
        var r := Observe(sys, q, w);
        if r < 0 { return Refused(WaitFailure(w)); }
      }
      if state == LOST { return Refused(WAIT_LOST); }
      return if state == RUNNING then Nothing else ExitStatus(status);
    }

    /** `close_once`: the errno of the close, `errno` being what the kernel answers, or 0. */
    method CloseOnce(i: nat, errno: int, sys: System) returns (e: int)
      requires i < streams.Length
      modifies streams, sys`os
      ensures streams[..] == old(streams[..])[i := -1]
      ensures sys.os == Kernel.Close(old(sys.os), old(streams[i])) && e == CloseError(old(streams[i]), errno)
    {
      var fd := streams[i];
      streams[i] := -1;
      sys.Close(fd);
      return if fd < 0 then 0 else errno;
    }

    method CloseStdin(sys: System, q: Submission, errno: int) returns (o: Outcome)
      requires streams.Length == 3
      modifies streams, sys`os
      ensures (o, Here(q, sys)) == Launch.CloseStdin(old(Here(q, sys)), errno)
    {
      if step != OWNED { return NOT_OWNED; }
      if state == DISPOSED { return CLOSED; }
      ghost var was := streams[..];
      var e := CloseOnce(0, errno, sys);
      assert streams[..] == was[0 := -1];
      return if e != 0 then Refused(Failure(6, e)) else Fine;
    }

    /** The loop that closes the streams and keeps the first error. */
    method CloseNoting(sys: System, ghost q: Submission, es: Errnos) returns (e: int)
      requires streams.Length == 3
      modifies streams, sys`os
      ensures Here(q, sys) == Launch.CloseStreams(old(Here(q, sys))) && e == FirstError(old(View()).fds, es)
    {
      e := 0;
      ghost var s, os := streams[..], sys.os;
      for i := 0 to 3
        invariant streams[..] == seq(3, j requires 0 <= j < 3 => if j < i then -1 else s[j])
        invariant sys.os == (if i == 0 then os else if i == 1 then Kernel.Close(os, s[0])
                             else if i == 2 then Kernel.Close(Kernel.Close(os, s[0]), s[1])
                             else Kernel.Close(Kernel.Close(Kernel.Close(os, s[0]), s[1]), s[2]))
        invariant e == FirstError(Fds(-1, -1, if i > 0 then s[0] else -1, if i > 1 then s[1] else -1,
                                      if i > 2 then s[2] else -1), es)
      {
        assert streams[i] == s[i];
        var r := CloseOnce(i, if i == 0 then es.e0 else if i == 1 then es.e1 else es.e2, sys);
        if r != 0 && e == 0 { e := r; }
      }
      assert streams[..] == [-1, -1, -1];
    }

    method ShutDown(sys: System, q: Submission, es: Errnos) returns (e: int)
      requires streams.Length == 3
      modifies this`pid, this`state, streams, sys`os
      ensures var l := Launch.ClosePid(Launch.CloseStreams(old(Here(q, sys))));
              Here(q, sys) == l.(t := l.t.(state := DISPOSED)) && e == FirstError(old(View()).fds, es)
    {
      hide Launch.ClosePid, Launch.CloseStreams, FirstError;
      e := CloseNoting(sys, q, es);
      ClosePid(sys, q);
      state := DISPOSED;
    }

    method Dispose(sys: System, q: Submission, roots: RootList, es: Errnos) returns (o: Outcome)
      requires streams.Length == 3 && Linked(roots)
      modifies this, streams, sys, roots, roots.Members()`next, roots.Members()`previous
      ensures var (o0, m) := Launch.Dispose(old(Here(q, sys)), es);
              o == o0 && Becomes(m, sys, q, roots, old(roots.nodes))
    {
      hide RootList.Valid, Linked, Without, Launch.ClosePid, Launch.CloseStreams, FirstError;
      if step != OWNED { return NOT_OWNED; }
      if state == DISPOSED { return Fine; }
      if state == RUNNING { return STILL_RUNNING; }
      var lost := state == LOST;
      var e := ShutDown(sys, q, es);
      roots.Unroot(this);
      return if lost then Refused(WAIT_LOST) else if e != 0 then Refused(Failure(6, e)) else Fine;
    }
  }

  lemma WithoutWithin(nodes: seq<Process>, p: Process)
    ensures forall n :: n in Without(nodes, p) ==> n in nodes
  {}

  lemma KillAndReapCases(id: nat, l: Local, a: Answers)
    ensures var (sent, l1) := Launch.SendKill(l, a.kill);
            var (o, l2) := Launch.Observe(l1, a.wait);
            var l3 := Launch.Release(id, Launch.CloseStreams(Launch.CloseErr(l2)));
            var step := if o == -1 then LOST_WAIT else if l.t.state == ABORTING then ABORTED else FAILED;
            var failure := if o == -1 then WAIT_LOST else if l.t.state == ABORTING then CANCELLED else l3.t.failure;
            Launch.KillAndReap(id, l, a) ==
              if o == 0 then (if sent then PENDING else ERROR, l2)
              else if o == -2 then (ERROR, l2)
              else (step, l3.(t := l3.t.(step := step, failure := failure), unrooted := true))
  {
    hide Launch.SendKill, Launch.Observe, Launch.Release, Launch.CloseStreams, Launch.CloseErr;
  }

  /** Only an adoption that settles the launch takes the ticket off the list. */
  lemma AdoptedPending(id: nat, l: Local)
    requires !l.unrooted
    ensures var m := Launch.Adopt(id, l).1;
            m.unrooted ==> m.t.step != PENDING && m.t.step != OWNED && m.t.state == REAPED
  {}

  lemma CheckSettled(id: nat, l: Local, a: Answers)
    requires l.t.state != SUBMITTED && l.t.step != PENDING && l.t.step != OWNED
    ensures Launch.CheckStart(id, l, a) == (l.t.step, l)
    ensures var k := l.(unrooted := false); Launch.CheckStart(id, k, a) == (l.t.step, k)
  {
    hide Launch.Handshake, Launch.KillAndReap;
  }

  /** `process_roots`, threaded through the tickets' own links. */
  class RootList {
    var head: Process?
    ghost var nodes: seq<Process>

    constructor ()
      ensures Valid() && nodes == []
    {
      head, nodes := null, [];
    }

    ghost function Members(): set<Process>
      reads this`nodes
    {
      set n | n in nodes
    }

    ghost predicate Linked(i: nat)
      reads this, nodes`next, nodes`previous
      requires i < |nodes|
    {
      && nodes[i].next == (if i + 1 < |nodes| then nodes[i + 1] else null)
      && nodes[i].previous == (if i > 0 then nodes[i - 1] else null)
    }

    ghost predicate Valid()
      reads this, nodes`next, nodes`previous
    {
      && (forall i, j :: 0 <= i < j < |nodes| ==> nodes[i] != nodes[j])
      && head == (if nodes == [] then null else nodes[0])
      && (forall i :: 0 <= i < |nodes| ==> Linked(i))
    }

    method Root(p: Process)
      requires Valid() && p !in nodes && p.next == null == p.previous
      modifies this, Members()`previous, p`next
      ensures Valid() && nodes == [p] + old(nodes)
    {
      ghost var was := nodes;
      assert forall i :: 0 <= i < |was| ==> Linked(i);
      p.next := head;
      if head != null { head.previous := p; }
      head := p;
      nodes := [p] + nodes;
      forall i | 0 <= i < |nodes| ensures Linked(i) {
        if i > 0 {
          assert old(Linked(i - 1));
        }
      }
    }

    method Unroot(p: Process)
      requires p.Linked(this)
      modifies this, Members()`next, Members()`previous, p`next, p`previous
      ensures p.Linked(this) && nodes == Without(old(nodes), p) && p.next == null == p.previous
    {
      hide Without;
      ghost var was, k := nodes, Index(nodes, p);
      if k < |was| {
        assert Linked(k);
        if k > 0 { assert Linked(k - 1); }
        if k + 1 < |was| { assert Linked(k + 1); }
      }
      if p.previous != null {
        p.previous.next := p.next;
      } else if head == p {
        head := p.next;
      } else {
        WithoutNone(was, p);
        return;
      }
      if p.next != null { p.next.previous := p.previous; }
      p.next := null;
      p.previous := null;
      nodes := was[..k] + was[k + 1..];
      WithoutAt(was, p, k);
      forall i | 0 <= i < |nodes| ensures Linked(i) {
        ghost var j := if i < k then i else i + 1;
        assert old(Linked(j));
        assert nodes[i] == was[j] != p;
        assert i + 1 < |nodes| ==> nodes[i + 1] == was[if i + 1 < k then i + 1 else i + 2];
        assert i > 0 ==> nodes[i - 1] == was[if i - 1 < k then i - 1 else i];
      }
    }
  }

  ghost function Index(nodes: seq<Process>, p: Process): (k: nat)
    ensures k <= |nodes| && (k < |nodes| ==> nodes[k] == p) && p !in nodes[..k]
  {
    if nodes == [] || nodes[0] == p then 0 else 1 + Index(nodes[1..], p)
  }

  lemma WithoutNone(nodes: seq<Process>, p: Process)
    requires p !in nodes
    ensures Without(nodes, p) == nodes
  {
  }

  lemma WithoutAt(nodes: seq<Process>, p: Process, k: nat)
    requires k < |nodes| && nodes[k] == p && p !in nodes[..k]
    ensures Without(nodes, p) == nodes[..k] + nodes[k + 1..]
  {
    if k > 0 {
      WithoutAt(nodes[1..], p, k - 1);
    }
  }
}
