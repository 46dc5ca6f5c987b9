/** What every launch operation keeps, one ticket at a time: descriptors move or close exactly once, a child is killed
    and reaped at most once, verdicts are final, cancellation sticks. */
module LaunchLocal {
  import opened Wrappers
  import opened Kernel
  import opened Launch

  ghost predicate Rooted(t: Ticket) {
    t.step == PENDING || (t.step == OWNED && t.state != DISPOSED)
  }

  /** How state, verdict and held descriptors of a ticket go together. */
  ghost predicate TicketShape(t: Ticket) {
    && t.step != ERROR
    && (t.step == PENDING <==> (t.state.SUBMITTED? || t.state.LAUNCHING? || t.state.FAILING? || t.state.ABORTING?))
    && (t.step == OWNED ==> (t.state.RUNNING? || t.state.REAPED? || t.state.LOST? || t.state.DISPOSED?))
    && ((t.step.FAILED? || t.step.ABORTED? || t.step.LOST_WAIT?) ==>
          (t.state.REAPED? || t.state.LOST?) && t.fds == NO_FDS)
    && (t.state == DISPOSED ==> t.fds == NO_FDS)
    && (t.slot != 0 ==> t.step == PENDING)
    && (t.state == SUBMITTED ==> t.slot != 0 && t.fds == NO_FDS && !t.signalled && t.recordLen == 0)
    && (t.state == LAUNCHING ==>
          t.fds.pid >= 0 && t.fds.err >= 0 && !t.signalled && t.recordLen < RECORD_SIZE && !t.cancelled)
    && ((t.state.FAILING? || t.state.ABORTING?) ==> t.fds.pid >= 0 && t.fds == Fds(t.fds.pid, -1, -1, -1, -1))
    && (t.state == RUNNING ==> t.fds.pid >= 0 && t.fds.err == -1)
    && ((t.state.REAPED? || t.state.LOST?) ==> t.fds.pid == -1 && t.fds.err == -1)
    && (t.cancelled ==>
          (t.state == SUBMITTED && t.stopRequested) || t.state == ABORTING
          || (t.step.FAILED? || t.step.ABORTED? || t.step.LOST_WAIT?))
    && (t.stopRequested && t.step == PENDING ==> t.cancelled)
    && (t.state == ABORTING || t.step == ABORTED ==> t.cancelled)
    && (t.step == ABORTED ==> t.failure == CANCELLED) && (t.step == LOST_WAIT ==> t.failure == WAIT_LOST)
  }

  /** A held pidfd is the pidfd of an unreaped child, killed only if `signalled`; the other descriptors are no
      pidfds. */
  ghost predicate FdsOk(os: Os, f: Fds, signalled: bool) {
    && (f.pid >= 0 ==> f.pid in os.unreaped && (f.pid in os.killed ==> signalled))
    && f.err !in os.unreaped && f.s0 !in os.unreaped && f.s1 !in os.unreaped && f.s2 !in os.unreaped
  }

  /** What the worker leaves for the adopter. */
  ghost predicate NativeDone(n: Native, os: Os) {
    && (n.created ==> n.fds.pid >= 0 && n.fds.err >= 0 && FdsOk(os, n.fds, false))
    && (!n.created ==> n.fds == NO_FDS)
  }

  ghost function SlotHeld(l: Local): multiset<int> {
    if l.t.slot == 0 then multiset{} else Held(l.slot.native.fds)
  }

  ghost function LocalHeld(l: Local): multiset<int> {
    Held(l.t.fds) + SlotHeld(l)
  }

  /** Everything held is open, each descriptor once. */
  ghost predicate Backed(l: Local) {
    LocalHeld(l) <= multiset(l.os.open)
  }

  /** Descriptors are closed or moved, never dropped or doubled. */
  ghost predicate Balanced(l: Local, m: Local) {
    multiset(m.os.open) + LocalHeld(l) == multiset(l.os.open) + LocalHeld(m)
  }

  ghost predicate LocalInv(id: nat, l: Local) {
    && !l.broken && Sane(l.os)
    && TicketShape(l.t)
    && FdsOk(l.os, l.t.fds, l.t.signalled)
    && Backed(l)
    && (l.t.slot != 0 ==>
          && l.slot.owner == Some(id) && l.slot.generation == l.t.generation
          && (l.t.state != SUBMITTED ==> l.slot.phase == Done && l.slot.native.fds == NO_FDS)
          && (l.t.state == SUBMITTED ==>
                (l.slot.stop <==> l.t.stopRequested) && (l.slot.native.cancelled ==> l.t.stopRequested))
          && (l.t.state == SUBMITTED && l.slot.phase == Done ==> NativeDone(l.slot.native, l.os)))
  }

  function Child(pid: Fd): set<int> {
    if pid < 0 then {} else {pid}
  }

  ghost function OwnChildren(l: Local): set<int> {
    Child(l.t.fds.pid) + if l.t.slot == 0 || l.slot.phase != Done then {} else Child(l.slot.native.fds.pid)
  }

  /** The frame of an operation: everything outside the ticket, its slot and their descriptors is untouched, and the
      descriptors in play balance against the kernel's. */
  ghost predicate Moves(l: Local, m: Local) {
    Balanced(l, m) && KernelMoves(l, m) && TicketMoves(l, m) && SlotMoves(l, m)
  }

  ghost predicate KernelMoves(l: Local, m: Local) {
    && m.os.next == l.os.next
    && m.os.unreaped <= l.os.unreaped <= m.os.unreaped + OwnChildren(l)
    && l.os.killed <= m.os.killed <= l.os.killed + OwnChildren(l) && l.os.absent <= m.os.absent
    && OwnChildren(m) <= OwnChildren(l)
  }

  ghost predicate TicketMoves(l: Local, m: Local) {
    && m.t.generation == l.t.generation && m.t.home == l.t.home
    && (l.t.cancelled ==> m.t.cancelled)
    && (l.t.step != PENDING ==> m.t.step == l.t.step && m.t.failure == l.t.failure)
    && (Rooted(m.t) ==> Rooted(l.t))
    && (m.unrooted <==> l.unrooted || (Rooted(l.t) && !Rooted(m.t)))
  }

  ghost predicate SlotMoves(l: Local, m: Local) {
    && (m.t.slot == l.t.slot ||
          (l.slot.phase == Done && m.t.slot == 0 && m.slot.phase == Free && m.slot.owner == None
           && m.slot.inputs == None && m.slot.native.fds == NO_FDS))
    && (m.t.slot == l.t.slot ==>
          m.slot.phase == l.slot.phase && m.slot.owner == l.slot.owner && m.slot.inputs == l.slot.inputs)
    && (l.t.slot == 0 ==> m.slot == l.slot)
    && m.slot.generation == l.slot.generation && (l.slot.stop ==> m.slot.stop)
    && (l.slot.phase != Done ==> m.slot.native == l.slot.native)
  }

  lemma MovesTransitive(l: Local, m: Local, n: Local)
    requires Moves(l, m) && Moves(m, n)
    ensures Moves(l, n)
  {
    hide LocalHeld;
    BalanceTransitive(multiset(l.os.open), LocalHeld(l), multiset(m.os.open), LocalHeld(m), multiset(n.os.open),
                      LocalHeld(n));
  }

  lemma BalanceTransitive(lo: multiset<int>, lh: multiset<int>, mo: multiset<int>, mh: multiset<int>, no: multiset<int>,
                          nh: multiset<int>)
    requires mo + lh == lo + mh && no + mh == mo + nh
    ensures no + lh == lo + nh
  {
    forall x ensures (no + lh)[x] == (lo + nh)[x] {
      assert (mo + lh)[x] == (lo + mh)[x] && (no + mh)[x] == (mo + nh)[x];
    }
  }

  // ----- Closing

  /** Closing one of the descriptors held leaves the rest open. */
  lemma CloseHeld(k: Os, fd: Fd, rest: multiset<int>)
    requires One(fd) + rest <= multiset(k.open) && !k.fault
    ensures rest <= multiset(Close(k, fd).open) && !Close(k, fd).fault
    ensures multiset(Close(k, fd).open) + One(fd) == multiset(k.open)
    ensures Close(k, fd) == k.(open := k.open - {fd}) || Close(k, fd) == k
  {
    CloseBalance(k, fd);
    var c := Close(k, fd);
    if fd >= 0 { assert fd in One(fd); }
    forall x ensures rest[x] <= multiset(c.open)[x] {
      assert (multiset(c.open) + One(fd))[x] == multiset(k.open)[x] && (One(fd) + rest)[x] <= multiset(k.open)[x];
    }
  }

  lemma NoneHeld()
    ensures One(-1) == multiset{} && Held(NO_FDS) == multiset{}
  {}

  /** Closing the error pipe and the streams closes exactly what the ticket holds there. */
  lemma CloseErrStreams(l: Local)
    requires Backed(l) && !l.os.fault
    ensures var m := CloseStreams(CloseErr(l));
            && m == l.(os := m.os, t := l.t.(fds := Fds(l.t.fds.pid, -1, -1, -1, -1)))
            && m.os == l.os.(open := m.os.open)
            && m.os.open <= l.os.open <= m.os.open + {l.t.fds.err, l.t.fds.s0, l.t.fds.s1, l.t.fds.s2}
            && Balanced(l, m) && Backed(m)
  {
    var f, other := l.t.fds, One(l.t.fds.pid) + SlotHeld(l);
    NoneHeld();
    hide One, SlotHeld;
    CloseHeld(l.os, f.err, One(f.s0) + One(f.s1) + One(f.s2) + other);
    var o1 := Close(l.os, f.err);
    CloseHeld(o1, f.s0, One(f.s1) + One(f.s2) + other);
    var o2 := Close(o1, f.s0);
    CloseHeld(o2, f.s1, One(f.s2) + other);
    CloseHeld(Close(o2, f.s1), f.s2, other);
    var m := CloseStreams(CloseErr(l));
    SameSlotHeld(l, m);
    assert LocalHeld(m) == other;
  }

  lemma SameSlotHeld(l: Local, m: Local)
    requires m.t.slot == l.t.slot && m.slot.native.fds == l.slot.native.fds
    ensures SlotHeld(m) == SlotHeld(l)
  {}

  lemma ClosePidBalance(l: Local)
    requires Backed(l) && !l.os.fault
    ensures var m := ClosePid(l);
            && m == l.(os := m.os, t := l.t.(fds := l.t.fds.(pid := -1)))
            && m.os == l.os.(open := m.os.open)
            && Balanced(l, m) && Backed(m)
  {
    var f := l.t.fds;
    NoneHeld();
    hide One, SlotHeld;
    CloseHeld(l.os, f.pid, One(f.err) + One(f.s0) + One(f.s1) + One(f.s2) + SlotHeld(l));
    SameSlotHeld(l, ClosePid(l));
  }

  // ----- What breaks

  /** The first `abort()`: giving back a slot that is not the ticket's own, or not done. */
  lemma ReleaseBreaks(id: nat, l: Local)
    ensures Release(id, l).broken <==>
              || l.broken
              || (l.t.slot != 0
                  && (l.slot.generation != l.t.generation || l.slot.owner != Some(id) || l.slot.phase != Done))
  {}

  /** The second: adopting from a slot that is not the ticket's own; a launch that made no child gives the slot back. */
  lemma AdoptBreaks(id: nat, l: Local)
    requires l.t.state == SUBMITTED && l.t.slot != 0
    ensures Adopt(id, l).1.broken <==> l.broken || l.slot.generation != l.t.generation || l.slot.owner != Some(id)
  {
    hide Close;
  }

  /** The branch that is never to be reached. */
  lemma InvalidStateBreaks(id: nat, l: Local, a: Answers)
    requires l.t.step == PENDING && (l.t.state.RUNNING? || l.t.state.REAPED? || l.t.state.LOST? || l.t.state.DISPOSED?)
    ensures CheckStart(id, l, a) == (ERROR, l.(broken := true))
  {}

  // ----- What each operation keeps

  /** What a SUBMITTED ticket becomes of the launch the worker handed over. */
  ghost predicate AdoptedAs(l: Local, t: Ticket) {
    var n := l.slot.native;
    if n.created then t.fds == (if l.t.stopRequested then Fds(n.fds.pid, -1, -1, -1, -1) else n.fds)
                      && t.state == (if l.t.stopRequested then ABORTING else LAUNCHING) && t.step == PENDING
    else
      && t.step == (if n.cancelled then ABORTED else FAILED) && t.state == REAPED
      && (!n.cancelled ==> t.failure == n.failure)
  }

  lemma AdoptKeeps(id: nat, l: Local)
    requires LocalInv(id, l)
    ensures var (ok, m) := Adopt(id, l);
            && Moves(l, m) && LocalInv(id, m)
            && (ok <==> l.t.state != SUBMITTED || l.slot.phase == Done)
            && (ok ==> m.t.state != SUBMITTED)
            && (!ok ==> m == l)
            && m.t.recordLen == l.t.recordLen
            && (ok && l.t.state == SUBMITTED ==> AdoptedAs(l, m.t))
  {
    if l.t.state == SUBMITTED && l.slot.phase == Done {
      if l.slot.native.created { AdoptCreated(id, l); } else { AdoptRefused(id, l); }
    } else {
      assert Moves(l, l);
    }
  }

  lemma AdoptRefused(id: nat, l: Local)
    requires LocalInv(id, l) && l.t.state == SUBMITTED && l.slot.phase == Done && !l.slot.native.created
    ensures var m := Adopt(id, l).1;
            Moves(l, m) && LocalInv(id, m) && m.t.recordLen == l.t.recordLen && AdoptedAs(l, m.t)
  {
    NoneHeld();
    hide One, Held;
  }

  lemma AdoptCreated(id: nat, l: Local)
    requires LocalInv(id, l) && l.t.state == SUBMITTED && l.slot.phase == Done && l.slot.native.created
    ensures var m := Adopt(id, l).1;
            Moves(l, m) && LocalInv(id, m) && m.t.recordLen == l.t.recordLen && m.t.state != SUBMITTED
            && AdoptedAs(l, m.t)
  {
    NoneHeld();
    var a := AdoptNative(l);
    assert LocalHeld(a) == LocalHeld(l) by { hide One, Held; }
    hide One, Held, CloseErr, CloseStreams;
    assert Moves(l, a);
    if l.t.stopRequested {
      var b := a.(t := a.t.(state := ABORTING));
      assert LocalHeld(b) == LocalHeld(a);
      CloseErrStreams(b);
      var c := CloseStreams(CloseErr(b));
      assert Adopt(id, l).1 == c;
      assert Moves(l, c);
      assert LocalInv(id, c);
    } else {
      assert Adopt(id, l).1 == a;
      assert LocalInv(id, a);
    }
  }

  /** Held descriptors depend only on the descriptor fields. */
  lemma SameHeld(l: Local, m: Local)
    requires m.t.fds == l.t.fds && SlotHeld(m) == SlotHeld(l) && m.os.open == l.os.open
    ensures LocalHeld(m) == LocalHeld(l)
    ensures Backed(m) == Backed(l)
    ensures forall k :: Balanced(k, m) == Balanced(k, l)
  {}

  /** A live ticket that drops its error pipe and streams and is left FAILING or ABORTING. */
  ghost function Dropped(l: Local, state: State, len: nat, failure: Failure): Local {
    var c := CloseStreams(CloseErr(l));
    c.(t := c.t.(state := state, recordLen := len, failure := failure, cancelled := l.t.cancelled || state == ABORTING))
  }

  ghost predicate CanDrop(id: nat, l: Local, state: State) {
    LocalInv(id, l) && (l.t.state.LAUNCHING? || l.t.state.FAILING?)
    && (state == ABORTING || (state == FAILING && l.t.state == LAUNCHING))
  }

  /** Closing descriptors that are no pidfds keeps every child's pidfd open. */
  lemma SaneClosing(k: Os, open: set<int>, f: Fds)
    requires Sane(k) && f.err !in k.unreaped && f.s0 !in k.unreaped && f.s1 !in k.unreaped && f.s2 !in k.unreaped
    requires open <= k.open <= open + {f.err, f.s0, f.s1, f.s2}
    ensures Sane(k.(open := open))
  {}

  lemma DropBalance(id: nat, l: Local, state: State, len: nat, failure: Failure)
    requires CanDrop(id, l, state)
    ensures var m := Dropped(l, state, len, failure);
            && m == l.(os := m.os, t := m.t)
            && m.t ==
                 l.t.(fds := Fds(l.t.fds.pid, -1, -1, -1, -1), state := state, recordLen := len, failure := failure,
                           cancelled := l.t.cancelled || state == ABORTING)
            && m.os == l.os.(open := m.os.open)
            && Sane(m.os) && Balanced(l, m) && Backed(m)
  {
    CloseErrStreams(l);
    var c := CloseStreams(CloseErr(l));
    SaneClosing(l.os, c.os.open, l.t.fds);
    SameSlotHeld(c, Dropped(l, state, len, failure));
    hide CloseErr, CloseStreams, Held, SlotHeld, LocalInv, Sane, One;
    SameHeld(c, Dropped(l, state, len, failure));
  }

  lemma DropKeeps(id: nat, l: Local, state: State, len: nat, failure: Failure)
    requires CanDrop(id, l, state)
    ensures LocalInv(id, Dropped(l, state, len, failure)) && Moves(l, Dropped(l, state, len, failure))
  {
    DropBalance(id, l, state, len, failure);
    var m := Dropped(l, state, len, failure);
    DropShape(l, m) by { hide Dropped, Backed, Balanced, Sane, Moves; }
    DropMoves(l, m) by { hide Dropped, Backed, LocalHeld, Sane, FdsOk, Moves; }
    hide Dropped, Backed, Balanced, Sane, Moves, TicketShape, FdsOk;
  }

  lemma DropShape(l: Local, m: Local)
    requires TicketShape(l.t) && FdsOk(l.os, l.t.fds, l.t.signalled) && -1 !in l.os.unreaped
    requires (l.t.state.LAUNCHING? || l.t.state.FAILING?)
             && (m.t.state == ABORTING || (m.t.state == FAILING && l.t.state == LAUNCHING))
    requires m.t ==
               l.t.(fds := Fds(l.t.fds.pid, -1, -1, -1, -1), state := m.t.state, recordLen := m.t.recordLen,
                    failure := m.t.failure, cancelled := l.t.cancelled || m.t.state == ABORTING)
    requires m.os.unreaped == l.os.unreaped && m.os.killed == l.os.killed && m.os.absent == l.os.absent
    ensures TicketShape(m.t) && FdsOk(m.os, m.t.fds, m.t.signalled)
  {}

  lemma DropMoves(l: Local, m: Local)
    requires TicketShape(l.t) && (l.t.state.LAUNCHING? || l.t.state.FAILING?) && Balanced(l, m)
    requires m == l.(os := l.os.(open := m.os.open), t := m.t)
    requires m.t ==
               l.t.(fds := Fds(l.t.fds.pid, -1, -1, -1, -1), state := m.t.state, recordLen := m.t.recordLen,
                    failure := m.t.failure, cancelled := l.t.cancelled || m.t.state == ABORTING)
    ensures Moves(l, m)
  {
    hide Balanced;
  }

  /** Closing does not look at the record length. */
  lemma DropRecord(l: Local, len: nat)
    ensures var c, d := CloseStreams(CloseErr(l.(t := l.t.(recordLen := len)))), CloseStreams(CloseErr(l));
            c == d.(t := d.t.(recordLen := len)) && d.t.cancelled == l.t.cancelled
  {}

  lemma ToFailingKeeps(id: nat, l: Local, len: nat, f: Failure)
    requires LocalInv(id, l) && l.t.state == LAUNCHING
    ensures var m := ToFailing(l.(t := l.t.(recordLen := len)), f);
            Moves(l, m) && LocalInv(id, m) && m.t.state == FAILING && m.t.step == PENDING
  {
    DropKeeps(id, l, FAILING, len, f);
    hide LocalInv, Moves, CloseErr, CloseStreams;
    DropRecord(l, len);
  }

  lemma CloseErrBalance(l: Local)
    requires Backed(l) && !l.os.fault
    ensures var m := CloseErr(l);
            && m == l.(os := m.os, t := l.t.(fds := l.t.fds.(err := -1)))
            && m.os == l.os.(open := m.os.open)
            && m.os.open <= l.os.open <= m.os.open + {l.t.fds.err}
            && Balanced(l, m) && Backed(m)
  {
    var f := l.t.fds;
    NoneHeld();
    hide One, SlotHeld;
    CloseHeld(l.os, f.err, One(f.pid) + One(f.s0) + One(f.s1) + One(f.s2) + SlotHeld(l));
    SameSlotHeld(l, CloseErr(l));
  }

  lemma ReleaseHeld(id: nat, l: Local)
    requires l.t.slot != 0 ==> l.slot.native.fds == NO_FDS
    ensures SlotHeld(Release(id, l)) == SlotHeld(l)
  {
    NoneHeld();
  }

  /** End of file before any record: the launch succeeded and the ticket owns the process. */
  lemma OwnedKeeps(id: nat, l: Local)
    requires LocalInv(id, l) && l.t.state == LAUNCHING && l.t.recordLen == 0
    ensures var m := Handshake(id, l, ReadEof).1;
            Moves(l, m) && LocalInv(id, m) && m.t.step == OWNED && m.t.state == RUNNING
  {
    OwnedIs(id, l);
    var m := Handshake(id, l, ReadEof).1;
    LaunchingFacts(id, l);
    hide Handshake, Sane, Backed, Balanced, TicketShape, FdsOk, Moves;
    OwnedShape(l, m);
    OwnedMoves(l, m);
  }

  lemma OwnedIs(id: nat, l: Local)
    requires LocalInv(id, l) && l.t.state == LAUNCHING && l.t.recordLen == 0
    ensures var m := Handshake(id, l, ReadEof).1;
            && m.os == l.os.(open := m.os.open) && Sane(m.os) && Balanced(l, m) && Backed(m) && !m.broken
            && m.unrooted == l.unrooted
            && m.t == l.t.(fds := l.t.fds.(err := -1), state := RUNNING, step := OWNED, slot := 0)
            && m.slot == (if l.t.slot == 0 then l.slot else l.slot.(owner := None, inputs := None, phase := Free))
  {
    CloseErrBalance(l);
    var c := CloseErr(l);
    var m := Handshake(id, l, ReadEof).1;
    ReleaseHeld(id, c);
    assert SlotHeld(m) == SlotHeld(c);
    SameHeld(c, m);
    SaneClosing(l.os, c.os.open, l.t.fds);
    hide Held, SlotHeld, LocalHeld, Backed, Balanced, CloseErr, Sane, TicketShape;
  }

  lemma LaunchingFacts(id: nat, l: Local)
    requires LocalInv(id, l) && l.t.state == LAUNCHING
    ensures TicketShape(l.t) && FdsOk(l.os, l.t.fds, l.t.signalled) && Sane(l.os) && l.t.step == PENDING
    ensures l.t.slot != 0 ==> l.slot.phase == Done && l.slot.native.fds == NO_FDS
  {
    hide Sane, FdsOk, Backed, NativeDone;
  }

  lemma OwnedShape(l: Local, m: Local)
    requires TicketShape(l.t) && l.t.state == LAUNCHING && FdsOk(l.os, l.t.fds, l.t.signalled) && Sane(l.os)
    requires m.t == l.t.(fds := l.t.fds.(err := -1), state := RUNNING, step := OWNED, slot := 0)
    requires m.os == l.os.(open := m.os.open)
    ensures TicketShape(m.t) && FdsOk(m.os, m.t.fds, m.t.signalled)
  {
    assert -1 !in l.os.unreaped;
    hide Sane;
  }

  lemma OwnedMoves(l: Local, m: Local)
    requires l.t.step == PENDING && Balanced(l, m) && m.os == l.os.(open := m.os.open) && m.unrooted == l.unrooted
    requires m.t == l.t.(fds := l.t.fds.(err := -1), state := RUNNING, step := OWNED, slot := 0)
    requires m.slot == (if l.t.slot == 0 then l.slot else l.slot.(owner := None, inputs := None, phase := Free))
    requires l.t.slot != 0 ==> l.slot.phase == Done && l.slot.native.fds == NO_FDS
    ensures Moves(l, m)
  {
    hide Balanced;
  }

  lemma HandshakeKeeps(id: nat, l: Local, r: ReadResult)
    requires LocalInv(id, l) && l.t.state == LAUNCHING && ReadFits(l.t, r)
    ensures var (d, m) := Handshake(id, l, r);
            && Moves(l, m) && LocalInv(id, m)
            && (d.None? ==> m.t.state == FAILING && m.t.step == PENDING)
            && (d.Some? ==> (d.value.PENDING? || d.value.OWNED?) && m.t.step == d.value)
            && (d == Some(OWNED) ==> m.t.state == RUNNING)
            && (d == Some(OWNED) <==> r.ReadEof? && l.t.recordLen == 0)
            && (d.None? <==>
                  (r.ReadBytes? && l.t.recordLen + r.n == RECORD_SIZE) || (r.ReadEof? && l.t.recordLen > 0)
                  || r.ReadError?)
  {
    HandshakeCases(id, l, r);
    hide Handshake, LocalInv, Moves, ToFailing;
    match r
    case ReadAgain => MovesNothing(l); assert l.t.step == PENDING by { LaunchingPending(id, l); }
    case ReadBytes(n, op, e) =>
      if l.t.recordLen + n == RECORD_SIZE {
        ToFailingKeeps(id, l, RECORD_SIZE, Failure(KnownOperation(op), e));
      } else {
        RecordGrows(id, l, l.t.recordLen + n);
      }
    case ReadEof =>
      if l.t.recordLen == 0 { OwnedKeeps(id, l); } else {
        ToFailingKeeps(id, l, l.t.recordLen, Failure(11, 0));
      }
    case ReadError(e) => ToFailingKeeps(id, l, l.t.recordLen, Failure(11, e));
  }

  /** The branches of the handshake. */
  lemma HandshakeCases(id: nat, l: Local, r: ReadResult)
    ensures Handshake(id, l, r) ==
              match r
              case ReadAgain => (Some(PENDING), l)
              case ReadBytes(n, op, e) =>
                var k := l.(t := l.t.(recordLen := l.t.recordLen + n));
                if l.t.recordLen + n == RECORD_SIZE then (None, ToFailing(k, Failure(KnownOperation(op), e)))
                else (Some(PENDING), k)
              case ReadEof =>
                if l.t.recordLen == 0 then (Some(OWNED), Handshake(id, l, ReadEof).1)
                else (None, ToFailing(l.(t := l.t.(recordLen := l.t.recordLen)), Failure(11, 0)))
              case ReadError(e) => (None, ToFailing(l.(t := l.t.(recordLen := l.t.recordLen)), Failure(11, e)))
  {
    assert l.(t := l.t.(recordLen := l.t.recordLen)) == l;
    hide ToFailing, CloseErr, Release;
  }

  lemma LaunchingPending(id: nat, l: Local)
    requires LocalInv(id, l) && l.t.state == LAUNCHING
    ensures l.t.step == PENDING
  {
    hide FdsOk, Backed, Sane, NativeDone;
  }

  /** Part of a record was read. */
  lemma RecordGrows(id: nat, l: Local, len: nat)
    requires LocalInv(id, l) && l.t.state == LAUNCHING && len < RECORD_SIZE
    ensures var m := l.(t := l.t.(recordLen := len)); Moves(l, m) && LocalInv(id, m) && m.t.step == PENDING
  {
    var m := l.(t := l.t.(recordLen := len));
    assert LocalHeld(m) == LocalHeld(l);
    hide LocalHeld, FdsOk, Sane, NativeDone;
  }

  // ----- Killing and reaping

  lemma HeldPidIsOpen(l: Local)
    requires Backed(l) && l.t.fds.pid >= 0
    ensures l.t.fds.pid in l.os.open
  {
    assert l.t.fds.pid in One(l.t.fds.pid);
    assert One(l.t.fds.pid) <= LocalHeld(l);
  }

  /** What the kernel is left with: a ticket not yet signalled sends SIGKILL to its child, a signalled one does
      nothing. */
  ghost function Killed(l: Local, r: KillResult): Os {
    l.os.(killed := l.os.killed + if !l.t.signalled && r.Delivered? then {l.t.fds.pid} else {},
          absent := l.os.absent + if !l.t.signalled && r.NoProcess? then {l.t.fds.pid} else {})
  }

  lemma SendKillIs(l: Local, r: KillResult)
    requires Sane(l.os) && Backed(l) && l.t.fds.pid >= 0 && FdsOk(l.os, l.t.fds, l.t.signalled)
    ensures var (sent, m) := SendKill(l, r);
            && sent == (l.t.signalled || !r.KillError?)
            && m == l.(os := Killed(l, r), t := l.t.(signalled := sent))
            && Sane(m.os) && FdsOk(m.os, m.t.fds, m.t.signalled)
            && Backed(m) && Balanced(l, m)
  {
    HeldPidIsOpen(l);
    KillSane(l.os, l.t.fds.pid, r, l.t.signalled);
    hide Held, SlotHeld, Sane, Kill;
    SameHeld(l, SendKill(l, r).1);
  }

  /** At most one successful kill, on the live pidfd of an unreaped child. */
  lemma SendKillKeeps(id: nat, l: Local, r: KillResult)
    requires LocalInv(id, l) && (l.t.state.FAILING? || l.t.state.ABORTING?)
    ensures var (sent, m) := SendKill(l, r);
            && LocalInv(id, m) && Moves(l, m)
            && m.t == l.t.(signalled := m.t.signalled) && sent == m.t.signalled == (l.t.signalled || !r.KillError?)
            && m.os == Killed(l, r)
  {
    SendKillIs(l, r);
    hide Backed, Balanced, Sane, SendKill, FdsOk;
  }

  lemma KillSane(k: Os, fd: Fd, r: KillResult, signalled: bool)
    requires Sane(k) && fd in k.open && fd in k.unreaped && (fd in k.killed ==> signalled)
    ensures !signalled ==> Sane(Kill(k, fd, r))
    ensures !signalled ==>
              Kill(k, fd, r) == k.(killed := k.killed + if r.Delivered? then {fd} else {},
                                   absent := k.absent + if r.NoProcess? then {fd} else {})
  {}

  /** The whole effect of reaping or losing the child: the pidfd closed, the child gone, the slot given back. */
  ghost function Reaped(id: nat, l: Local, w: WaitResult): Local {
    var l2 := Observe(l, w).1;
    Unroot(Release(id, CloseStreams(CloseErr(l2))))
  }

  lemma WaitSane(k: Os, fd: Fd)
    requires Sane(k) && fd in k.open && fd in k.unreaped
    ensures Wait(k, fd, true) == k.(unreaped := k.unreaped - {fd})
    ensures Wait(k, fd, false) == k
    ensures Close(Wait(k, fd, true), fd) == k.(unreaped := k.unreaped - {fd}, open := k.open - {fd})
    ensures Sane(Close(Wait(k, fd, true), fd))
  {}

  lemma ReapedIs(id: nat, l: Local, w: WaitResult)
    requires LocalInv(id, l) && (l.t.state.FAILING? || l.t.state.ABORTING?) && (w.Exited? || w.NoChild?)
    ensures var m, pid := Reaped(id, l, w), l.t.fds.pid;
            && m.os == l.os.(unreaped := l.os.unreaped - {pid}, open := l.os.open - {pid}) && Sane(m.os)
            && m.t == l.t.(fds := NO_FDS, state := if w.Exited? then REAPED else LOST, slot := 0, status := m.t.status)
            && m.slot == (if l.t.slot == 0 then l.slot else l.slot.(owner := None, inputs := None, phase := Free))
            && m.unrooted && !m.broken
            && Balanced(l, m) && Backed(m)
  {
    var m, pid := Reaped(id, l, w), l.t.fds.pid;
    HeldPidIsOpen(l);
    WaitSane(l.os, pid);
    ReapedBalance(id, l, w);
    hide Held, LocalHeld, SlotHeld, Backed, Balanced, Sane, Wait;
  }

  lemma ReapedBalance(id: nat, l: Local, w: WaitResult)
    requires LocalInv(id, l) && (l.t.state.FAILING? || l.t.state.ABORTING?) && (w.Exited? || w.NoChild?)
    ensures Balanced(l, Reaped(id, l, w)) && Backed(Reaped(id, l, w))
  {
    HeldPidIsOpen(l);
    WaitSane(l.os, l.t.fds.pid);
    NoneHeld();
    ClosePidBalance(l);
    var c := ClosePid(l);
    var m := Reaped(id, l, w);
    ReleaseHeld(id, c);
    assert m.t.fds == c.t.fds && m.os.open == c.os.open;
    assert SlotHeld(m) == SlotHeld(c);
    SameHeld(c, m);
  }

  /** A wait that learns nothing, or fails, changes nothing. */
  lemma ObserveNothing(l: Local, w: WaitResult)
    requires Sane(l.os) && Backed(l) && l.t.fds.pid >= 0 && FdsOk(l.os, l.t.fds, l.t.signalled)
    requires !w.Exited? && !w.NoChild?
    ensures Observe(l, w) == (if w.WaitError? then -2 else 0, l)
  {
    HeldPidIsOpen(l);
    hide Held, SlotHeld, LocalHeld;
  }

  ghost function Finished(id: nat, l: Local, w: WaitResult): Local {
    var m := Reaped(id, l, w);
    var step := if w.NoChild? then LOST_WAIT else if l.t.state == ABORTING then ABORTED else FAILED;
    var failure := if w.NoChild? then WAIT_LOST else if l.t.state == ABORTING then CANCELLED else l.t.failure;
    m.(t := m.t.(step := step, failure := failure))
  }

  lemma FinishedIs(id: nat, l: Local, w: WaitResult)
    requires LocalInv(id, l) && (l.t.state.FAILING? || l.t.state.ABORTING?) && (w.Exited? || w.NoChild?)
    ensures var m, pid := Finished(id, l, w), l.t.fds.pid;
            && m.os == l.os.(unreaped := l.os.unreaped - {pid}, open := l.os.open - {pid}) && Sane(m.os)
            && m.t ==
                 l.t.(fds := NO_FDS, state := if w.Exited? then REAPED else LOST, slot := 0, step := m.t.step,
                      failure := m.t.failure, status := m.t.status)
            && m.t.step == (if w.NoChild? then LOST_WAIT else if l.t.state == ABORTING then ABORTED else FAILED)
            && (w.NoChild? ==> m.t.failure == WAIT_LOST) && (m.t.step == ABORTED ==> m.t.failure == CANCELLED)
            && (m.t.step == FAILED ==> m.t.failure == l.t.failure)
            && m.slot == (if l.t.slot == 0 then l.slot else l.slot.(owner := None, inputs := None, phase := Free))
            && m.unrooted && !m.broken
            && Balanced(l, m) && Backed(m)
  {
    ReapedIs(id, l, w);
    var r, m := Reaped(id, l, w), Finished(id, l, w);
    assert SlotHeld(m) == SlotHeld(r);
    hide Reaped, Held, SlotHeld, LocalInv;
    SameHeld(r, m);
  }

  lemma FinishedShape(l: Local, m: Local)
    requires TicketShape(l.t) && (l.t.state.FAILING? || l.t.state.ABORTING?) && Sane(l.os)
    requires m.t == l.t.(fds := NO_FDS, state := m.t.state, slot := 0, step := m.t.step, failure := m.t.failure,
                         status := m.t.status)
    requires m.t.state.REAPED? || m.t.state.LOST?
    requires m.t.step.FAILED? || (m.t.step.ABORTED? && l.t.state == ABORTING) || m.t.step.LOST_WAIT?
    requires (m.t.step == LOST_WAIT ==> m.t.failure == WAIT_LOST) && (m.t.step == ABORTED ==> m.t.failure == CANCELLED)
    requires m.os.unreaped <= l.os.unreaped
    ensures TicketShape(m.t) && FdsOk(m.os, m.t.fds, m.t.signalled)
  {}

  lemma FinishedInv(id: nat, l: Local, w: WaitResult)
    requires LocalInv(id, l) && (l.t.state.FAILING? || l.t.state.ABORTING?) && (w.Exited? || w.NoChild?)
    ensures LocalInv(id, Finished(id, l, w))
  {
    FinishedIs(id, l, w);
    FinishedShape(l, Finished(id, l, w));
    hide Finished, Held, SlotHeld, LocalHeld, Backed, Balanced, Sane, Reaped, Moves, TicketShape, FdsOk;
  }

  lemma FinishedMoves(id: nat, l: Local, w: WaitResult)
    requires LocalInv(id, l) && (l.t.state.FAILING? || l.t.state.ABORTING?) && (w.Exited? || w.NoChild?)
    ensures Moves(l, Finished(id, l, w))
  {
    FinishedIs(id, l, w);
    var m := Finished(id, l, w);
    FinishedFrom(id, l);
    hide LocalInv, Finished, Backed, Balanced, Sane, KernelMoves, SlotMoves, TicketMoves;
    GoneKernel(l, m);
    GoneSlot(l, m);
    GoneTicket(l, m);
  }

  lemma FinishedFrom(id: nat, l: Local)
    requires LocalInv(id, l) && (l.t.state.FAILING? || l.t.state.ABORTING?)
    ensures l.t.step == PENDING && l.t.fds.pid >= 0
            && (l.t.slot != 0 ==> l.slot.phase == Done && l.slot.native.fds == NO_FDS)
  {
    hide FdsOk, Backed, Sane, NativeDone;
  }

  lemma GoneKernel(l: Local, m: Local)
    requires l.t.fds.pid >= 0 && m.t.fds == NO_FDS && m.t.slot == 0
    requires m.os == l.os.(unreaped := l.os.unreaped - {l.t.fds.pid}, open := m.os.open)
    ensures KernelMoves(l, m)
  {}

  lemma GoneSlot(l: Local, m: Local)
    requires m.slot == (if l.t.slot == 0 then l.slot else l.slot.(owner := None, inputs := None, phase := Free))
             && m.t.slot == 0
    requires l.t.slot != 0 ==> l.slot.phase == Done && l.slot.native.fds == NO_FDS
    ensures SlotMoves(l, m)
  {}

  lemma GoneTicket(l: Local, m: Local)
    requires m.t == l.t.(fds := NO_FDS, state := m.t.state, slot := 0, step := m.t.step, failure := m.t.failure,
                         status := m.t.status)
    requires l.t.step == PENDING && m.t.step != PENDING && m.t.step != OWNED && m.unrooted
    ensures TicketMoves(l, m)
  {}

  /** The call's effect in three cases, told apart by what the wait learnt. */
  lemma KillAndReapIs(id: nat, l: Local, a: Answers)
    ensures var (sent, l1) := SendKill(l, a.kill);
            var (r, m) := KillAndReap(id, l, a);
            && (a.wait.Exited? || a.wait.NoChild? ==> m == Finished(id, l1, a.wait) && r == m.t.step)
            && (!a.wait.Exited? && !a.wait.NoChild? ==>
                  m == Observe(l1, a.wait).1 && r == if a.wait.WaitError? || !sent then ERROR else PENDING)
  {
    assert SendKill(l, a.kill).1.t.state == l.t.state;
    hide Release, CloseStreams, CloseErr, Wait, Kill, ClosePid;
  }

  /** A child not signalled yet is sent SIGKILL, whatever the wait then says: LOST_WAIT exactly when it finds no child,
      ABORTED or FAILED exactly when the child was reaped, and otherwise pending unless the wait, or the kill,
      failed. */
  lemma KillAndReapKeeps(id: nat, l: Local, a: Answers)
    requires LocalInv(id, l) && (l.t.state.FAILING? || l.t.state.ABORTING?)
    ensures var (r, m) := KillAndReap(id, l, a);
            && LocalInv(id, m) && Moves(l, m)
            && m.os.killed == l.os.killed + (if !l.t.signalled && a.kill.Delivered? then {l.t.fds.pid} else {})
            && m.os.absent == l.os.absent + (if !l.t.signalled && a.kill.NoProcess? then {l.t.fds.pid} else {})
            && m.t.signalled == (l.t.signalled || !a.kill.KillError?)
            && r == (match a.wait
                     case NoChild => LOST_WAIT
                     case Exited(_, _) => if l.t.state == ABORTING then ABORTED else FAILED
                     case WaitError(_) => ERROR
                     case _ => if l.t.signalled || !a.kill.KillError? then PENDING else ERROR)
            && m.t.step == (if r == ERROR then PENDING else r)
            && (m.t.step == PENDING ==> m.t.fds == l.t.fds && m.t.state == l.t.state)
            && (a.wait.NoChild? ==> m.t.state == LOST) && (a.wait.Exited? ==> m.t.state == REAPED)
            && m.t.failure == (match a.wait
                               case NoChild => Failure(5, 10)
                               case Exited(_, _) => if l.t.state == ABORTING then Failure(12, 0) else l.t.failure
                               case _ => l.t.failure)
  {
    SendKillKeeps(id, l, a.kill);
    KillAndReapIs(id, l, a);
    var l1 := SendKill(l, a.kill).1;
    assert TicketShape(l.t) && TicketShape(l1.t) by { hide Moves; }
    hide KillAndReap, SendKill, Observe, Finished, LocalInv, Moves;
    if a.wait.Exited? || a.wait.NoChild? {
      ReapKeeps(id, l, l1, a.wait);
    } else {
      WaitNothing(id, l1, a.wait);
    }
  }

  lemma ReapKeeps(id: nat, l: Local, l1: Local, w: WaitResult)
    requires LocalInv(id, l1) && Moves(l, l1) && (l1.t.state.FAILING? || l1.t.state.ABORTING?)
             && (w.Exited? || w.NoChild?)
    ensures var m := Finished(id, l1, w);
            && LocalInv(id, m) && Moves(l, m)
            && m.os.killed == l1.os.killed && m.os.absent == l1.os.absent && m.t.signalled == l1.t.signalled
            && m.t.step == (if w.NoChild? then LOST_WAIT else if l1.t.state == ABORTING then ABORTED else FAILED)
            && m.t.state == (if w.NoChild? then LOST else REAPED)
            && m.t.failure == (if w.NoChild? then WAIT_LOST
                               else if l1.t.state == ABORTING then CANCELLED else l1.t.failure)
  {
    FinishedIs(id, l1, w);
    hide Finished, LocalInv, Moves, Balanced, Backed, Sane;
    FinishedInv(id, l1, w);
    FinishedMoves(id, l1, w);
    MovesTransitive(l, l1, Finished(id, l1, w));
  }

  lemma WaitNothing(id: nat, l: Local, w: WaitResult)
    requires LocalInv(id, l) && (l.t.state.FAILING? || l.t.state.ABORTING?) && !w.Exited? && !w.NoChild?
    ensures Observe(l, w).1 == l
  {
    hide Backed, Sane, FdsOk;
    ObserveNothing(l, w);
  }

  // ----- The public operations

  /** A call's answer is the ticket's verdict, PENDING while there is none; ERROR leaves the verdict open, or comes from
      a disposed process. */
  ghost predicate Answered(r: LaunchStep, t: Ticket) {
    if r == ERROR then t.step == PENDING || (t.step == OWNED && t.state == DISPOSED) else r == t.step
  }

  /** `process_check_start`, in any state: no `abort()`, no "invalid launch state", and the answer is the verdict. */
  lemma CheckStartKeeps(id: nat, l: Local, a: Answers)
    requires LocalInv(id, l) && ReadFits(l.t, a.read)
    ensures var (r, m) := CheckStart(id, l, a);
            && LocalInv(id, m) && Moves(l, m) && Answered(r, m.t)
            && (l.t.state == ABORTING ==> r != FAILED)
            && (r == OWNED && l.t.step == PENDING ==> a.read.ReadEof? && !l.t.stopRequested)
  {
    AdoptKeeps(id, l);
    var (adopted, l1) := Adopt(id, l);
    if adopted && l1.t.step == PENDING {
      assert l.t.state != SUBMITTED ==> l1 == l;
      CheckPending(id, l1, a);
      CheckAfterAdopt(id, l, a);
      hide Adopt, CheckStart, LocalInv, Moves;
      MovesTransitive(l, l1, CheckStart(id, l1, a).1);
    } else {
      CheckNothing(id, l, a);
      assert l.t.state == ABORTING ==> l1 == l && adopted;
      assert TicketShape(l.t) && TicketShape(l1.t);
      hide Adopt, CheckStart, LocalInv, Moves;
    }
  }

  lemma CheckNothing(id: nat, l: Local, a: Answers)
    requires var (ok, m) := Adopt(id, l); ok ==> m.t.step != PENDING
    ensures var (ok, m) := Adopt(id, l);
            CheckStart(id, l, a) ==
              (if !ok then PENDING else if m.t.step == OWNED && m.t.state == DISPOSED then ERROR else m.t.step, m)
  {
    hide Adopt, Handshake, KillAndReap;
  }

  lemma CheckAfterAdopt(id: nat, l: Local, a: Answers)
    requires var (ok, m) := Adopt(id, l); ok && m.t.state != SUBMITTED
    ensures CheckStart(id, l, a) == CheckStart(id, Adopt(id, l).1, a)
  {
    assert Adopt(id, Adopt(id, l).1) == (true, Adopt(id, l).1);
    hide Adopt, Handshake, KillAndReap;
  }

  /** A check of an adopted ticket that is still pending. */
  lemma CheckPending(id: nat, l: Local, a: Answers)
    requires LocalInv(id, l) && l.t.state != SUBMITTED && l.t.step == PENDING && ReadFits(l.t, a.read)
    ensures var (r, m) := CheckStart(id, l, a);
            && LocalInv(id, m) && Moves(l, m) && Answered(r, m.t)
            && (l.t.state == ABORTING ==> r != FAILED)
            && (r == OWNED ==> a.read.ReadEof? && !l.t.stopRequested)
  {
    CheckIs(id, l, a);
    assert TicketShape(l.t);
    if l.t.state == LAUNCHING {
      HandshakeKeeps(id, l, a.read);
      var (d, l2) := Handshake(id, l, a.read);
      if d.None? {
        KillAndReapKeeps(id, l2, a);
        hide CheckStart, Handshake, KillAndReap, LocalInv, Moves;
        MovesTransitive(l, l2, KillAndReap(id, l2, a).1);
      }
    } else {
      KillAndReapKeeps(id, l, a);
    }
    hide CheckStart, Handshake, KillAndReap, LocalInv, Moves;
  }

  /** The branches of a check of an adopted, pending ticket. */
  lemma CheckIs(id: nat, l: Local, a: Answers)
    requires l.t.step == PENDING && (l.t.state.LAUNCHING? || l.t.state.FAILING? || l.t.state.ABORTING?)
    ensures var (d, h) := Handshake(id, l, a.read);
            CheckStart(id, l, a) == (
              if l.t.state != LAUNCHING then KillAndReap(id, l, a)
              else if d.Some? then (d.value, h)
              else if h.t.state == FAILING || h.t.state == ABORTING then KillAndReap(id, h, a)
              else (ERROR, h.(broken := true)))
  {
    assert Adopt(id, l) == (true, l);
    hide Adopt, Handshake, KillAndReap;
  }

  /** Asking the worker to stop. */
  lemma RequestStopKeeps(id: nat, l: Local)
    requires LocalInv(id, l) && (l.t.state == SUBMITTED || l.t.step != PENDING || l.t.state == ABORTING)
    ensures LocalInv(id, RequestStop(l)) && Moves(l, RequestStop(l))
    ensures l.t.step == PENDING ==> RequestStop(l).t.cancelled
    ensures l.t.step != PENDING ==> RequestStop(l) == l
    ensures l.t.state == SUBMITTED ==> RequestStop(l).t.stopRequested && RequestStop(l).slot.stop
  {
    RequestStopInv(id, l);
    RequestStopMoves(l);
    hide LocalInv, Moves;
  }

  lemma RequestStopIs(l: Local)
    ensures LocalHeld(RequestStop(l)) == LocalHeld(l) && OwnChildren(RequestStop(l)) == OwnChildren(l)
  {
    hide Held;
  }

  lemma RequestStopInv(id: nat, l: Local)
    requires LocalInv(id, l) && (l.t.state == SUBMITTED || l.t.step != PENDING || l.t.state == ABORTING)
    ensures LocalInv(id, RequestStop(l))
  {
    RequestStopIs(l);
    hide Held, LocalHeld, Sane, FdsOk;
  }

  lemma RequestStopMoves(l: Local)
    requires TicketShape(l.t)
    ensures Moves(l, RequestStop(l))
  {
    RequestStopIs(l);
    hide LocalHeld, OwnChildren;
  }

  /** An abort of a ticket the worker is done with, in one step. */
  lemma AbortKeeps(id: nat, l: Local, a: Answers)
    requires LocalInv(id, l) && l.t.state != SUBMITTED && ReadFits(l.t, a.read)
    ensures var (r, m) := FinishAbort(id, RequestStop(l), a);
            && LocalInv(id, m) && Moves(l, m)
            && (l.t.step == OWNED ==> r == ERROR && m == l)
            && (l.t.step == PENDING ==> m.t.cancelled && Answered(r, m.t) && r != FAILED)
            && (l.t.step != OWNED && l.t.step != PENDING ==> r == l.t.step && m == l)
  {
    var f := RequestStop(l);
    if l.t.state == LAUNCHING || l.t.state == FAILING {
      DropKeeps(id, l, ABORTING, l.t.recordLen, l.t.failure);
      var d := Dropped(l, ABORTING, l.t.recordLen, l.t.failure);
      assert d == CloseStreams(CloseErr(f.(t := f.t.(state := ABORTING)))) by { hide LocalInv, Moves, Close; }
      AbortingCheck(id, l, d, a);
    } else {
      RequestStopKeeps(id, l);
      if l.t.step == PENDING { AbortingCheck(id, l, f, a); }
    }
    hide LocalInv, Moves, CloseStreams, CloseErr, Dropped, KillAndReap;
  }

  lemma AbortingCheck(id: nat, l: Local, d: Local, a: Answers)
    requires LocalInv(id, d) && Moves(l, d) && d.t.state == ABORTING && d.t.cancelled && ReadFits(d.t, a.read)
    ensures var (r, m) := CheckStart(id, d, a);
            LocalInv(id, m) && Moves(l, m) && m.t.cancelled && Answered(r, m.t) && r != FAILED
  {
    CheckStartKeeps(id, d, a);
    var m := CheckStart(id, d, a).1;
    MovesTransitive(l, d, m);
    assert m.t.cancelled;
    hide CheckStart, LocalInv, Moves;
  }

  /** The end of the abort of a SUBMITTED ticket, after whatever the worker did meanwhile. */
  lemma FinishAbortKeeps(id: nat, l: Local, a: Answers)
    requires LocalInv(id, l) && l.t.state == SUBMITTED && l.t.stopRequested && ReadFits(l.t, a.read)
    ensures var (r, m) := FinishAbort(id, l, a);
            LocalInv(id, m) && Moves(l, m) && m.t.cancelled && Answered(r, m.t)
  {
    AdoptKeeps(id, l);
    var l1 := Adopt(id, l).1;
    assert l1.t.cancelled;
    if l1.t.state != SUBMITTED {
      assert l1.t.state != LAUNCHING && l1.t.state != FAILING by { hide Held, Close, Sane, Backed, Balanced; }
      CheckStartKeeps(id, l1, a);
      hide CheckStart, Adopt, Moves;
      MovesTransitive(l, l1, CheckStart(id, l1, a).1);
      assert CheckStart(id, l1, a).1.t.cancelled by { assert Moves(l1, CheckStart(id, l1, a).1); }
    }
  }

  /** Before the worker hands over, neither a check nor an abort reads what it is writing: whatever the launch data
      holds, the answer and everything else come out the same. */
  lemma ReadsOnlyWhenDone(id: nat, l: Local, n: Native, a: Answers)
    requires l.t.state == SUBMITTED && l.slot.phase != Done
    ensures var k := l.(slot := l.slot.(native := n));
            && CheckStart(id, k, a).0 == CheckStart(id, l, a).0 && FinishAbort(id, k, a).0 == FinishAbort(id, l, a).0
            && CheckStart(id, k, a).1 == WithNative(CheckStart(id, l, a).1, n)
            && FinishAbort(id, k, a).1 == WithNative(FinishAbort(id, l, a).1, n)
            && RequestStop(k) == WithNative(RequestStop(l), n)
  {
    hide Handshake, KillAndReap;
  }

  ghost function WithNative(l: Local, n: Native): Local {
    l.(slot := l.slot.(native := n))
  }

  // ----- The owned process

  /** An owned ticket that lets go of descriptors, and of its child only together with the pidfd. */
  ghost predicate LetsGo(l: Local, m: Local) {
    && m.t == l.t.(fds := m.t.fds, state := m.t.state, status := m.t.status) && m.slot == l.slot && m.broken == l.broken
    && (m.t.fds.pid == l.t.fds.pid || m.t.fds.pid == -1) && (m.t.fds.err == l.t.fds.err || m.t.fds.err == -1)
    && (m.t.fds.s0 == l.t.fds.s0 || m.t.fds.s0 == -1)
    && (m.t.fds.s1 == l.t.fds.s1 || m.t.fds.s1 == -1) && (m.t.fds.s2 == l.t.fds.s2 || m.t.fds.s2 == -1)
    && m.os.next == l.os.next && m.os.killed == l.os.killed && m.os.absent == l.os.absent
       && m.os.unreaped <= l.os.unreaped
    && (m.t.fds.pid >= 0 ==> m.os.unreaped == l.os.unreaped)
    && (m.t.state == l.t.state || l.t.state == RUNNING || m.t.state == DISPOSED)
    && (m.t.state == RUNNING ==> m.t.fds.pid == l.t.fds.pid)
    && ((m.t.state.REAPED? || m.t.state.LOST?) ==> m.t.fds.pid == -1)
    && (m.t.state == DISPOSED ==> m.t.fds == NO_FDS)
    && (m.t.state.RUNNING? || m.t.state.REAPED? || m.t.state.LOST? || m.t.state.DISPOSED?)
  }

  lemma LetsGoKeeps(id: nat, l: Local, m: Local)
    requires LocalInv(id, l) && l.t.step == OWNED && LetsGo(l, m) && Sane(m.os) && Backed(m)
    ensures LocalInv(id, m)
  {
    assert -1 !in l.os.unreaped;
    LetsGoShape(l, m);
    LetsGoFds(l, m);
    hide TicketShape, FdsOk, Backed, Sane;
  }

  lemma LetsGoShape(l: Local, m: Local)
    requires TicketShape(l.t) && l.t.step == OWNED && LetsGo(l, m)
    ensures TicketShape(m.t) && m.t.slot == 0
  {}

  lemma LetsGoFds(l: Local, m: Local)
    requires FdsOk(l.os, l.t.fds, l.t.signalled) && LetsGo(l, m) && -1 !in l.os.unreaped
    ensures FdsOk(m.os, m.t.fds, m.t.signalled)
  {}

  function WaitStatus(l: Local, w: WaitResult): Status {
    if w.Exited? then StatusOf(w.ending, w.value) else l.t.status
  }

  lemma ObserveRunningIs(l: Local, w: WaitResult)
    requires Sane(l.os) && Backed(l) && l.t.fds.pid >= 0 && FdsOk(l.os, l.t.fds, l.t.signalled)
    requires l.t.slot == 0 && (w.Exited? || w.NoChild?)
    ensures var (r, m) := Observe(l, w);
            && r == (if w.Exited? then 1 else -1)
            && m == l.(os := m.os, t := l.t.(fds := l.t.fds.(pid := -1), state := if w.Exited? then REAPED else LOST,
                                             status := WaitStatus(l, w)))
            && m.os == l.os.(unreaped := l.os.unreaped - {l.t.fds.pid}, open := l.os.open - {l.t.fds.pid}) && Sane(m.os)
            && Balanced(l, m) && Backed(m)
  {
    HeldPidIsOpen(l);
    WaitSane(l.os, l.t.fds.pid);
    ClosePidBalance(l);
    var c, m := ClosePid(l), Observe(l, w).1;
    hide Sane, Held, FdsOk, One;
    assert m.os.open == c.os.open && m.t.fds == c.t.fds && SlotHeld(m) == SlotHeld(c);
    SameHeld(c, m);
  }

  /** Reaping or losing the process of a running ticket. */
  lemma ObserveRunning(id: nat, l: Local, w: WaitResult)
    requires LocalInv(id, l) && l.t.state == RUNNING
    ensures var (r, m) := Observe(l, w);
            && LocalInv(id, m) && Moves(l, m) && m.t.step == l.t.step
            && (r == 1 <==> m.t.state == REAPED) && (r == -1 <==> m.t.state == LOST)
            && (r == 1 <==> w.Exited?) && (r == -1 <==> w.NoChild?) && (r == -2 <==> w.WaitError?)
            && m.t.status == WaitStatus(l, w)
               && (r == 0 || r == -2 ==> m == l) && -2 <= r <= 1
  {
    RunningFacts(id, l);
    hide LocalInv, Moves, Observe, TicketShape, Sane, Backed, FdsOk, Balanced, LetsGo;
    if w.Exited? || w.NoChild? {
      ObserveRunningIs(l, w);
      var m := Observe(l, w).1;
      ObserveRunningMoves(l, m);
      RunningLetsGo(l, m);
      LetsGoKeeps(id, l, m);
    } else {
      ObserveNothing(l, w);
      MovesNothing(l);
    }
  }

  lemma RunningFacts(id: nat, l: Local)
    requires LocalInv(id, l) && l.t.state == RUNNING
    ensures TicketShape(l.t) && Sane(l.os) && Backed(l) && FdsOk(l.os, l.t.fds, l.t.signalled)
    ensures l.t.step == OWNED && l.t.slot == 0 && l.t.fds.pid >= 0
  {
    hide Sane, Backed, FdsOk, NativeDone;
  }

  lemma RunningLetsGo(l: Local, m: Local)
    requires TicketShape(l.t) && l.t.state == RUNNING
    requires m == l.(os := m.os, t := l.t.(fds := l.t.fds.(pid := -1), state := m.t.state, status := m.t.status))
             && (m.t.state.REAPED? || m.t.state.LOST?)
    requires m.os == l.os.(unreaped := l.os.unreaped - {l.t.fds.pid}, open := l.os.open - {l.t.fds.pid})
    ensures LetsGo(l, m)
  {}

  lemma MovesNothing(l: Local)
    ensures Moves(l, l)
  {
    hide LocalHeld, OwnChildren;
  }

  lemma ObserveRunningMoves(l: Local, m: Local)
    requires TicketShape(l.t) && l.t.state == RUNNING && l.t.slot == 0 && Balanced(l, m)
    requires m == l.(os := m.os, t := l.t.(fds := l.t.fds.(pid := -1), state := m.t.state, status := m.t.status))
             && (m.t.state.REAPED? || m.t.state.LOST?)
    requires m.os == l.os.(unreaped := l.os.unreaped - {l.t.fds.pid}, open := l.os.open - {l.t.fds.pid})
    ensures Moves(l, m)
  {
    hide Balanced;
  }

  /** A poll is refused before ownership and after disposal, reports what keeps it from waiting, has nothing to say
      while the process runs, and once it was reaped gives the status the wait learnt. */
  lemma PollExitKeeps(id: nat, l: Local, w: WaitResult)
    requires LocalInv(id, l)
    ensures var (o, m) := PollExit(l, w);
            && LocalInv(id, m) && Moves(l, m)
            && (l.t.state != RUNNING ==> m == l)
            && (o == Refused(Failure(0, 0)) <==> l.t.step != OWNED)
            && (o == Refused(Failure(8, 0)) <==> l.t.step == OWNED && l.t.state == DISPOSED)
            && (o.ExitStatus? <==> m.t.step == OWNED && m.t.state == REAPED)
            && (o.ExitStatus? ==> o.status == m.t.status)
            && (l.t.state == RUNNING ==> (o.ExitStatus? <==> w.Exited?))
            && (l.t.state == RUNNING && w.Exited? ==>
                  o == ExitStatus(Status(if w.ending == ByExit then 0 else 1, w.value, w.ending == ByDump)))
            && (o == Nothing <==> l.t.state == RUNNING && (w.Interrupted? || w.StillRunning?))
            && (o == Nothing ==> m == l)
            && (l.t.state == LOST && l.t.step == OWNED ==> o == Refused(Failure(5, 10)))
            && (l.t.state == RUNNING && w.NoChild? ==> o == Refused(Failure(5, 10)) && m.t.state == LOST)
            && (l.t.state == RUNNING && w.WaitError? ==> o == Refused(Failure(5, w.errno)) && m == l)
            && o != Fine
  {
    PollExitSafe(id, l, w);
    PollExitAnswers(id, l, w);
    hide LocalInv, Moves, PollExit;
  }

  lemma PollExitSafe(id: nat, l: Local, w: WaitResult)
    requires LocalInv(id, l)
    ensures LocalInv(id, PollExit(l, w).1) && Moves(l, PollExit(l, w).1)
  {
    assert TicketShape(l.t);
    PollExitIs(l, w);
    hide LocalInv, Moves, Observe, PollExit;
    MovesNothing(l);
    if l.t.state == RUNNING { ObserveRunning(id, l, w); }
  }

  lemma PollExitAnswers(id: nat, l: Local, w: WaitResult)
    requires LocalInv(id, l)
    ensures var (o, m) := PollExit(l, w);
            if l.t.step != OWNED then o == NOT_OWNED && m == l && l.t.state != RUNNING
            else if l.t.state != RUNNING then
              && m == l && (l.t.state.REAPED? || l.t.state.LOST? || l.t.state.DISPOSED?)
              && o == (if l.t.state == DISPOSED then CLOSED else if l.t.state == LOST then Refused(WAIT_LOST)
                       else ExitStatus(l.t.status))
            else
              && m.t.step == OWNED
              && m.t.state == (if w.Exited? then REAPED else if w.NoChild? then LOST else RUNNING)
              && (m.t.state == RUNNING ==> m == l) && m.t.status == WaitStatus(l, w)
              && o == match w
                      case Exited(_, _) => ExitStatus(m.t.status)
                      case NoChild => Refused(WAIT_LOST)
                      case WaitError(e) => Refused(Failure(5, e))
                      case Interrupted => Nothing
                      case StillRunning => Nothing
  {
    assert TicketShape(l.t);
    PollExitIs(l, w);
    hide LocalInv, Moves, Observe, PollExit;
    if l.t.state == RUNNING { ObserveRunning(id, l, w); }
  }

  lemma PollExitIs(l: Local, w: WaitResult)
    ensures var (r, n) := Observe(l, w);
            PollExit(l, w) == (
              if l.t.step != OWNED then (NOT_OWNED, l)
              else if l.t.state == DISPOSED then (CLOSED, l)
              else if l.t.state == LOST then (Refused(WAIT_LOST), l)
              else if l.t.state != RUNNING then (ExitStatus(l.t.status), l)
              else if r < 0 then (Refused(WaitFailure(w)), n)
              else if n.t.state == LOST then (Refused(WAIT_LOST), n)
              else if n.t.state == RUNNING then (Nothing, n)
              else (ExitStatus(n.t.status), n))
  {
    hide Observe;
  }

  /** Closing what an owned ticket still holds, once. */
  lemma CloseStdinKeeps(id: nat, l: Local, errno: int)
    requires LocalInv(id, l)
    ensures var (o, m) := CloseStdin(l, errno);
            && LocalInv(id, m) && Moves(l, m)
            && (l.t.step != OWNED ==> o == Refused(Failure(0, 0)) && m == l)
            && (l.t.step == OWNED && l.t.state == DISPOSED ==> o == Refused(Failure(8, 0)) && m == l)
            && (l.t.step == OWNED && l.t.state != DISPOSED ==>
                  && m.t.fds.s0 == -1 && l.t.fds.s0 !in m.os.open
                  && m.t.fds == l.t.fds.(s0 := -1) && m.os == l.os.(open := l.os.open - {l.t.fds.s0})
                  && o == (if l.t.fds.s0 >= 0 && errno != 0 then Refused(Failure(6, errno)) else Fine))
  {
    if l.t.step == OWNED && l.t.state != DISPOSED {
      CloseStdinIs(l, errno);
      var m := CloseStdin(l, errno).1;
      SaneClosing(l.os, m.os.open, l.t.fds);
      assert LetsGo(l, m) by { assert TicketShape(l.t); hide CloseStdin, Moves, LocalInv, Sane, Backed, Balanced; }
      LetsGoKeeps(id, l, m);
      hide CloseStdin, LocalHeld, Balanced, LocalInv;
    } else {
      MovesNothing(l);
      hide LocalInv, Moves;
    }
  }

  lemma CloseStdinIs(l: Local, errno: int)
    requires Backed(l) && Sane(l.os) && l.t.slot == 0 && l.t.step == OWNED && l.t.state != DISPOSED
    ensures var (o, m) := CloseStdin(l, errno);
            && o == CloseOutcome(CloseError(l.t.fds.s0, errno))
            && m == l.(os := m.os, t := l.t.(fds := l.t.fds.(s0 := -1)))
            && m.os == l.os.(open := m.os.open)
            && m.os.open == l.os.open - {l.t.fds.s0}
            && Balanced(l, m) && Backed(m)
  {
    var f := l.t.fds;
    NoneHeld();
    assert f.s0 < 0 ==> f.s0 !in l.os.open;
    hide Sane;
    CloseHeld(l.os, f.s0, One(f.pid) + One(f.err) + One(f.s1) + One(f.s2));
    hide One;
  }

  lemma CloseStreamsIs(l: Local)
    requires Backed(l) && !l.os.fault
    ensures var m := CloseStreams(l);
            && m == l.(os := m.os, t := l.t.(fds := Fds(l.t.fds.pid, l.t.fds.err, -1, -1, -1)))
            && m.os == l.os.(open := m.os.open)
            && m.os.open <= l.os.open <= m.os.open + {l.t.fds.err, l.t.fds.s0, l.t.fds.s1, l.t.fds.s2}
            && Balanced(l, m) && Backed(m)
  {
    var f, other := l.t.fds, One(l.t.fds.pid) + One(l.t.fds.err) + SlotHeld(l);
    NoneHeld();
    hide One, SlotHeld;
    CloseHeld(l.os, f.s0, One(f.s1) + One(f.s2) + other);
    var o1 := Close(l.os, f.s0);
    CloseHeld(o1, f.s1, One(f.s2) + other);
    CloseHeld(Close(o1, f.s1), f.s2, other);
    var m := CloseStreams(l);
    SameSlotHeld(l, m);
    assert LocalHeld(m) == other;
  }

  lemma DisposeIs(l: Local, es: Errnos)
    requires TicketShape(l.t) && Backed(l) && Sane(l.os) && FdsOk(l.os, l.t.fds, l.t.signalled)
    requires l.t.step == OWNED && (l.t.state.REAPED? || l.t.state.LOST?)
    ensures var (o, m) := Dispose(l, es);
            && o == (if l.t.state == LOST then Refused(WAIT_LOST) else CloseOutcome(FirstError(l.t.fds, es)))
            && m == l.(os := m.os, t := l.t.(fds := NO_FDS, state := DISPOSED), unrooted := true)
            && m.os == l.os.(open := m.os.open) && Sane(m.os)
            && Balanced(l, m) && Backed(m)
  {
    CloseStreamsIs(l);
    var c, m := CloseStreams(l), Dispose(l, es).1;
    SaneClosing(l.os, c.os.open, l.t.fds);
    assert ClosePid(c) == c by { hide CloseStreams, Held, Sane, One; }
    hide CloseStreams, Sane, Held, One, FdsOk;
    SameSlotHeld(c, m);
    SameHeld(c, m);
  }

  lemma DisposedMoves(l: Local, m: Local)
    requires TicketShape(l.t) && l.t.step == OWNED && (l.t.state.REAPED? || l.t.state.LOST?) && Balanced(l, m)
    requires m == l.(os := m.os, t := l.t.(fds := NO_FDS, state := DISPOSED), unrooted := true)
    requires m.os == l.os.(open := m.os.open)
    ensures Moves(l, m)
  {
    hide Balanced;
  }

  lemma DisposeNothing(l: Local, es: Errnos)
    requires TicketShape(l.t) && (l.t.step != OWNED || l.t.state == DISPOSED || l.t.state == RUNNING)
    ensures Dispose(l, es) ==
              (if l.t.step != OWNED then NOT_OWNED else if l.t.state == DISPOSED then Fine else STILL_RUNNING, l)
    ensures l.t.state == DISPOSED ==> l.t.fds == NO_FDS
  {}

  /** Disposing an exited process closes all it still holds and takes it off the rooted list, whatever it then reports:
      a lost wait, or the first of its streams still held that fails to close.  Asking again changes nothing. */
  lemma DisposeKeeps(id: nat, l: Local, es: Errnos)
    requires LocalInv(id, l)
    ensures var (o, m) := Dispose(l, es);
            && LocalInv(id, m) && Moves(l, m)
            && (l.t.step != OWNED ==> o == Refused(Failure(0, 0)) && m == l)
            && (l.t.step == OWNED && l.t.state == RUNNING ==> o == Refused(Failure(9, 0)) && m == l)
            && (l.t.step == OWNED && l.t.state == DISPOSED ==> o == Fine && m == l)
            && (l.t.step == OWNED && (l.t.state == REAPED || l.t.state == LOST) ==>
                  m.t == l.t.(state := DISPOSED, fds := NO_FDS) && m.unrooted)
            && (l.t.step == OWNED && l.t.state == LOST ==> o == Refused(Failure(5, 10)))
            && (l.t.step == OWNED && l.t.state == REAPED ==>
                  var f := l.t.fds;
                  if f.s0 >= 0 && es.e0 != 0 then o == Refused(Failure(6, es.e0))
                  else if f.s1 >= 0 && es.e1 != 0 then o == Refused(Failure(6, es.e1))
                  else if f.s2 >= 0 && es.e2 != 0 then o == Refused(Failure(6, es.e2))
                  else o == Fine)
  {
    OwnedFacts(id, l);
    hide Dispose, Moves, LocalInv, LetsGo, Sane, Backed, Balanced, TicketShape, FdsOk;
    if l.t.step == OWNED && l.t.state != DISPOSED && l.t.state != RUNNING {
      DisposeIs(l, es);
      var m := Dispose(l, es).1;
      DisposedMoves(l, m);
      DisposedLetsGo(l, m);
      LetsGoKeeps(id, l, m);
    } else {
      DisposeNothing(l, es);
      MovesNothing(l);
    }
  }

  lemma OwnedFacts(id: nat, l: Local)
    requires LocalInv(id, l)
    ensures TicketShape(l.t) && Sane(l.os) && Backed(l) && FdsOk(l.os, l.t.fds, l.t.signalled)
    ensures l.t.step == OWNED ==>
              l.t.slot == 0 && (l.t.state.RUNNING? || l.t.state.REAPED? || l.t.state.LOST? || l.t.state.DISPOSED?)
    ensures l.t.state == DISPOSED ==> l.t.fds == NO_FDS && l.t.step == OWNED
    ensures l.t.step == PENDING ==> l.t.state != RUNNING && l.t.state != DISPOSED
  {
    hide Sane, Backed, FdsOk, NativeDone;
  }

  lemma DisposedLetsGo(l: Local, m: Local)
    requires m == l.(os := m.os, t := l.t.(fds := NO_FDS, state := DISPOSED), unrooted := true)
    requires m.os == l.os.(open := m.os.open)
    ensures LetsGo(l, m)
  {}
}
