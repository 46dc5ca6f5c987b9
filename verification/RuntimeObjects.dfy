/** The objects together: the submission slots, the tickets handed out, the rooted list threaded through them and the
    kernel, standing for a state of the protocol.  Each call made with the lock held is the protocol's step. */
module RuntimeObjects {
  import opened Wrappers
  import opened Launch
  import opened Protocol
  import opened ProcessObjects
  import Guarantees
  import WorkerObjects

  /** `tickets`: every ticket ever handed out. */
  class Runtime {
    const slots: array<Submission>
    const roots: RootList
    const sys: System
    var tickets: seq<Process>

    /** The objects of a state with as many slots and tickets, all distinct. */
    ghost predicate Shape(w: World)
      reads this, slots
    {
      && slots.Length == |w.slots| && |tickets| == |w.tickets|
      && (forall i, j :: 0 <= i < j < slots.Length ==> slots[i] != slots[j])
      && (forall a :: 0 <= a < |tickets| ==> tickets[a].id == a && tickets[a].streams.Length == 3)
      && (forall a, b :: 0 <= a < b < |tickets| ==> tickets[a].streams != tickets[b].streams)
    }

    /** Tickets, slots and kernel are as the state says. */
    ghost predicate Shows(w: World)
      reads this, slots, slots[..], sys, tickets, set p | p in tickets :: p.streams
      requires Shape(w)
    {
      && (forall a :: 0 <= a < |tickets| ==> tickets[a].View() == w.tickets[a])
      && (forall i :: 0 <= i < slots.Length ==> slots[i].View() == w.slots[i])
      && sys.os == w.os && sys.broken == w.broken
    }

    /** The list's nodes are the state's rooted tickets, in its order. */
    ghost predicate Names(nodes: seq<Process>, ids: seq<nat>)
      reads this
    {
      |nodes| == |ids| && forall k :: 0 <= k < |ids| ==> ids[k] < |tickets| && nodes[k] == tickets[ids[k]]
    }

    /** The links thread exactly these nodes: every other ticket has none. */
    ghost predicate Threads(nodes: seq<Process>)
      reads this, roots, nodes`next, nodes`previous, tickets`next, tickets`previous
    {
      && roots.nodes == nodes && roots.Valid()
      && forall t :: t in tickets && t !in nodes ==> t.next == null == t.previous
    }

    ghost predicate Represents(w: World)
      reads this, slots, slots[..], roots, sys, tickets, roots.nodes`next, roots.nodes`previous,
            set p | p in tickets :: p.streams
    {
      Shape(w) && Shows(w) && Names(roots.nodes, w.roots) && Threads(roots.nodes)
    }

    /** Nothing submitted yet. */
    constructor ()
      ensures Represents(INIT)
      ensures fresh(slots) && fresh(roots) && fresh(sys) && forall i :: 0 <= i < slots.Length ==> fresh(slots[i])
    {
      var made := MakeSlots();
      slots := made;
      roots := new RootList();
      sys := new System();
      tickets := [];
    }

    /** The slot a ticket holds, or a slot of its own for a ticket that holds none. */
    method SlotOf(p: Process) returns (q: Submission)
      requires p.slot <= slots.Length
      ensures if p.slot == 0 then fresh(q) && q.View() == EMPTY_SLOT else q == slots[p.slot - 1]
    {
      if p.slot != 0 { return slots[p.slot - 1]; }
      q := new Submission();
    }

    /** Ticket `id` and its slot are as `m` says, all else as `w` says. */
    ghost predicate Swapped(w: World, id: nat, m: Local)
      reads this, slots, slots[..], sys, tickets, set p | p in tickets :: p.streams
      requires Shape(w) && HasSlot(w, id)
    {
      && (forall a :: 0 <= a < |tickets| ==> tickets[a].View() == if a == id then m.t else w.tickets[a])
      && (forall i :: 0 <= i < slots.Length ==>
            slots[i].View() == if i + 1 == w.tickets[id].slot then m.slot else w.slots[i])
      && sys.os == m.os && sys.broken == m.broken
    }

    lemma Reassembled(w: World, id: nat, m: Local, nodes: seq<Process>)
      requires Shape(w) && HasSlot(w, id) && Swapped(w, id, m)
      requires Names(nodes, w.roots) && Threads(if m.unrooted then Without(nodes, tickets[id]) else nodes)
      ensures Represents(PutLocal(w, id, m))
    {
      hide RootList.Valid;
      var v := PutLocal(w, id, m);
      Woven(tickets, nodes, w.roots, id);
    }

    /** `q` is the slot of ticket `id`, or one of its own. */
    ghost predicate Holds(w: World, id: nat, q: Submission)
      reads this, slots, q
      requires Shape(w) && HasSlot(w, id)
    {
      var i := w.tickets[id].slot;
      if i == 0 then q.View() == EMPTY_SLOT && q !in slots[..] else q == slots[i - 1]
    }

    lemma HereIs(w: World, id: nat, q: Submission)
      requires Shape(w) && Shows(w) && id < |tickets| && HasSlot(w, id) && Holds(w, id, q)
      ensures tickets[id].Here(q, sys) == GetLocal(w, id) && tickets[id].id == id
    {}

    // ----- The calls on their own ticket: no other ticket or slot is touched

    method CheckAlone(id: nat, p: Process, q: Submission, a: Answers, ghost w: World) returns (r: LaunchStep)
      requires Shape(w) && Shows(w) && HasSlot(w, id) && Holds(w, id, q) && p == tickets[id] && p.Linked(roots)
      modifies p, p.streams, q, sys, roots, roots.Members()`next, roots.Members()`previous
      ensures Shape(w) && p.Linked(roots)
      ensures var (r0, m) := CheckStart(id, GetLocal(w, id), a);
              && r == r0 && Swapped(w, id, m)
              && roots.nodes == if m.unrooted then Without(old(roots.nodes), p) else old(roots.nodes)
    {
      hide RootList.Valid, Launch.CheckStart, Process.Linked, Process.View, Submission.View;
      HereIs(w, id, q);
      r := p.CheckStart(sys, q, roots, a);
    }

    method AbortEndAlone(id: nat, p: Process, q: Submission, a: Answers, ghost w: World) returns (r: LaunchStep)
      requires Shape(w) && Shows(w) && HasSlot(w, id) && Holds(w, id, q) && p == tickets[id] && p.Linked(roots)
      modifies p, p.streams, q, sys, roots, roots.Members()`next, roots.Members()`previous
      ensures Shape(w) && p.Linked(roots)
      ensures var (r0, m) := FinishAbort(id, GetLocal(w, id), a);
              && r == r0 && Swapped(w, id, m)
              && roots.nodes == if m.unrooted then Without(old(roots.nodes), p) else old(roots.nodes)
    {
      hide RootList.Valid, Launch.FinishAbort, Process.Linked, Process.View, Submission.View;
      HereIs(w, id, q);
      r := p.FinishAbort(sys, q, roots, a);
    }

    method PollExitAlone(id: nat, p: Process, q: Submission, wait: WaitResult, ghost w: World) returns (r: Outcome)
      requires Shape(w) && Shows(w) && HasSlot(w, id) && Holds(w, id, q) && p == tickets[id] && p.Linked(roots)
      modifies p, p.streams, q, sys, roots, roots.Members()`next, roots.Members()`previous
      ensures Shape(w) && p.Linked(roots)
      ensures var (r0, m) := Launch.PollExit(GetLocal(w, id), wait);
              && r == r0 && Swapped(w, id, m)
              && roots.nodes == if m.unrooted then Without(old(roots.nodes), p) else old(roots.nodes)
    {
      hide RootList.Valid, Launch.PollExit, Process.Linked, Process.View, Submission.View;
      HereIs(w, id, q);
      r := p.PollExit(sys, q, wait);
    }

    method CloseStdinAlone(id: nat, p: Process, q: Submission, errno: int, ghost w: World) returns (r: Outcome)
      requires Shape(w) && Shows(w) && HasSlot(w, id) && Holds(w, id, q) && p == tickets[id] && p.Linked(roots)
      modifies p, p.streams, q, sys, roots, roots.Members()`next, roots.Members()`previous
      ensures Shape(w) && p.Linked(roots)
      ensures var (r0, m) := Launch.CloseStdin(GetLocal(w, id), errno);
              && r == r0 && Swapped(w, id, m)
              && roots.nodes == if m.unrooted then Without(old(roots.nodes), p) else old(roots.nodes)
    {
      hide RootList.Valid, Launch.CloseStdin, Process.Linked, Process.View, Submission.View;
      HereIs(w, id, q);
      r := p.CloseStdin(sys, q, errno);
    }

    method DisposeAlone(id: nat, p: Process, q: Submission, es: Errnos, ghost w: World) returns (r: Outcome)
      requires Shape(w) && Shows(w) && HasSlot(w, id) && Holds(w, id, q) && p == tickets[id] && p.Linked(roots)
      modifies p, p.streams, q, sys, roots, roots.Members()`next, roots.Members()`previous
      ensures Shape(w) && p.Linked(roots)
      ensures var (r0, m) := Launch.Dispose(GetLocal(w, id), es);
              && r == r0 && Swapped(w, id, m)
              && roots.nodes == if m.unrooted then Without(old(roots.nodes), p) else old(roots.nodes)
    {
      hide RootList.Valid, Launch.Dispose, Process.Linked, Process.View, Submission.View;
      HereIs(w, id, q);
      r := p.Dispose(sys, q, roots, es);
    }

    method StopAlone(id: nat, p: Process, q: Submission, ghost w: World)
      requires Shape(w) && Shows(w) && HasSlot(w, id) && Holds(w, id, q) && p == tickets[id] && p.Linked(roots)
      modifies p`stopRequested, p`cancelled, q`stop
      ensures Shape(w) && Swapped(w, id, RequestStop(GetLocal(w, id))) && roots.nodes == old(roots.nodes)
              && p.Linked(roots)
    {
      hide RootList.Valid, Launch.RequestStop, Process.Linked, Process.View, Submission.View;
      HereIs(w, id, q);
      p.RequestStop(sys, q);
    }

    method AbortAlone(id: nat, p: Process, q: Submission, a: Answers, ghost w: World) returns (r: LaunchStep)
      requires Shape(w) && Shows(w) && HasSlot(w, id) && Holds(w, id, q) && p == tickets[id] && p.Linked(roots)
      modifies p, p.streams, q, sys, roots, roots.Members()`next, roots.Members()`previous
      ensures Shape(w) && p.Linked(roots)
      ensures var (r0, m) := FinishAbort(id, RequestStop(GetLocal(w, id)), a);
              && r == r0 && Swapped(w, id, m)
              && roots.nodes == if m.unrooted then Without(old(roots.nodes), p) else old(roots.nodes)
    {
      hide RootList.Valid, Launch.FinishAbort, Launch.RequestStop, Process.Linked, Process.View, Submission.View;
      HereIs(w, id, q);
      p.RequestStop(sys, q);
      r := p.FinishAbort(sys, q, roots, a);
    }

    /** Only the ticket itself may have left the list. */
    lemma Rethreaded(p: Process, nodes: seq<Process>, unrooted: bool)
      requires p.Linked(roots) && roots.nodes == if unrooted then Without(nodes, p) else nodes
      requires forall t :: t in tickets && t !in nodes && t != p ==> t.next == null == t.previous
      ensures Threads(if unrooted then Without(nodes, p) else nodes)
    {
      hide RootList.Valid;
      WithoutOther(nodes, p);
    }

    /** What a call on ticket `id` may rely on. */
    lemma Ready(w: World, id: nat)
      requires Represents(w) && HasSlot(w, id)
      ensures Shape(w) && Shows(w) && Names(roots.nodes, w.roots) && Threads(roots.nodes)
      ensures id < |tickets| && tickets[id].Linked(roots) && w.tickets[id].slot == tickets[id].slot
      ensures forall n :: n in roots.nodes ==> n in tickets
    {
      hide RootList.Valid;
    }

    /** In every reachable state the links thread exactly the tickets whose launch is pending or whose owned process is
        not disposed, each once. */
    lemma ListExact(es: seq<Event>, id: nat)
      requires Legal(INIT, es) && Represents(After(INIT, es)) && id < |tickets|
      ensures roots.Valid()
      ensures tickets[id] in roots.nodes <==>
                tickets[id].step == PENDING || (tickets[id].step == OWNED && tickets[id].state != DISPOSED)
      ensures tickets[id] !in roots.nodes ==> tickets[id].next == null == tickets[id].previous
    {
      hide RootList.Valid, Legal, After;
      var w := After(INIT, es);
      Guarantees.RootsExact(es, id);
      assert tickets[id].View() == w.tickets[id];
      assert forall k :: 0 <= k < |w.roots| ==>
               roots.nodes[k] == tickets[w.roots[k]] && tickets[w.roots[k]].id == w.roots[k];
    }

    // ----- The calls are the protocol's steps

    /** `process_check_start`. */
    method Check(id: nat, p: Process, a: Answers, ghost w: World) returns (r: LaunchStep)
      requires HasSlot(w, id) && Represents(w) && Enabled(w, Event.Check(id, a)) && id < |tickets| && p == tickets[id]
      modifies slots[..], roots, sys, tickets, set t | t in tickets :: t.streams
      ensures Represents(Apply(w, Event.Check(id, a))) && r == CheckStart(id, GetLocal(w, id), a).0
    {
      hide RootList.Valid, Represents, Shows, Process.View, Submission.View, PutLocal, GetLocal, Without, Names,
           Process.Linked, Apply, Enabled, Launch.CheckStart;
      ApplyCheck(w, id, a);
      Ready(w, id);
      var q := SlotOf(p);
      ghost var was, m := roots.nodes, CheckStart(id, GetLocal(w, id), a).1;
      r := CheckAlone(id, p, q, a, w);
      hide Swapped, Threads;
      assert forall t :: t in tickets && t !in was && t != p ==> t.next == null == t.previous;
      Rethreaded(p, was, m.unrooted);
      Reassembled(w, id, m, was);
    }

    /** The stop request of `process_abort_start`, on a ticket not adopted yet. */
    method Stop(id: nat, p: Process, ghost a: Answers, ghost w: World)
      requires HasSlot(w, id) && Represents(w) && Enabled(w, AbortBegin(id, a)) && id < |tickets| && p == tickets[id]
      requires w.tickets[id].state == SUBMITTED
      modifies slots[..], tickets
      ensures Represents(Apply(w, AbortBegin(id, a)))
    {
      hide RootList.Valid, Represents, Shows, Process.View, Submission.View, PutLocal, GetLocal, Without, Names,
           Process.Linked, Apply, Enabled, Launch.RequestStop;
      ApplyAbortBegin(w, id, a);
      Ready(w, id);
      var q := SlotOf(p);
      ghost var was, m := roots.nodes, RequestStop(GetLocal(w, id));
      StopAlone(id, p, q, w);
      hide Swapped, Threads;
      assert forall t :: t in tickets && t !in was && t != p ==> t.next == null == t.previous;
      Rethreaded(p, was, m.unrooted);
      Reassembled(w, id, m, was);
      Unlocking(PutLocal(w, id, m), Stopping(id));
    }

    /** The rest of it, in the same hold of the lock. */
    method AbortEnd(p: Process, a: Answers, ghost w: World) returns (r: LaunchStep)
      requires w.lock.Stopping? && HasSlot(w, w.lock.id) && Represents(w) && Enabled(w, Event.AbortEnd(a))
      requires w.lock.id < |tickets| && p == tickets[w.lock.id]
      modifies slots[..], roots, sys, tickets, set t | t in tickets :: t.streams
      ensures Represents(Apply(w, Event.AbortEnd(a)))
      ensures r == FinishAbort(w.lock.id, GetLocal(w, w.lock.id), a).0
    {
      hide RootList.Valid, Represents, Shows, Process.View, Submission.View, PutLocal, GetLocal, Without, Names,
           Process.Linked, Apply, Enabled, Launch.FinishAbort;
      ApplyAbortEnd(w, a);
      ghost var id := w.lock.id;
      Ready(w, id);
      var q := SlotOf(p);
      ghost var was, m := roots.nodes, FinishAbort(id, GetLocal(w, id), a).1;
      r := AbortEndAlone(p.id, p, q, a, w);
      hide Swapped, Threads;
      assert forall t :: t in tickets && t !in was && t != p ==> t.next == null == t.previous;
      Rethreaded(p, was, m.unrooted);
      Reassembled(w, id, m, was);
      Unlocking(PutLocal(w, id, m), Unlocked);
    }

    /** `process_abort_start` on any other ticket. */
    method Abort(id: nat, p: Process, a: Answers, ghost w: World) returns (r: LaunchStep)
      requires HasSlot(w, id) && Represents(w) && Enabled(w, AbortBegin(id, a)) && id < |tickets| && p == tickets[id]
      requires w.tickets[id].state != SUBMITTED
      modifies slots[..], roots, sys, tickets, set t | t in tickets :: t.streams
      ensures Represents(Apply(w, AbortBegin(id, a))) && r == FinishAbort(id, RequestStop(GetLocal(w, id)), a).0
    {
      hide RootList.Valid, Represents, Shows, Process.View, Submission.View, PutLocal, GetLocal, Without, Names,
           Process.Linked, Apply, Enabled, Launch.RequestStop, Launch.FinishAbort;
      ApplyAbortBegin(w, id, a);
      Ready(w, id);
      var q := SlotOf(p);
      ghost var was, m := roots.nodes, FinishAbort(id, RequestStop(GetLocal(w, id)), a).1;
      r := AbortAlone(id, p, q, a, w);
      hide Swapped, Threads;
      assert forall t :: t in tickets && t !in was && t != p ==> t.next == null == t.previous;
      Rethreaded(p, was, m.unrooted);
      Reassembled(w, id, m, was);
    }

    /** The lock is not an object of the state. */
    lemma Unlocking(w: World, lock: Lock)
      requires Represents(w)
      ensures Represents(w.(lock := lock))
    {
      hide RootList.Valid, Process.View, Submission.View;
    }

    lemma ViewsAre(w: World)
      requires Shape(w) && Shows(w)
      ensures WorkerObjects.Views(slots[..]) == w.slots
    {
      hide WorkerObjects.Views, Submission.View;
    }

    lemma Generations(w: World)
      requires Shape(w) && Shows(w)
      ensures forall i :: 0 <= i < slots.Length ==> slots[i].generation == w.slots[i].generation
    {
      forall i | 0 <= i < slots.Length ensures slots[i].generation == w.slots[i].generation {
        assert slots[i].View() == w.slots[i];
      }
    }

    /** The submission itself: other tickets and slots stay as they are. */
    method SubmitAlone(inputs: Inputs, ghost w: World) returns (p: Process?)
      requires Shape(w) && Shows(w) && |w.slots| == SLOTS && roots.Valid()
      modifies roots, roots.Members()`previous, slots[..]
      ensures p == null <==> FirstFree(w.slots) == SLOTS
      ensures Shape(w) && roots.Valid() && sys.os == w.os && sys.broken == w.broken
      ensures forall a :: 0 <= a < |tickets| ==> tickets[a].View() == w.tickets[a]
      ensures p == null ==> Shows(w) && roots.nodes == old(roots.nodes)
      ensures p != null ==>
                && fresh(p) && fresh(p.streams) && p.id == |tickets| && p.streams.Length == 3
                && roots.nodes == [p] + old(roots.nodes)
                && p.View() == Submitted(w, inputs).tickets[|tickets|]
                && forall j :: 0 <= j < slots.Length ==> slots[j].View() == Submitted(w, inputs).slots[j]
    {
      hide RootList.Valid, Process.View, Submission.View, FirstFree, WorkerObjects.Views;
      ViewsAre(w);
      Generations(w);
      var i;
      p, i := WorkerObjects.Submit(slots, roots, |tickets|, inputs);
    }

    /** The objects with one more ticket, at the head of the list. */
    lemma Regrown(w: World, inputs: Inputs, all: seq<Process>, was: seq<Process>, p: Process)
      requires FirstFree(w.slots) < |w.slots| && slots.Length == |w.slots| && tickets == all + [p]
               && |all| == |w.tickets|
      requires forall i, j :: 0 <= i < j < slots.Length ==> slots[i] != slots[j]
      requires forall a :: 0 <= a < |all| ==>
                 all[a].id == a && all[a].streams.Length == 3 && all[a].streams != p.streams
      requires forall a, b :: 0 <= a < b < |all| ==> all[a].streams != all[b].streams
      requires forall a :: 0 <= a < |all| ==> all[a].View() == w.tickets[a]
      requires p.id == |all| && p.streams.Length == 3 && p.View() == Submitted(w, inputs).tickets[|all|]
      requires forall j :: 0 <= j < slots.Length ==> slots[j].View() == Submitted(w, inputs).slots[j]
      requires sys.os == w.os && sys.broken == w.broken
      requires roots.nodes == [p] + was && roots.Valid() && |was| == |w.roots|
      requires forall k :: 0 <= k < |was| ==> w.roots[k] < |all| && was[k] == all[w.roots[k]]
      requires forall t :: t in all && t !in was ==> t.next == null == t.previous
      ensures Represents(Submitted(w, inputs))
    {
      hide Process.View, Submission.View, FirstFree, RootList.Valid;
    }

    /** The ticket is handed out. */
    method SubmitAll(inputs: Inputs, ghost w: World) returns (p: Process?)
      requires Represents(w) && |w.slots| == SLOTS
      modifies this`tickets, roots, tickets`previous, slots[..]
      ensures p == null <==> FirstFree(w.slots) == SLOTS
      ensures p == null ==> Represents(w) && tickets == old(tickets)
      ensures p != null ==> fresh(p) && tickets == old(tickets) + [p] && Represents(Submitted(w, inputs))
    {
      hide RootList.Valid, Process.View, Submission.View, FirstFree, Submitted, Represents, Shows, Threads;
      Parts(w);
      ghost var all, was := tickets, roots.nodes;
      p := SubmitAlone(inputs, w);
      assert forall t :: t in all && t !in was ==> t.next == null == t.previous;
      if p == null {
        Whole(w);
        return;
      }
      SubmittedIs(w, inputs);
      tickets := tickets + [p];
      Regrown(w, inputs, all, was, p);
    }

    lemma Whole(w: World)
      requires Shape(w) && Shows(w) && Names(roots.nodes, w.roots) && roots.Valid()
      requires forall t :: t in tickets && t !in roots.nodes ==> t.next == null == t.previous
      ensures Represents(w)
    {
      hide RootList.Valid, Shows;
    }

    lemma Parts(w: World)
      requires Represents(w)
      ensures Shape(w) && Shows(w) && Names(roots.nodes, w.roots) && roots.Valid()
      ensures forall t :: t in tickets && t !in roots.nodes ==> t.next == null == t.previous
      ensures forall n :: n in roots.nodes ==> n in tickets
    {
      hide RootList.Valid, Shows;
    }

    /** `mdk_process_submit` up to its post: the step that fills a slot and the one that queues it, or nothing. */
    method Submit(inputs: Inputs, ghost w: World) returns (p: Process?)
      requires Represents(w) && w.lock == Unlocked && |w.slots| == SLOTS
      modifies this`tickets, roots, tickets`previous, slots[..]
      ensures p == null <==> !Enabled(w, SubmitFill(inputs))
      ensures p == null ==> Represents(w) && tickets == old(tickets)
      ensures p != null ==>
                && fresh(p) && tickets == old(tickets) + [p]
                && var v := Apply(w, SubmitFill(inputs));
                   Enabled(v, SubmitPublish) && Represents(Apply(v, SubmitPublish))
    {
      hide Represents, Enabled, Apply, FirstFree, Submitted;
      SubmitIs(w, inputs);
      p := SubmitAll(inputs, w);
    }

    /** `mdk_process_poll_exit`. */
    method PollExit(id: nat, p: Process, wait: WaitResult, ghost w: World) returns (r: Outcome)
      requires HasSlot(w, id) && Represents(w) && Enabled(w, Event.PollExit(id, wait)) && id < |tickets|
               && p == tickets[id]
      modifies slots[..], roots, sys, tickets, set t | t in tickets :: t.streams
      ensures Represents(Apply(w, Event.PollExit(id, wait))) && r == Launch.PollExit(GetLocal(w, id), wait).0
    {
      hide RootList.Valid, Represents, Shows, Process.View, Submission.View, PutLocal, GetLocal, Without, Names,
           Process.Linked, Apply, Enabled, Launch.PollExit;
      ApplyPollExit(w, id, wait);
      Ready(w, id);
      var q := SlotOf(p);
      ghost var was, m := roots.nodes, Launch.PollExit(GetLocal(w, id), wait).1;
      r := PollExitAlone(id, p, q, wait, w);
      hide Swapped, Threads;
      assert forall t :: t in tickets && t !in was && t != p ==> t.next == null == t.previous;
      Rethreaded(p, was, m.unrooted);
      Reassembled(w, id, m, was);
    }

    /** `mdk_process_close_stdin`. */
    method CloseStdin(id: nat, p: Process, errno: int, ghost w: World) returns (r: Outcome)
      requires HasSlot(w, id) && Represents(w) && Enabled(w, Event.CloseStdin(id, errno)) && id < |tickets|
               && p == tickets[id]
      modifies slots[..], roots, sys, tickets, set t | t in tickets :: t.streams
      ensures Represents(Apply(w, Event.CloseStdin(id, errno))) && r == Launch.CloseStdin(GetLocal(w, id), errno).0
    {
      hide RootList.Valid, Represents, Shows, Process.View, Submission.View, PutLocal, GetLocal, Without, Names,
           Process.Linked, Apply, Enabled, Launch.CloseStdin;
      ApplyCloseStdin(w, id, errno);
      Ready(w, id);
      var q := SlotOf(p);
      ghost var was, m := roots.nodes, Launch.CloseStdin(GetLocal(w, id), errno).1;
      r := CloseStdinAlone(id, p, q, errno, w);
      hide Swapped, Threads;
      assert forall t :: t in tickets && t !in was && t != p ==> t.next == null == t.previous;
      Rethreaded(p, was, m.unrooted);
      Reassembled(w, id, m, was);
    }

    /** `mdk_process_dispose`. */
    method Dispose(id: nat, p: Process, es: Errnos, ghost w: World) returns (r: Outcome)
      requires HasSlot(w, id) && Represents(w) && Enabled(w, Event.Dispose(id, es)) && id < |tickets|
               && p == tickets[id]
      modifies slots[..], roots, sys, tickets, set t | t in tickets :: t.streams
      ensures Represents(Apply(w, Event.Dispose(id, es))) && r == Launch.Dispose(GetLocal(w, id), es).0
    {
      hide RootList.Valid, Represents, Shows, Process.View, Submission.View, PutLocal, GetLocal, Without, Names,
           Process.Linked, Apply, Enabled, Launch.Dispose;
      ApplyDispose(w, id, es);
      Ready(w, id);
      var q := SlotOf(p);
      ghost var was, m := roots.nodes, Launch.Dispose(GetLocal(w, id), es).1;
      r := DisposeAlone(id, p, q, es, w);
      hide Swapped, Threads;
      assert forall t :: t in tickets && t !in was && t != p ==> t.next == null == t.previous;
      Rethreaded(p, was, m.unrooted);
      Reassembled(w, id, m, was);
    }
  }

  /** The state after a submission's two steps. */
  ghost function Submitted(w: World, inputs: Inputs): World
    requires FirstFree(w.slots) < |w.slots|
  {
    var i, id := FirstFree(w.slots), |w.tickets|;
    var g := w.slots[i].generation + 1;
    w.(slots := w.slots[i := Slot(Queued, false, g, FRESH_NATIVE, Some(id), Some(inputs))],
       tickets := w.tickets + [NEW_OWNER.(slot := i + 1, generation := g, home := i + 1, asked := inputs)],
       roots := [id] + w.roots, posts := w.posts + 1)
  }

  lemma SubmittedIs(w: World, inputs: Inputs)
    requires FirstFree(w.slots) < |w.slots|
    ensures var v, n := Submitted(w, inputs), |w.tickets|;
            v.roots == [n] + w.roots && |v.slots| == |w.slots| && |v.tickets| == n + 1 && v.tickets[..n] == w.tickets
  {}

  lemma SubmitIs(w: World, inputs: Inputs)
    requires w.lock == Unlocked && |w.slots| == SLOTS
    ensures Enabled(w, SubmitFill(inputs)) <==> FirstFree(w.slots) < SLOTS
    ensures FirstFree(w.slots) < SLOTS ==>
              && var v := Apply(w, SubmitFill(inputs));
                 Enabled(v, SubmitPublish) && Apply(v, SubmitPublish) == Submitted(w, inputs)
  {
    hide FirstFree;
  }

  /** Taking a ticket off the list of objects and its number off the list of numbers keeps them in step. */
  lemma {:induction false} Woven(tickets: seq<Process>, nodes: seq<Process>, ids: seq<nat>, id: nat)
    requires id < |tickets| && |nodes| == |ids|
    requires forall k :: 0 <= k < |ids| ==> ids[k] < |tickets| && nodes[k] == tickets[ids[k]]
    requires forall a :: 0 <= a < |tickets| && a != id ==> tickets[a] != tickets[id]
    ensures var n, i := Without(nodes, tickets[id]), Without(ids, id);
            |n| == |i| && forall k :: 0 <= k < |i| ==> 0 <= i[k] < |tickets| && n[k] == tickets[i[k]]
  {
    if ids != [] { Woven(tickets, nodes[1..], ids[1..], id); }
  }

  lemma WithoutOther(nodes: seq<Process>, p: Process)
    ensures forall n :: n in nodes && n != p ==> n in Without(nodes, p)
  {}

  method MakeSlots() returns (slots: array<Submission>)
    ensures fresh(slots) && slots.Length == SLOTS
    ensures forall i :: 0 <= i < SLOTS ==> fresh(slots[i]) && slots[i].View() == EMPTY_SLOT
    ensures forall i, j :: 0 <= i < j < SLOTS ==> slots[i] != slots[j]
  {
    var first := new Submission();
    slots := new Submission[SLOTS](_ => first);
    for k := 1 to SLOTS
      invariant forall i :: 0 <= i < SLOTS ==> fresh(slots[i]) && slots[i].View() == EMPTY_SLOT
      invariant forall i :: k <= i < SLOTS ==> slots[i] == slots[0]
      invariant forall i, j :: 0 <= i < j < k ==> slots[i] != slots[j]
    {
      slots[k] := new Submission();
    }
  }
}
