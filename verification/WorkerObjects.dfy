/** The worker's own code: the round over the slots and `construct_native`, as loops over arrays. */
module WorkerObjects {
  import opened Wrappers
  import opened Kernel
  import opened Launch
  import opened Construct
  import opened ProcessObjects
  import Protocol

  /** The slot `p` places on from `next`. */
  function Place(next: nat, p: nat): (i: nat)
    requires next < Protocol.SLOTS && p < Protocol.SLOTS
    ensures i < Protocol.SLOTS
  {
    (next + p) % Protocol.SLOTS
  }

  /** One round: the first queued slot from `next` on becomes WORKING and its place is returned, and no other slot is
      touched; if none is queued nothing changes. */
  method ClaimNext(slots: array<Submission>, next: nat) returns (claimed: Option<nat>)
    requires slots.Length == Protocol.SLOTS && next < Protocol.SLOTS
    requires forall i, j :: 0 <= i < j < Protocol.SLOTS ==> slots[i] != slots[j]
    modifies set i | 0 <= i < slots.Length :: slots[i]
    ensures claimed.Some? ==>
              && claimed.value < Protocol.SLOTS
              && old(slots[Place(next, claimed.value)].phase) == Queued
              && (forall p :: 0 <= p < claimed.value ==> old(slots[Place(next, p)].phase) != Queued)
              && slots[Place(next, claimed.value)].View() ==
                   old(slots[Place(next, claimed.value)].View()).(phase := Working)
    ensures claimed.None? ==> forall p :: 0 <= p < Protocol.SLOTS ==> old(slots[Place(next, p)].phase) != Queued
    ensures forall i :: 0 <= i < Protocol.SLOTS && (claimed.None? || i != Place(next, claimed.value)) ==>
              slots[i].View() == old(slots[i].View())
  {
    hide Place;
    for offset := 0 to Protocol.SLOTS
      invariant forall p :: 0 <= p < offset ==> old(slots[Place(next, p)].phase) != Queued
      invariant forall i :: 0 <= i < Protocol.SLOTS ==> slots[i].View() == old(slots[i].View())
    {
      var q := slots[Place(next, offset)];
      assert q.View() == old(q.View());
      if q.phase == Queued {
        q.phase := Working;
        return Some(offset);
      }
    }
    return None;
  }

  ghost function Views(slots: seq<Submission>): (r: seq<Slot>)
    reads slots
    ensures |r| == |slots| && forall i :: 0 <= i < |slots| ==> r[i] == slots[i].View()
  {
    if slots == [] then [] else [slots[0].View()] + Views(slots[1..])
  }

  lemma {:induction false} FirstFreeIs(slots: seq<Slot>, i: nat)
    requires i <= |slots| && (i < |slots| ==> slots[i].phase == Free && slots[i].generation != Protocol.LAST_GENERATION)
    requires forall j :: 0 <= j < i ==> slots[j].phase != Free || slots[j].generation == Protocol.LAST_GENERATION
    ensures Protocol.FirstFree(slots) == i
  {
    if i > 0 { FirstFreeIs(slots[1..], i - 1); }
  }

  /** The submitter's scan. */
  method FindFree(slots: array<Submission>) returns (i: nat)
    ensures i == Protocol.FirstFree(Views(slots[..]))
  {
    hide Views, Protocol.FirstFree;
    ghost var views := Views(slots[..]);
    i := 0;
    while i < slots.Length && !(slots[i].phase == Free && slots[i].generation != Protocol.LAST_GENERATION)
      invariant i <= slots.Length
      invariant forall j :: 0 <= j < i ==> views[j].phase != Free || views[j].generation == Protocol.LAST_GENERATION
    {
      assert views[i] == slots[i].View();
      i := i + 1;
    }
    assert i < slots.Length ==> views[i] == slots[i].View();
    FirstFreeIs(views, i);
  }

  method FillSlot(q: Submission, id: nat, inputs: Inputs)
    modifies q
    ensures q.View() == Slot(old(q.phase), false, old(q.generation) + 1, FRESH_NATIVE, Some(id), Some(inputs))
  {
    q.generation := q.generation + 1;
    q.native := FRESH_NATIVE;
    q.stop := false;
    q.inputs := Some(inputs);
    q.owner := Some(id);
  }

  method NewTicket(id: nat, slot: nat, generation: nat, ghost inputs: Inputs) returns (p: Process)
    ensures fresh(p) && fresh(p.streams) && p.id == id && p.streams.Length == 3 && p.next == null == p.previous
    ensures p.View() == NEW_OWNER.(slot := slot, generation := generation, home := slot, asked := inputs)
  {
    p := new Process(id);
    p.slot, p.generation, p.home, p.asked := slot, generation, slot, inputs;
  }

  /** An acceptable slot is given the next generation, the launch data and its owner, the ticket heads the rooted list,
      and only then is the slot QUEUED. */
  method Enqueue(q: Submission, i: nat, roots: RootList, id: nat, inputs: Inputs) returns (p: Process)
    requires roots.Valid() && q.phase == Free
    modifies roots, roots.Members()`previous, q
    ensures roots.Valid() && roots.nodes == [p] + old(roots.nodes)
    ensures fresh(p) && fresh(p.streams) && p.id == id && p.streams.Length == 3
    ensures var g := old(q.generation) + 1;
            && q.View() == Slot(Queued, false, g, FRESH_NATIVE, Some(id), Some(inputs))
            && p.View() == NEW_OWNER.(slot := i + 1, generation := g, home := i + 1, asked := inputs)
  {
    hide RootList.Valid;
    FillSlot(q, id, inputs);
    p := NewTicket(id, i + 1, q.generation, inputs);
    roots.Root(p);
    q.phase := Queued;
  }

  /** `mdk_process_submit` up to the post: the first acceptable slot is taken; with no such slot nothing changes. */
  method Submit(slots: array<Submission>, roots: RootList, id: nat, inputs: Inputs) returns (p: Process?, i: nat)
    requires slots.Length == Protocol.SLOTS && roots.Valid()
    requires forall i, j :: 0 <= i < j < Protocol.SLOTS ==> slots[i] != slots[j]
    modifies roots, roots.Members()`previous, set i | 0 <= i < slots.Length :: slots[i]
    ensures i == Protocol.FirstFree(old(Views(slots[..]))) && (p == null <==> i == Protocol.SLOTS) && roots.Valid()
    ensures forall j :: 0 <= j < Protocol.SLOTS && j != i ==> slots[j].View() == old(slots[j].View())
    ensures p == null ==> roots.nodes == old(roots.nodes)
    ensures p != null ==>
              && fresh(p) && fresh(p.streams) && p.id == id && p.streams.Length == 3
              && roots.nodes == [p] + old(roots.nodes)
              && var g := old(slots[i].generation) + 1;
                 && slots[i].View() == Slot(Queued, false, g, FRESH_NATIVE, Some(id), Some(inputs))
                 && p.View() == NEW_OWNER.(slot := i + 1, generation := g, home := i + 1, asked := inputs)
  {
    hide RootList.Valid;
    i := FindFree(slots);
    if i == Protocol.SLOTS { return null, i; }
    hide Views, Protocol.FirstFree;
    p := Enqueue(slots[i], i, roots, id, inputs);
  }

  /** The bench after the first `k` steps. */
  ghost function Steps(b: Bench, inputs: Inputs, stop: (bool, bool), works: seq<WorkAnswers>, k: nat): Bench
    requires k <= |works|
  {
    if k == 0 then b
    else Work(Steps(b, inputs, stop, works, k - 1), inputs, if k == 1 then stop.0 else stop.1, works[k - 1])
  }

  lemma {:induction false} DoneStays(b: Bench, inputs: Inputs, stop: (bool, bool), works: seq<WorkAnswers>, k: nat,
                                     n: nat)
    requires k <= n <= |works| && Steps(b, inputs, stop, works, k).stage == Publish
    ensures Steps(b, inputs, stop, works, n) == Steps(b, inputs, stop, works, k)
  {
    if k < n { DoneStays(b, inputs, stop, works, k, n - 1); }
  }

  /** Stream `i`: its two ends, or, when either cannot be had, everything closed again. */
  method OpenStream(n0: Native, i: nat, piped: bool, child: array<Fd>, a: WorkAnswers, sys: System)
    returns (ok: bool, n: Native)
    requires child.Length == 3 && i < 3
    modifies child, sys`os
    ensures var c := MakeStream(Bench(n0, Make(i), old(Kit(child[0], child[1], child[2], -1, -1)), old(sys.os)), i,
                                piped, a);
            c ==
              if ok then Bench(n, Make(i + 1), Kit(child[0], child[1], child[2], -1, -1), sys.os)
              else Bench(n, Publish, NO_KIT, sys.os)
  {
    hide CloseAll;
    n := n0;
    if a.open == Unopened || (a.open == HalfOpened && !piped) {
      n := CleanUp(n.(failure := Failure(1, a.errno)), child, -1, -1, Make(i), sys);
      return false, n;
    }
    child[i] := sys.os.next;
    sys.os := Open(sys.os);
    if piped {
      n := n.(fds := SetStream(n.fds, i, sys.os.next));
      sys.os := Open(sys.os);
      if a.open == HalfOpened {
        n := CleanUp(n.(failure := Failure(1, a.errno)), child, -1, -1, Make(i + 1), sys);
        return false, n;
      }
    }
    return true, n;
  }

  /** The handshake pipe, likewise. */
  method OpenPipe(n0: Native, child: array<Fd>, a: WorkAnswers, sys: System)
    returns (ok: bool, n: Native, ep0: Fd, ep1: Fd)
    requires child.Length == 3
    modifies sys`os
    ensures var c := MakePipe(Bench(n0, Make(3), Kit(child[0], child[1], child[2], -1, -1), old(sys.os)), a);
            c ==
              if ok then Bench(n, Recheck, Kit(child[0], child[1], child[2], ep0, ep1), sys.os)
              else Bench(n, Publish, NO_KIT, sys.os)
  {
    hide CloseAll;
    ok, n, ep0, ep1 := false, n0, -1, -1;
    if a.open == Unopened {
      n := CleanUp(n.(failure := Failure(1, a.errno)), child, -1, -1, Make(3), sys);
      return;
    }
    ep0, ep1 := sys.os.next, sys.os.next + 1;
    sys.os := Open(Open(sys.os));
    if a.open == HalfOpened {
      n := CleanUp(n.(failure := Failure(1, a.errno)), child, ep0, ep1, Recheck, sys);
      return;
    }
    ok := true;
  }

  /** The clone: the child's ends are closed whatever happens, and what the parent keeps is kept only on success. */
  method CloneChild(n0: Native, child: array<Fd>, ep0: Fd, ep1: Fd, a: WorkAnswers, sys: System) returns (n: Native)
    requires child.Length == 3
    modifies sys`os
    ensures Bench(n, Publish, NO_KIT, sys.os) ==
              MakeChild(Bench(n0, Clone, Kit(child[0], child[1], child[2], ep0, ep1), old(sys.os)), a)
  {
    hide CloseAll;
    if !a.clone.Cloned? {
      n := CleanUp(n0.(failure := CloneFailure(a)), child, ep0, ep1, Clone, sys);
      return;
    }
    n := n0.(fds := n0.fds.(pid := sys.os.next, err := ep0), created := true);
    sys.os := Spawn(sys.os);
    CloseEach([child[0], child[1], child[2], ep1], sys);
  }

  /** `construct_native` from the first read of the stop flag on.  `stop` holds what the two reads find, `works` what
      the system calls of each step answer. */
  method ConstructNative(inputs: Inputs, stop: (bool, bool), works: seq<WorkAnswers>, sys: System) returns (n: Native)
    requires |works| == 7
    modifies sys`os
    ensures Bench(n, Publish, NO_KIT, sys.os) ==
              Steps(Bench(FRESH_NATIVE, Checking, NO_KIT, old(sys.os)), inputs, stop, works, 7)
  {
    hide CloseAll, MakeStream, MakePipe, MakeChild, Cleanup;
    ghost var b := Bench(FRESH_NATIVE, Checking, NO_KIT, sys.os);
    n := FRESH_NATIVE;
    if stop.0 || works[0].unfit.Some? {
      n := if stop.0 then n.(cancelled := true) else n.(failure := works[0].unfit.value);
      DoneStays(b, inputs, stop, works, 1, 7);
      return;
    }
    var child := new Fd[3](_ => -1);
    for i := 0 to 3
      invariant Steps(b, inputs, stop, works, i + 1) ==
                  Bench(n, Make(i), Kit(child[0], child[1], child[2], -1, -1), sys.os)
    {
      var ok;
      ok, n := OpenStream(n, i, Piped(inputs, i), child, works[i + 1], sys);
      if !ok {
        DoneStays(b, inputs, stop, works, i + 2, 7);
        return;
      }
    }
    var ok, ep0, ep1;
    ok, n, ep0, ep1 := OpenPipe(n, child, works[4], sys);
    assert Steps(b, inputs, stop, works, 5).os == sys.os;
    if !ok {
      DoneStays(b, inputs, stop, works, 5, 7);
      return;
    }
    if stop.1 {
      n := CleanUp(n.(cancelled := true), child, ep0, ep1, Recheck, sys);
      DoneStays(b, inputs, stop, works, 6, 7);
      return;
    }
    assert Steps(b, inputs, stop, works, 6) == Bench(n, Clone, Kit(child[0], child[1], child[2], ep0, ep1), sys.os);
    n := CloneChild(n, child, ep0, ep1, works[6], sys);
  }

  /** The `cleanup` label. */
  method CleanUp(n0: Native, child: array<Fd>, ep0: Fd, ep1: Fd, ghost stage: Stage, sys: System) returns (n: Native)
    requires child.Length == 3
    modifies sys`os
    ensures Bench(n, Publish, NO_KIT, sys.os) ==
              Cleanup(Bench(n0, stage, Kit(child[0], child[1], child[2], ep0, ep1), old(sys.os)))
  {
    var fds := [child[0], child[1], child[2], ep0, ep1, n0.fds.s0, n0.fds.s1, n0.fds.s2];
    CloseEach(fds, sys);
    n := n0.(fds := n0.fds.(s0 := -1, s1 := -1, s2 := -1));
  }

  method CloseEach(fds: seq<Fd>, sys: System)
    modifies sys`os
    ensures sys.os == CloseAll(old(sys.os), fds)
  {
    for i := 0 to |fds|
      invariant CloseAll(sys.os, fds[i..]) == CloseAll(old(sys.os), fds)
    {
      assert fds[i..][1..] == fds[i + 1..];
      sys.Close(fds[i]);
    }
  }
}
