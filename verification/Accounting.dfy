/** Who holds which descriptor: the total over tickets, slots, the worker and the drivers, and how it changes. */
module Accounting {
  import opened Kernel
  import Launch
  import opened Construct
  import opened Protocol

  ghost function Total<T>(s: seq<T>, held: T -> multiset<int>): multiset<int> {
    if s == [] then multiset{} else Total(s[..|s| - 1], held) + held(s[|s| - 1])
  }

  ghost function TicketHeld(t: Launch.Ticket): multiset<int> { Launch.Held(t.fds) }

  ghost function SlotsFds(q: Launch.Slot): multiset<int> { Launch.Held(q.native.fds) }

  ghost function DriverHeld(d: Driver): multiset<int> {
    if d.pc.Polling? then One(d.pc.held) else multiset{}
  }

  function WorkerKit(worker: Worker): Kit {
    if worker.Busy? then worker.kit else NO_KIT
  }

  /** Everything held, each holder counted once. */
  ghost function AllHeld(w: World): multiset<int> {
    Total(w.tickets, TicketHeld) + Total(w.slots, SlotsFds) + KitHeld(WorkerKit(w.worker))
    + Total(w.drivers, DriverHeld)
  }

  /** Each open descriptor has exactly one holder, and nothing held is closed. */
  ghost predicate Accounted(w: World) {
    AllHeld(w) == multiset(w.os.open)
  }

  lemma {:induction false} TotalUpdate<T>(s: seq<T>, held: T -> multiset<int>, i: nat, x: T)
    requires i < |s|
    ensures Total(s[i := x], held) + held(s[i]) == Total(s, held) + held(x)
  {
    var n := |s| - 1;
    var u := s[i := x];
    if i == n {
      assert u[..n] == s[..n];
    } else {
      TotalUpdate(s[..n], held, i, x);
      assert u[..n] == s[..n][i := x] && s[..n][i] == s[i] && u[n] == s[n];
      AddBoth(Total(u[..n], held), held(s[i]), Total(s[..n], held), held(x), held(s[n]));
    }
  }

  lemma AddBoth(a: multiset<int>, b: multiset<int>, c: multiset<int>, d: multiset<int>, e: multiset<int>)
    requires a + b == c + d
    ensures a + e + b == c + e + d
  {
    forall x ensures (a + e + b)[x] == (c + e + d)[x] {
      assert (a + b)[x] == (c + d)[x];
    }
  }

  lemma TotalAppend<T>(s: seq<T>, held: T -> multiset<int>, x: T)
    ensures Total(s + [x], held) == Total(s, held) + held(x)
  {
    assert (s + [x])[..|s|] == s;
  }

  lemma {:induction false} TotalHas<T>(s: seq<T>, held: T -> multiset<int>, i: nat)
    requires i < |s|
    ensures held(s[i]) <= Total(s, held)
  {
    if i < |s| - 1 {
      TotalHas(s[..|s| - 1], held, i);
    }
  }

  lemma {:induction false} TotalTwo<T>(s: seq<T>, held: T -> multiset<int>, i: nat, j: nat)
    requires i < j < |s|
    ensures held(s[i]) + held(s[j]) <= Total(s, held)
  {
    var n := |s| - 1;
    if j == n {
      TotalHas(s[..n], held, i);
    } else {
      TotalTwo(s[..n], held, i, j);
    }
  }

  // ----- Holders

  datatype Holder = ByTicket(id: nat) | BySlot(slot: nat) | ByWorker | ByDriver(driver: nat)

  ghost predicate Exists(w: World, h: Holder) {
    match h
    case ByTicket(id) => id < |w.tickets|
    case BySlot(i) => i < |w.slots|
    case ByWorker => true
    case ByDriver(d) => d < |w.drivers|
  }

  ghost function HeldBy(w: World, h: Holder): multiset<int>
    requires Exists(w, h)
  {
    match h
    case ByTicket(id) => TicketHeld(w.tickets[id])
    case BySlot(i) => SlotsFds(w.slots[i])
    case ByWorker => KitHeld(WorkerKit(w.worker))
    case ByDriver(d) => DriverHeld(w.drivers[d])
  }

  ghost function Class(h: Holder): (c: nat)
    ensures c <= 3
  {
    if h.ByTicket? then 0 else if h.BySlot? then 1 else if h.ByWorker? then 2 else 3
  }

  /** The share of `AllHeld` that holders of one class have together. */
  ghost function Share(w: World, c: nat): multiset<int> {
    if c == 0 then Total(w.tickets, TicketHeld) else if c == 1 then Total(w.slots, SlotsFds)
    else if c == 2 then KitHeld(WorkerKit(w.worker)) else Total(w.drivers, DriverHeld)
  }

  lemma ShareHas(w: World, h: Holder)
    requires Exists(w, h)
    ensures HeldBy(w, h) <= Share(w, Class(h))
  {
    match h
    case ByTicket(id) => TotalHas(w.tickets, TicketHeld, id);
    case BySlot(i) => TotalHas(w.slots, SlotsFds, i);
    case ByWorker =>
    case ByDriver(d) => TotalHas(w.drivers, DriverHeld, d);
  }

  lemma ShareTwo(w: World, g: Holder, h: Holder)
    requires Exists(w, g) && Exists(w, h) && g != h && Class(g) == Class(h)
    ensures HeldBy(w, g) + HeldBy(w, h) <= Share(w, Class(g))
  {
    match g
    case ByTicket(a) => TotalTwo(w.tickets, TicketHeld, Least(a, h.id), Most(a, h.id));
    case BySlot(a) => TotalTwo(w.slots, SlotsFds, Least(a, h.slot), Most(a, h.slot));
    case ByWorker =>
    case ByDriver(a) => TotalTwo(w.drivers, DriverHeld, Least(a, h.driver), Most(a, h.driver));
  }

  function Least(a: nat, b: nat): nat { if a < b then a else b }

  function Most(a: nat, b: nat): nat { if a < b then b else a }

  lemma AllShares(w: World)
    ensures AllHeld(w) == Share(w, 0) + Share(w, 1) + Share(w, 2) + Share(w, 3)
  {
    hide Total, KitHeld;
  }

  lemma HolderHas(w: World, h: Holder)
    requires Exists(w, h)
    ensures HeldBy(w, h) <= AllHeld(w)
  {
    hide HeldBy, Share, AllHeld;
    ShareHas(w, h);
    AllShares(w);
  }

  lemma HoldersTwo(w: World, g: Holder, h: Holder)
    requires Exists(w, g) && Exists(w, h) && g != h
    ensures HeldBy(w, g) + HeldBy(w, h) <= AllHeld(w)
  {
    var c, d := Class(g), Class(h);
    hide HeldBy, Share, AllHeld, Class, Exists;
    ShareHas(w, g);
    ShareHas(w, h);
    AllShares(w);
    if c == d {
      ShareTwo(w, g, h);
      ShareOne(w, c);
    } else {
      SharesTwo(w, c, d);
    }
    hide *;
  }

  lemma ShareOne(w: World, c: nat)
    ensures Share(w, c) <= AllHeld(w)
  {
    AllShares(w);
    assert c >= 3 ==> Share(w, c) == Share(w, 3);
    hide Share, AllHeld;
  }

  lemma SharesTwo(w: World, c: nat, d: nat)
    requires c != d && c <= 3 && d <= 3
    ensures Share(w, c) + Share(w, d) <= AllHeld(w)
  {
    AllShares(w);
    hide Share, AllHeld;
    var s := [Share(w, 0), Share(w, 1), Share(w, 2), Share(w, 3)];
    assert Share(w, c) == s[c] && Share(w, d) == s[d];
    forall x ensures (s[c] + s[d])[x] <= AllHeld(w)[x] {
      assert AllHeld(w)[x] == s[0][x] + s[1][x] + s[2][x] + s[3][x];
    }
  }

  /** A descriptor has one holder. */
  lemma OneHolder(w: World, g: Holder, h: Holder, fd: Fd)
    requires Accounted(w) && Exists(w, g) && Exists(w, h)
    requires fd in HeldBy(w, g) && fd in HeldBy(w, h)
    ensures g == h && fd in w.os.open
  {
    hide HeldBy, AllHeld;
    HolderHas(w, g);
    if g != h {
      HoldersTwo(w, g, h);
      TwiceInASet(HeldBy(w, g), HeldBy(w, h), w.os.open, fd);
    }
  }

  lemma TwiceInASet(x: multiset<int>, y: multiset<int>, open: set<int>, fd: Fd)
    requires fd in x && fd in y
    ensures !(x + y <= multiset(open))
  {
    assert (x + y)[fd] >= 2 && multiset(open)[fd] <= 1;
  }
}
