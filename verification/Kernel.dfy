/** The kernel as the launch code sees it: open descriptors and children not yet reaped.  A descriptor is a token that
    is never reused, so closing one twice shows; -1 stands for none.  `killed` holds the children that were sent SIGKILL
    and `absent` those whose kill found no process.  Misuse is recorded in `fault`, never excluded. */
module Kernel {
  type Fd = int

  datatype Os = Os(next: nat, open: set<int>, unreaped: set<int>, killed: set<int>, absent: set<int>, fault: bool)

  const BOOT := Os(0, {}, {}, {}, {}, false)

  function One(fd: Fd): multiset<int> {
    if fd < 0 then multiset{} else multiset{fd}
  }

  /** A new descriptor, the token `k.next`. */
  function Open(k: Os): Os {
    k.(next := k.next + 1, open := k.open + {k.next})
  }

  /** `close_once`: nothing for -1; closing a descriptor that is not open is a fault. */
  function Close(k: Os, fd: Fd): Os {
    if fd < 0 then k
    else if fd in k.open then k.(open := k.open - {fd})
    else k.(fault := true)
  }

  /** A child is created with its pidfd. */
  function Spawn(k: Os): Os {
    Open(k).(unreaped := k.unreaped + {k.next})
  }

  datatype KillResult = Delivered | NoProcess | KillError(errno: int)

  /** `pidfd_send_signal(SIGKILL)`: a fault on anything but the live pidfd of an unreaped child, or after it succeeded
      once. */
  function Kill(k: Os, fd: Fd, r: KillResult): Os {
    if fd !in k.open || fd !in k.unreaped || (r.Delivered? && fd in k.killed) then k.(fault := true)
    else if r.Delivered? then k.(killed := k.killed + {fd})
    else if r.NoProcess? then k.(absent := k.absent + {fd})
    else k
  }

  /** `waitid`: a fault on anything but the live pidfd of an unreaped child; `gone` when the child was reaped or
      lost. */
  function Wait(k: Os, fd: Fd, gone: bool): Os {
    if fd !in k.open || fd !in k.unreaped then k.(fault := true)
    else if gone then k.(unreaped := k.unreaped - {fd})
    else k
  }

  /** What counts as misuse, and that it is never forgotten. */
  lemma FaultsAre(k: Os, fd: Fd, r: KillResult, gone: bool)
    ensures Close(k, fd).fault <==> k.fault || (fd >= 0 && fd !in k.open)
    ensures Kill(k, fd, r).fault <==>
              k.fault || fd !in k.open || fd !in k.unreaped || (r == Delivered && fd in k.killed)
    ensures Wait(k, fd, gone).fault <==> k.fault || fd !in k.open || fd !in k.unreaped
    ensures Open(k).fault == k.fault == Spawn(k).fault
  {}

  /** Tokens at or above `next` have never existed; a child keeps its pidfd until it is reaped or lost. */
  ghost predicate Sane(k: Os) {
    && (forall fd :: fd in k.open ==> 0 <= fd < k.next)
    && (forall fd :: fd in k.killed ==> 0 <= fd < k.next)
    && (forall fd :: fd in k.unreaped ==> fd in k.open)
    && !k.fault
  }

  lemma CloseBalance(k: Os, fd: Fd)
    requires One(fd) <= multiset(k.open)
    ensures multiset(Close(k, fd).open) + One(fd) == multiset(k.open)
    ensures !k.fault ==> !Close(k, fd).fault
  {
    if fd >= 0 {
      assert fd in One(fd);
      assert fd in k.open;
    }
  }

  lemma OpenBalance(k: Os)
    requires Sane(k)
    ensures multiset(Open(k).open) == multiset(k.open) + One(k.next)
  {}
}
