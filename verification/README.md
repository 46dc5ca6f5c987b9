# The Medaka native runtime, modelled in Dafny

This project models four parts of the repository and proves what they are for.

**The process-launch protocol** (`runtime/medaka_process.c`).  Submitters, one unlocked worker, ticket holders and blocking
drivers share eight submission slots, a semaphore, a mutex, a stop flag per slot and a list of rooted tickets.
`Launch` holds the operations as functions on one ticket, its slot and the kernel; `Construct` holds the steps of native
construction; `Protocol` interleaves them as atomic steps (`Event`, `Enabled`, `Apply`) over a `World`, with system calls
answering anything.  `Kernel` counts a second close, a kill or a wait on the wrong thing as a fault instead of ruling it
out.  `Invariant` states the invariant, `TicketSteps`, `WorkerSteps`, `SubmitSteps` and `DriverSteps` prove that each kind
of step keeps it, `Safety` puts them together, and `Guarantees`, `Advance` and `Wakeups` draw the consequences over all
runs.  `Outcomes` gives the exact result of a check and of an abort, `Replies` what blocked callers are told and who is
killed, `Streams` what a ticket asked for and what it gets, and `Reachable` exhibits three runs.  `ProcessObjects` and
`WorkerObjects` are the same code in place, on classes, arrays and the doubly linked list, each method proved equal to its
function; `RuntimeObjects` puts the objects together and proves each call to be the protocol's step.  `LaunchInputs` is the
size check, the copy into the arena and the direct path.

**Strings, numbers, closures and the command batch** (`runtime/medaka_rt.c`).  A String cell holds well-formed UTF-8 and a
cached code point count; each byte-level operation is proved against its meaning on sequences of Unicode scalars
(`Utf8`, `Words`, `Cells`, `Boundaries`, `Chars`, `Cursor`, `Search`, `Compare`, `Lossy`).  `IntText` prints and parses in
64-bit arithmetic, `Closures` applies closures by arity, `CommandBatch` runs bounded-parallel children against a process
table that answers anything and records every child started and every wait.

**base58btc** (`pds/tools/did_key_corpus_check.py`): `Base58`, on `Positional`.

**Strict DER signatures** (`pds/tools/normalize_wycheproof_signing.py`): `DerSignature`, on `Positional`.

`dafny verify dfyconfig.toml` checks everything.

Three remarks on the protocol.  A queued slot waits for at most seven claims of others, not eight: the worker starts its
next round after the slot it last claimed.  The ticket fields `home`, `asked` and `cancelled` record history and no branch
reads them.  An abort of a SUBMITTED ticket is two steps with the lock held between them, since the worker may publish in
between; every other locked operation is one step, the worker taking no lock and touching only its own slot, its own
descriptors and that slot's phase.

## Model

| member | source | states |
|---|---|---|
| `Safety.Inductive` | `runtime/medaka_process.c:411-776` | The protocol's invariant (slot ownership, worker's bench, one holder per descriptor, exact rooted list, queue accounting, drivers, verdict shapes) is kept by every step of submitters, worker, ticket holders and drivers. |
| `Safety.ReachableInv` | `runtime/medaka_process.c:411-776` | It holds after every legal run from the initial state, in any interleaving. |
| `Guarantees.SlotOwnership` | `runtime/medaka_process.c:435-460` | In every reachable state a slot is taken exactly when one ticket names it; that ticket is unique and its slot number and generation match the slot's owner and generation. |
| `Guarantees.GenerationsUnique` | `runtime/medaka_process.c:656-670` | No slot and generation are ever given to two tickets. |
| `Guarantees.NoFaults` | `runtime/medaka_process.c:435-448` | Neither `abort()` fires, the "invalid launch state" branch is never reached, and no descriptor is closed twice, no kill or wait hits anything but the live pidfd of an unreaped child, no child is killed or reaped twice. |
| `Guarantees.DescriptorsHeldOnce` | `runtime/medaka_process.c:96-102` | A descriptor is open exactly when some ticket, slot, driver or the worker holds it, and then exactly one does. |
| `Guarantees.TerminalTicketsHoldNone` | `runtime/medaka_process.c:453-456` | A ticket that failed, aborted, lost its wait or was disposed holds no descriptor and no slot. |
| `Guarantees.ChildrenTracked` | `runtime/medaka_process.c:322-330` | Every unreaped child is the pidfd of a ticket or of a slot whose launch is not adopted yet: none is lost track of. |
| `Guarantees.RootsExact` | `runtime/medaka_process.c:84-95` | The rooted list holds exactly the tickets whose launch is pending or whose owned process is not disposed, each once. |
| `Guarantees.VerdictsFinal` | `runtime/medaka_process.c:481-536` | A launch verdict that is not pending never changes, whatever runs afterwards. |
| `Guarantees.CancellationDecisive` | `runtime/medaka_process.c:536-545` | Once an abort is accepted on a pending ticket, no later run of checks, aborts or blocked drivers reaches OWNED: the verdict is ABORTED, FAILED or LOST_WAIT, and no driver returns ownership. |
| `Guarantees.AbortedOnlyIfAsked` | `runtime/medaka_process.c:450-454` | ABORTED is the verdict only of tickets an abort was accepted for. |
| `Replies.SignalledIsKilled` | `runtime/medaka_process.c:510-520` | In every reachable state a pending ticket that counts as signalled has had its child sent SIGKILL, or the kill found no process. |
| `Replies.BeginTold` | `runtime/medaka_process.c:546-560` | In every reachable state a blocking start that begins is told exactly what its check found: the verdict once there is one, ERROR when the check failed or the descriptor to poll cannot be duplicated; else it sleeps while the worker has the launch, or polls its own ticket's handshake pipe or pidfd. |
| `Replies.ResumeTold` | `runtime/medaka_process.c:546-577` | So is one that goes on after its sleep or poll; a failed poll on a still pending launch answers ERROR and checks nothing. |
| `Replies.DirectTold` | `runtime/medaka_process.c:331-341` | A direct start that makes a child is told what the first handshake read says, with the same sleeps, polls and errors; one that makes none leaves tickets, drivers and list alone. |
| `Replies.ToldVerdict` | `runtime/medaka_process.c:546-577` | A turn that leaves a verdict on an undisposed ticket returns that verdict, only such a turn returns one, and ERROR is returned exactly for a failed check or a descriptor that cannot be duplicated. |
| `Replies.OnlyOwnTurn` | `runtime/medaka_process.c:560-565` | When its poll is over a driver goes on to its next turn, and no step but its own moves a driver. |
| `Advance.StepAdvances` | `runtime/medaka_process.c:416-460` | In every step: phases move only FREE, QUEUED, WORKING, DONE, FREE, each by its own party; launch data is written only by the submitter while FREE, the worker while WORKING and the owner once DONE; verdicts and accepted aborts stick. |
| `LaunchLocal.ReadsOnlyWhenDone` | `runtime/medaka_process.c:445-450` | Until the worker has published, checks and aborts give the same answer whatever the launch data holds. |
| `Wakeups.NoLostWakeup` | `runtime/medaka_process.c:411-431` | Queued slots always equal posts made and unused, posts still to be made, and the one a woken worker has yet to claim; a sleeping worker with a queued slot has a wake waiting or a post coming. |
| `Wakeups.EachWakeClaimsOne` | `runtime/medaka_process.c:416-431` | Over any run the worker's wakes and claims are equal in number, but for a wake still on its round. |
| `Wakeups.BoundedWaiting` | `runtime/medaka_process.c:416-431` | A queued slot is claimed after at most seven claims of other slots, whatever is submitted meanwhile. |
| `Wakeups.RankStep` | `runtime/medaka_process.c:421-429` | The cyclic-distance measure falls with every claim of another slot and never rises. |
| `Reachable.OwnedIsReachable` | `runtime/medaka_process.c:646-679` | A submitted launch can end up owned: a legal run is exhibited. |
| `Reachable.AbortedIsReachable` | `runtime/medaka_process.c:536-545` | An abort before the worker's scan can end in ABORTED: a legal run is exhibited. |
| `Reachable.FailedIsReachable` | `runtime/medaka_process.c:491-532` | A child that cannot execute its program ends in FAILED with the operation and errno of its record: a legal run is exhibited. |
| `LaunchLocal.AdoptKeeps` | `runtime/medaka_process.c:445-460` | Adoption happens exactly when the slot is DONE; a created launch becomes LAUNCHING, or ABORTING with only its pidfd left if a stop was asked for, a refused one ABORTED or FAILED and REAPED as the worker left it; descriptors move without loss or doubling and no foreign owner or generation is met. |
| `LaunchLocal.HandshakeKeeps` | `runtime/medaka_process.c:491-509` | The launch is owned exactly on end of file before any record byte, and failing exactly on a full record, a partial one or a read error; every pipe is closed once on the way. |
| `LaunchLocal.KillAndReapKeeps` | `runtime/medaka_process.c:510-532` | A child not signalled before is sent SIGKILL, whatever the wait then says; LOST_WAIT exactly when the wait finds no child, ABORTED or FAILED exactly when the child was reaped, ERROR exactly when the wait or a needed kill failed, and each with its reason; every descriptor closed once. |
| `LaunchLocal.CheckStartKeeps` | `runtime/medaka_process.c:481-535` | A check in any state answers the ticket's verdict and keeps its invariant and frame; a pending ticket becomes owned only on end of file and with no stop requested. |
| `LaunchLocal.AbortKeeps` | `runtime/medaka_process.c:536-545` | An abort outside SUBMITTED is refused on an owned ticket, changes nothing on a settled one, and cancels a pending one for good. |
| `LaunchLocal.FinishAbortKeeps` | `runtime/medaka_process.c:537-541` | The abort of a SUBMITTED ticket stays accepted whatever the worker did between the stop request and the adoption. |
| `Outcomes.CheckOutcome` | `runtime/medaka_process.c:481-535` | The exact answer, verdict, reason and kill of a check in any state, for every answer of the kernel: SIGKILL goes to the child exactly when the ticket fails or aborts in this call or did before and was not signalled. |
| `Outcomes.AbortOutcome` | `runtime/medaka_process.c:536-545` | An abort of a pending ticket the worker is done with kills its child at once unless it was signalled before, and its answer is what kill and wait make of it. |
| `Outcomes.AbortEndOutcome` | `runtime/medaka_process.c:536-545` | The end of the abort of a submitted ticket has exactly the outcome of a check. |
| `LaunchLocal.RequestStopKeeps` | `runtime/medaka_process.c:537-539` | The stop request reaches both the ticket and the slot's flag, and leaves a settled ticket alone. |
| `LaunchLocal.ReleaseBreaks` | `runtime/medaka_process.c:435-440` | The first `abort()` is recorded exactly when a slot is given back that is not the ticket's own, or not done. |
| `LaunchLocal.AdoptBreaks` | `runtime/medaka_process.c:445-449` | The second is recorded exactly when the slot adopted from is not the ticket's own. |
| `LaunchLocal.InvalidStateBreaks` | `runtime/medaka_process.c:533-534` | The invalid-state branch is recorded when a pending ticket is in none of the launch states. |
| `Protocol.DupFaults` | `runtime/medaka_process.c:555` | Duplicating a descriptor that is not open is a fault. |
| `Protocol.RoundEnds` | `runtime/medaka_process.c:421-431` | A round that finds nothing sends the worker back to sleep. |
| `Kernel.FaultsAre` | `runtime/medaka_process.c:96-99` | A fault is recorded exactly for closing what is not open, for killing or waiting on anything but the live pidfd of an unreaped child, and for a second delivered kill. |
| `LaunchLocal.PollExitKeeps` | `runtime/medaka_process.c:743-761` | A poll is refused exactly before ownership and after disposal, reports a lost or failing wait, says nothing exactly while the process runs, and gives exactly a reaped process's status, the one its wait learnt. |
| `LaunchLocal.CloseStdinKeeps` | `runtime/medaka_process.c:762-775` | A close is refused exactly before ownership and after disposal and then changes nothing; otherwise the ticket's stdin is closed and gone, nothing else changes, and the answer is the error of the close, if it had one. |
| `LaunchLocal.DisposeKeeps` | `runtime/medaka_process.c:776-788` | Disposal is refused exactly on a launch not owned and on a running process and then changes nothing; otherwise all is closed and the ticket leaves the rooted list, a lost wait or the first failing close is reported, and asking again changes nothing. |
| `Construct.WorkKeeps` | `runtime/medaka_process.c:221-313` | Every step of native construction, success or failure, keeps each descriptor held once, closes all of them on the cleanup path, hands over a live pidfd and handshake pipe exactly when a child was created, and is cancelled only by the stop flag. |
| `Construct.WorkStreams` | `runtime/medaka_process.c:238-264` | Where each stage of construction leads, exactly: on when the stop flag is clear and all was granted, else to the end with that cause; either check of the stop flag cancels, only a successful clone creates a child, and it has a parent's end exactly for the streams asked to be pipes. |
| `Streams.OwnedStreams` | `runtime/medaka_process.c:238-264` | In every reachable state a ticket that launches or is owned and not disposed holds a parent's end for exactly the pipes it asked for, stdin's until someone asks to close it. |
| `Streams.StatusFinal` | `runtime/medaka_process.c:461-480` | Once a process was reaped its ticket keeps the status through every later run, and what a ticket asked for never changes. |
| `Streams.StepMatched` | `runtime/medaka_process.c:411-776` | Every step of every party keeps launch data, slots and tickets in line with what was asked for. |
| `TicketSteps.PutKeeps` | `runtime/medaka_process.c:481-545` | An operation that keeps its own ticket's invariant and frame keeps every other ticket's, slot's and driver's. |
| `WorkerSteps.StepKeeps` | `runtime/medaka_process.c:426-427` | A construction step taken unlocked by the worker keeps the protocol's invariant. |
| `WorkerSteps.ScanKeeps` | `runtime/medaka_process.c:421-425` | A scan step keeps the invariant; a queued slot leaves the queue, alone, and becomes the worker's, and any other leaves all slots as they are. |
| `WorkerSteps.FinishKeeps` | `runtime/medaka_process.c:428-430` | Publishing a finished launch keeps the invariant. |
| `SubmitSteps.FillKeeps` | `runtime/medaka_process.c:656-673` | Filling a free slot keeps the invariant, with the lock held by the submitter. |
| `SubmitSteps.PublishKeeps` | `runtime/medaka_process.c:674-675` | Publishing the slot keeps the invariant and owes the worker one post. |
| `DriverSteps.ResumeKeeps` | `runtime/medaka_process.c:546-577` | A turn of a blocking start, before or after its poll, keeps the invariant; what it goes to poll duplicates an open descriptor of its own pending ticket, the handshake pipe while it launches and its child's pidfd after that. |
| `DriverSteps.WakeUpKeeps` | `runtime/medaka_process.c:560-565` | The duplicate is closed exactly once when the poll returns, without the lock. |
| `DriverSteps.DirectKeeps` | `runtime/medaka_process.c:331-341` | A direct start, from construction to its first wait, keeps the invariant whether or not a child was created. |
| `ProcessObjects.RootList.Root` | `runtime/medaka_process.c:84-88` | Puts a ticket at the head of the doubly linked list and keeps it well formed. |
| `ProcessObjects.RootList.Unroot` | `runtime/medaka_process.c:89-95` | Takes a ticket out of the list, or does nothing if it is not on it, and keeps the list well formed. |
| `ProcessObjects.Process.CloseStreams` | `runtime/medaka_process.c:100-102` | The loop closes the three streams once each and forgets them. |
| `ProcessObjects.Process.Release` | `runtime/medaka_process.c:435-444` | The ticket, slot and abort flag become what the specification function says. |
| `ProcessObjects.Process.Adopt` | `runtime/medaka_process.c:445-460` | In-place adoption refines the specification, and the list loses the ticket exactly when it says so. |
| `ProcessObjects.Process.Observe` | `runtime/medaka_process.c:461-480` | In-place wait refines the specification, in each of the five answers. |
| `ProcessObjects.Process.KillAndReap` | `runtime/medaka_process.c:510-532` | In-place kill and reap refines the specification, unrooting included. |
| `ProcessObjects.Process.CheckStart` | `runtime/medaka_process.c:481-535` | The in-place check refines the specification: same answer, ticket, slot, kernel and list. |
| `ProcessObjects.Process.RequestStop` | `runtime/medaka_process.c:537-539` | The stop request refines the specification. |
| `ProcessObjects.Process.FinishAbort` | `runtime/medaka_process.c:540-545` | The rest of the abort refines the specification. |
| `ProcessObjects.Process.PollExit` | `runtime/medaka_process.c:743-761` | Refines the specification. |
| `ProcessObjects.Process.CloseStdin` | `runtime/medaka_process.c:762-775` | Refines the specification, failing close included. |
| `ProcessObjects.Process.Dispose` | `runtime/medaka_process.c:776-788` | Refines the specification, failing closes and unrooting included. |
| `WorkerObjects.ClaimNext` | `runtime/medaka_process.c:421-431` | The round claims the first queued slot from `next` on and touches no other; with none queued it changes nothing. |
| `WorkerObjects.Submit` | `runtime/medaka_process.c:656-676` | Takes the first acceptable slot, gives it the next generation, its data and its owner, heads the rooted list with the new ticket; with no such slot nothing changes. |
| `WorkerObjects.ConstructNative` | `runtime/medaka_process.c:221-313` | The routine with its loops and cleanup ends exactly where the construction steps end. |
| `RuntimeObjects.Runtime.Check` | `runtime/medaka_process.c:481-535` | On the objects together (slots, tickets, the list's links, the kernel) the check is the protocol's step: what they stand for afterwards is the state after that step, links included. |
| `RuntimeObjects.Runtime.Stop` | `runtime/medaka_process.c:536-539` | Likewise the stop request. |
| `RuntimeObjects.Runtime.AbortEnd` | `runtime/medaka_process.c:540-545` | Likewise the rest of that abort. |
| `RuntimeObjects.Runtime.Abort` | `runtime/medaka_process.c:536-545` | Likewise an abort of any other ticket. |
| `RuntimeObjects.Runtime.PollExit` | `runtime/medaka_process.c:743-761` | Likewise a poll. |
| `RuntimeObjects.Runtime.CloseStdin` | `runtime/medaka_process.c:762-775` | Likewise closing stdin. |
| `RuntimeObjects.Runtime.Dispose` | `runtime/medaka_process.c:776-788` | Likewise disposal. |
| `RuntimeObjects.Runtime.Submit` | `runtime/medaka_process.c:656-676` | A submission is the two steps that fill and queue a slot, and it returns no ticket exactly when the first is not possible. |
| `RuntimeObjects.Runtime.ListExact` | `runtime/medaka_process.c:84-95` | In every reachable state the links thread exactly the tickets whose launch is pending or whose owned process is not disposed, and other tickets have none. |
| `RuntimeObjects.Woven` | `runtime/medaka_process.c:84-95` | Taking a ticket off the linked list and its number off the abstract one keep the two in step. |
| `LaunchInputs.BoundedInputs` | `runtime/medaka_process.c:342-370` | Accepts exactly modes 1 or 3, absolute program and directory, strings without NUL, at most 256 arguments and 256 variables, and at most 65536 bytes with terminators. |
| `LaunchInputs.SizesAdd` | `runtime/medaka_process.c:342-370` | What is counted: every string with its terminator. |
| `LaunchInputs.Snapshot` | `runtime/medaka_process.c:371-410` | Copies accepted options inside the arena and the 258- and 257-entry tables; refuses exactly when a key is empty, contains '=' or repeats; leaves every string and key=value entry in place, each table ended by NULL. |
| `LaunchInputs.PrefixIsKey` | `runtime/medaka_process.c:402-403` | The prefix test on an entry holds exactly when the entry has that key. |
| `LaunchInputs.EntryInjective` | `runtime/medaka_process.c:404-406` | key=value determines key and value. |
| `LaunchInputs.FillSpec` | `runtime/medaka_process.c:123-148` | The direct path accepts exactly modes 1 or 3, absolute program and directory, strings without NUL and non-empty, distinct keys without '='; the child gets program, directory, program followed by the arguments, and key=value for each variable. |
| `LaunchInputs.PathsAgree` | `runtime/medaka_process.c:123-148` | Within the size limits the queued path accepts what the direct path accepts, for the same child. |
| `Utf8.StepAcceptsScalar` | `runtime/medaka_rt.c:866-889` | The stepping table accepts every scalar's encoding, with its length, and decoding gives the scalar back. |
| `Utf8.StepFindsScalar` | `runtime/medaka_rt.c:866-889` | It accepts nothing else. |
| `Utf8.EncodePrefixFree` | `runtime/medaka_rt.c:2040-2049` | Encodings are prefix-free. |
| `Utf8.EncodeAllInjective` | `runtime/medaka_rt.c:2040-2049` | Different texts have different bytes. |
| `Utf8.LeadCountIsLength` | `runtime/medaka_rt.c:846-864` | The number of non-continuation bytes of a text's encoding is its length. |
| `Utf8.BoundaryIsOffset` | `runtime/medaka_rt.c:2229-2240` | In well-formed bytes every lead byte, and the end, is the offset of the code point that many lead bytes in. |
| `Words.CountCodepoints` | `runtime/medaka_rt.c:850-864` | The word-at-a-time counter counts the lead bytes. |
| `Words.BlockRejected` | `runtime/medaka_rt.c:2535-2560` | The two eight-lane masks reject no true candidate. |
| `Cells.CachedCountIsLeadCount` | `runtime/medaka_rt.c:1573-1600` | In a valid cell the cached count is what the counter would return. |
| `Cells.FromOwnBytes` | `runtime/medaka_rt.c:921-938` | A cell made from the program's own bytes is valid and denotes their text. |
| `Cells.Append` | `runtime/medaka_rt.c:1601-1613` | Append denotes concatenation, with the counts added. |
| `Cells.AppendN` | `runtime/medaka_rt.c:1622-1642` | n-ary append denotes the concatenation of its pieces. |
| `Cells.Concat` | `runtime/medaka_rt.c:1539-1559` | Concatenating a list denotes the concatenation of its texts. |
| `Cells.ConcatenationLaws` | `runtime/medaka_rt.c:1539-1559` | The text of a list of cells: nothing, one text, or two lists' texts one after the other. |
| `Cells.Join` | `runtime/medaka_rt.c:2695-2722` | Join denotes the pieces interspersed with the separator. |
| `Cells.IntersperseLaws` | `runtime/medaka_rt.c:2695-2722` | A separator stands between any two parts of a list, and nowhere else. |
| `Chars.DecodeAt` | `runtime/medaka_rt.c:2092-2107` | Decoding at a boundary gives the scalar there and its width. |
| `Chars.ToChars` | `runtime/medaka_rt.c:2108-2139` | The array is sized by the cached count, never overrun, and for a valid cell holds exactly its scalars. |
| `Chars.FromChars` | `runtime/medaka_rt.c:2140-2164` | The cell made from scalars is valid and denotes them. |
| `Chars.CharToString` | `runtime/medaka_rt.c:2054-2057` | A one-character cell denotes its character. |
| `Chars.CellDeterminedByText` | `runtime/medaka_rt.c:2117-2164` | Equal texts make equal cells. |
| `Chars.CharsAndBack` | `runtime/medaka_rt.c:2117-2164` | toChars then fromChars gives back the cell's bytes, byte length and count. |
| `Chars.CellAndBack` | `runtime/medaka_rt.c:2117-2164` | fromChars then toChars gives back the scalars. |
| `Chars.Reverse` | `runtime/medaka_rt.c:2674-2693` | Reverse denotes the reversed sequence of scalars. |
| `Chars.ReversedTwice` | `runtime/medaka_rt.c:2674-2693` | Reversal is its own inverse. |
| `Chars.ReversedAt` | `runtime/medaka_rt.c:2674-2693` | The k-th scalar of the reversal is the k-th from the end. |
| `Cursor.SliceCursor.Locate` | `runtime/medaka_rt.c:2062-2091` | Resumed forwards, backwards or from the start, the cursor finds the code point's true offset, and the cached triple stays a true boundary of its cell. |
| `Cursor.SliceCursor.Slice` | `runtime/medaka_rt.c:2188-2209` | After any earlier calls a slice between two bounds is the scalars between them; a bound before the start or past the end counts as that end, and bounds in the wrong order give the empty text. |
| `Cursor.SliceBytes` | `runtime/medaka_rt.c:2229-2244` | A byte-cursor slice succeeds exactly on code point boundaries in range and order, with exactly the scalars between. |
| `Search.FindBytes` | `runtime/medaka_rt.c:2535-2567` | The first byte match at or after a start, with no candidate wrongly rejected and no read outside the haystack. |
| `Search.MatchIsOccurrence` | `runtime/medaka_rt.c:2535-2567` | Every byte match of a well-formed needle lies on code point boundaries and is an occurrence of its scalars. |
| `Search.IndexOf` | `runtime/medaka_rt.c:2569-2577` | The first occurrence in code points, or none. |
| `Search.LastIndexOf` | `runtime/medaka_rt.c:2612-2628` | The last occurrence in code points, overlapping ones included, or none. |
| `Search.CountOccurrences` | `runtime/medaka_rt.c:2596-2610` | The number of non-overlapping occurrences, leftmost first; 0 for the empty needle. |
| `Search.StartsWith` | `runtime/medaka_rt.c:2579-2588` | Prefix of bytes exactly when prefix of scalars. |
| `Search.EndsWith` | `runtime/medaka_rt.c:2589-2594` | Suffix of bytes exactly when suffix of scalars. |
| `Compare.ByteOrderIsTextOrder` | `runtime/medaka_rt.c:2724-2731` | Byte order of encodings is the lexicographic order of scalars. |
| `Compare.CompareTextLaws` | `runtime/medaka_rt.c:2724-2731` | Eq exactly on equal texts; swapping operands swaps the verdict. |
| `Compare.CompareTextTransitive` | `runtime/medaka_rt.c:2724-2731` | The order is transitive. |
| `Compare.LtIsPrecedes` | `runtime/medaka_rt.c:2724-2731` | One text comes before another exactly when it is a proper prefix or has the smaller code point where they first differ. |
| `Compare.CompareStrings` | `runtime/medaka_rt.c:2724-2731` | memcmp then length decides the order of the texts. |
| `Compare.EqualStrings` | `runtime/medaka_rt.c:981-989` | Equal bytes exactly when equal texts. |
| `Lossy.ValidCount` | `runtime/medaka_rt.c:891-911` | The count of well-formed bytes, -1 for anything else. |
| `Lossy.StepIsMaximalSubpart` | `runtime/medaka_rt.c:866-889` | The table decides which bytes start a scalar and otherwise measures the maximal ill-formed subpart. |
| `Lossy.DecodedIsLossyDecoding` | `runtime/medaka_rt.c:945-974` | The decoding is the one the standard's rule allows: scalars as they are, one U+FFFD per maximal subpart. |
| `Lossy.LossyIdempotent` | `runtime/medaka_rt.c:945-974` | Identity on well-formed bytes, and idempotent. |
| `Lossy.LossySize` | `runtime/medaka_rt.c:949-954` | The sizing pass counts exactly the bytes of the result. |
| `Lossy.LossyWrite` | `runtime/medaka_rt.c:955-973` | The writing pass fills exactly those bytes and counts the result's scalars. |
| `Lossy.FromForeignBytes` | `runtime/medaka_rt.c:939-974` | Any bytes make a valid cell denoting their lossy decoding, well-formed ones verbatim. |
| `IntText.StringToInt` | `runtime/medaka_rt.c:2646-2672` | Answers exactly what the string means, tagged; the two checks before each step reject neither early nor late and no step leaves 64 bits. |
| `IntText.MeaningIs` | `runtime/medaka_rt.c:2646-2672` | A string means an Int exactly when it is one or more digits, alone or after one sign, with that value in -2^62..2^62-1. |
| `IntText.IntToString` | `runtime/medaka_rt.c:1042-1061` | The word 2n+1 is written as the decimal rendering of n, into a valid cell whose count equals its length. |
| `IntText.ParsePrinted` | `runtime/medaka_rt.c:1042-1061` | Parsing the printed form of any Int gives it back. |
| `IntText.RenderIsCanonical` | `runtime/medaka_rt.c:1042-1061` | Of all strings that mean an Int, exactly one is its printed form: a minus exactly for a negative Int, then digits without a leading zero. |
| `IntText.PrintInjective` | `runtime/medaka_rt.c:1042-1061` | Different Ints print differently. |
| `IntText.CountDigits` | `runtime/medaka_rt.c:1045-1047` | The power-of-ten loop counts the digits and never wraps. |
| `Closures.ApplySplits` | `runtime/medaka_rt.c:288-315` | Applying to xs then ys is applying once to xs ++ ys, effects included, through under-, exact and over-application. |
| `Closures.GroupingIrrelevant` | `runtime/medaka_rt.c:288-315` | However the arguments are grouped, result and effects are those of one application. |
| `Closures.UnderApplicationWaits` | `runtime/medaka_rt.c:275-308` | Too few arguments build one flat partial application and run no code. |
| `Closures.ExactApplicationRuns` | `runtime/medaka_rt.c:253-307` | With as many arguments as the arity, captured ones first and in order, the code runs once and its result is the answer. |
| `Closures.OverApplicationContinues` | `runtime/medaka_rt.c:309-315` | With more, the code runs on the first arity-many and its result is applied to the rest in the state it left. |
| `Closures.Apply` | `runtime/medaka_rt.c:288-315` | Application terminates because each over-application consumes new arguments, and its result never nests a partial application nor holds as many arguments as the arity. |
| `Closures.ApplyWords` | `runtime/medaka_rt.c:288-315` | The version with argument buffers computes that application. |
| `CommandBatch.RunBatch` | `runtime/medaka_rt.c:3645-3714` | Never more than `jobs` children, and never a wait while more could be started; rows are tried in input order, EAGAIN final only when no child of the batch runs; each child is waited for by its own pid alone, no other process is, and none is left; every row is settled once: by its own child's exit code, by 128 plus the signal, by the failed wait, or by its own failed start; each sweep-reaching pass lowers 2*(unstarted)+running. |
| `CommandBatch.NeverTooMany` | `runtime/medaka_rt.c:3671-3682` | A trace in order never has more than `jobs` children running. |
| `CommandBatch.Outcomes` | `runtime/medaka_rt.c:3583-3608` | Read off the trace: the result of a row is what happened to its own child, or its own failed start. |
| `CommandBatch.System.Start` | `runtime/medaka_rt.c:3540-3583` | Starting answers 0 with a new pid, -1 without temporary files, and fork's errno otherwise. |
| `CommandBatch.EveryChildReaped` | `runtime/medaka_rt.c:3688-3704` | When no child is left, each that was started has been reaped, and that settled the row it was started for. |
| `CommandBatch.StartRows` | `runtime/medaka_rt.c:3671-3682` | Starting rows while there is room keeps the child table naming exactly the running children, each in its own row, and the results of the settled rows. |
| `CommandBatch.Sweep` | `runtime/medaka_rt.c:3688-3701` | A sweep waits for each running child by its own pid, gives the row of each one that is gone its own result, touches no foreign child, and settles a row or uses up an answer. |
| `Base58.EncodeOfDecode` | `pds/tools/did_key_corpus_check.py:40-56` | Encoding the decoding of a non-empty text over the alphabet gives it back, any number of leading ones included. |
| `Base58.DecodeOfEncode` | `pds/tools/did_key_corpus_check.py:40-56` | Decoding the encoding of non-empty bytes gives them back, leading zeros and the all-zero case included. |
| `Base58.DecodedIs` | `pds/tools/did_key_corpus_check.py:40-48` | The decoded bytes have the value of the text in base 58 and as many leading zeros as the text has leading ones. |
| `Base58.EncodedIs` | `pds/tools/did_key_corpus_check.py:51-56` | The encoded text has the value of the bytes and as many leading ones as they have leading zeros. |
| `Base58.TextValueIs` | `pds/tools/did_key_corpus_check.py:43-45` | A letter counts for its place in the alphabet, the last letter for the units. |
| `Base58.Decode` | `pds/tools/did_key_corpus_check.py:40-48` | The decoding loop, its checks, and the byte length it computes. |
| `Base58.Encode` | `pds/tools/did_key_corpus_check.py:51-56` | The encoding loop. |
| `Base58.AlphabetIs` | `pds/tools/did_key_corpus_check.py:24` | The alphabet's characters. |
| `Positional.BytesNeeded` | `pds/tools/did_key_corpus_check.py:46` | (bit_length + 7) // 8 bytes are exactly enough. |
| `DerSignature.AcceptsExactly` | `pds/tools/normalize_wycheproof_signing.py:79-109` | A byte string yields (r, s) exactly when it is the one minimal encoding of that pair, both strictly between 0 and the order. |
| `DerSignature.AcceptsEncodings` | `pds/tools/normalize_wycheproof_signing.py:79-109` | It is accepted exactly when it is the encoding of some pair in range. |
| `DerSignature.AcceptsLayout` | `pds/tools/normalize_wycheproof_signing.py:55-109` | A sequence 0x30 of two INTEGERs 0x02 with short lengths and least contents yields the pair of their values exactly when both lie strictly between 0 and the order. |
| `DerSignature.AcceptsOnlyLayout` | `pds/tools/normalize_wycheproof_signing.py:55-109` | Nothing else is accepted. |
| `DerSignature.EncodingUnique` | `pds/tools/normalize_wycheproof_signing.py:55-109` | No pair has two encodings and no encoding two pairs. |
| `DerSignature.ReadIntIs` | `pds/tools/normalize_wycheproof_signing.py:55-77` | One INTEGER is read exactly where a tag, a short length and that many minimal content bytes stand. |
| `DerSignature.FixedWidth` | `pds/tools/normalize_wycheproof_signing.py:109` | The 32-byte form keeps the value. |

## Left out

- Weak memory: release and acquire phase changes are sequentially consistent steps.
- Descriptor numbers: a descriptor is a token never reused, so a second close shows; the kernel's reuse of numbers is not modelled.
- Direct starts: `process_begin` builds its child in one step with respect to the other parties, its native memory being private to the caller.
- Pipes: `make_pipe` yields both ends or neither, and `move_fd` is part of opening; a pipe that cannot be made non-blocking is modelled.
- The child's side of clone3: signal resets, dup2, chdir and execve show only as the handshake record or its absence.
- Capability and SIGCHLD checks: one answer, the failure they report.
- `mdk_process_submission_init`, the trylock refusals and the non-Linux branches: they change nothing.
- Error messages and the boxing of results.
- Process stream reads and writes: they open and close nothing.
- `fill_spec`'s SIZE_MAX checks and allocation failures.
- LaunchInputs.BoundedInputs: strings are sequences, so a negative length word is not modelled.
- The cell's tag word and the NUL after its bytes, the allocator and the collector.
- The negative-codepoint branch of fromChars: characters are Unicode scalars.
- String literals minted by the compiler, float printing and the other runtime calls.
- Closures.ApplyWords: arities above 8, and the choice between stack and heap for the buffer.
- CommandBatch.RunBatch: captured output, temporary files, sleeping and the SIGCHLD disposition; there are finitely many unfinished waits, so every child ends, and a wait that fails is taken to mean the child is gone.
- RuntimeObjects.Runtime.Check: the worker's own steps are related to its code in `WorkerObjects`, one at a time, not on the objects together; blocking starts exist only as steps.
- DerSignature.AcceptsExactly: starts from bytes; `bytes.fromhex` is not modelled.
- Base58.Decode: the failed checks are one `None`, without their messages.
- `s_class`, `project` and the corpus row loops: they only compare and format fields.
