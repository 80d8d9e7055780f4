# Kickmsg in Dafny

Kickmsg passes messages between processes through shared memory without locks.  This project
models the protocols its C++ core runs there and proves what they promise:

- **the channel** (`src/Publisher.cc`, `src/Subscriber.cc`, the recovery passes of
  `src/Region.cc`): publishers, subscribers, sample views, repairers and the ring reclaimer over
  rings of entries and a pool of reference-counted slots;
- **the Blackboard** (`src/Blackboard.cc`): a two-cell seqlock per key, copied word by word, under a
  board lock that passes from dead holders;
- **the registry row** (`src/Registry.cc`): registrants, owners that deregister, sweepers and snapshots;
- **the region** (`src/Region.cc`, `src/types.cc`): layout arithmetic, the packed words, the free
  stack, and operator recovery;
- **handles and wake-ups**: slot reservations, and the two parking protocols.

`dafny verify dfyconfig.toml` checks everything.

## How the protocols are modelled

Concurrent code is a state machine.  One step is one atomic access of shared memory by one
participant: a participant's step function computes its next local state and the access, and
`Perform` carries the access out.  Participants are interleaved arbitrarily and may stop for ever
between any two accesses.  Timeouts and retry budgets are nondeterministic choices, so nothing
proved depends on how long anything takes.  Single-threaded code that works on arrays and objects
(recovery, reservation, word copying) is written as methods on arrays and classes.

Two kinds of promise are proved.  Safety: what holds in every state of every run, whoever stops
where.  And what an operation achieves from any reachable state when nobody else runs: the result is
given for every input, and `AloneRuns` shows that what is done alone continues a run.  Left alone, a
timeout strikes only on something that does not change.

Ghost-like components of a state (`log`, `stolen`, `committed`, `hist`, `keyOf`, `issued`, `regs`,
`holder`, `clean`, the abstract `stack`) are history: no step reads them to decide anything.

| file | what it holds |
|---|---|
| `ChannelModel` | the channel's state, accesses and step functions: `PubNext` (allocate, publish, self_repair, abandon_delivery), `SubNext` (constructor, try_receive_view, release_ring, drain_unconsumed), `ViewNext`, `RepNext` (repair_locked_entries), `RecNext` (reclaim_dead_rings) |
| `ChannelShape` ... `ChannelSafety` | the invariants, one concern a file, and their preservation |
| `ChannelGuarantees` | the channel's promises, stated on runs |
| `ChannelServes`, `ChannelLosses` | what became of every ring of a publish and of every position a subscriber passed, stated on runs |
| `ChannelAttempt`, `ChannelPublish`, `ChannelReceive`, `ChannelReading`, `ChannelAlone` | what each operation achieves when it is left alone |
| `ChannelLateThief` | a run that breaks view integrity when assumption (H) below does not hold |
| `BoardModel` | the Blackboard's state, accesses and step functions for keepers (lock, repair, declare, sweep, release, write) and readers |
| `BoardKeys` ... `BoardReads` | its invariants and their preservation |
| `BoardGuarantees` | the Blackboard's promises, stated on runs |
| `BoardActive`, `BoardLastRead`, `BoardResolve` | a read left alone, from its call to its outcome |
| `BoardAlone`, `BoardDeclare`, `BoardWrites` | the lock with its repair, declare, write, sweep and release left alone |
| `RegistryModel`, `RegistryRows`, `RegistryGuarantees`, `RegistryAlone` | the registry row |
| `FreeStack` | the tagged Treiber stack and its abstract stack |
| `RepairSpec`, `Recovery`, `Orphans` | recovery of a quiescent channel |
| `Bits`, `ClaimWord`, `Layout`, `SharedWords` | words, masks, layout, word-by-word copies |
| `Reservation` | publishers and slot handles as objects |
| `BoardWake`, `RingWake` | parking and waking |
| `Sums`, `Modulo` | sums over sequences, division |

## Assumptions

- Memory is sequentially consistent.
- A death verdict is truthful, stable and taken in one step; process identities and board tokens
  are unique.
- Counters do not wrap inside one critical window.  Where the width matters it is explicit:
  `Timely` in `FreeStack`, `BoardWake` and `RingWake`, `Fits` in `BoardReads`, the distance bound of
  `ClaimWord.ClaimOrder`.  Each of the first two has a lemma showing the assumption is needed.
- **(H)** A thief's write of a sequence word, the repair lock and the skip marker after it, never
  moves the word back to an older position (`ChannelViews.ForwardAcc`).  Neither `self_repair`
  (`src/Publisher.cc:412-425`) nor the grace pass (`src/Region.cc:700-706`) compares positions, and the
  skip marker is a plain store (`src/types.cc:129`).  Theorems that need (H) say so;
  `ChannelLateThief.LateSkipBreaksViews` is a run without it in which a view shows another sample.
- At most one `reclaim_dead_rings` pass runs at a time.
- Every participant runs this code.

## Where the code does less than it says

- `Registry::snapshot` (`src/Registry.cc:309-351`) is documented to return Active rows with a stable
  even generation.  It reads the state twice and the generation twice, but not together: a row
  retired after the first state read and registered again before the last is returned with its
  identity cleared.  `RegistryGuarantees.RetiredRowReturned` is such a run, and
  `RegistryGuarantees.SnapshotWholeUnlessRetired` shows that a returned row is the whole of one
  registration exactly when its pid is not 0, which a caller can test.
- View integrity without (H), as above.

## Model

| member | source | states |
|---|---|---|
| ChannelGuarantees.ReferencesConserved | src/Publisher.cc:141-329 | at every point of every run, crashes and thefts included, a slot's refcount is the number of entries claiming it, unreleased views, and references publishers and subscribers still hold or owe |
| ChannelRefs.PubBalance | src/Publisher.cc:220-329 | every access of a publisher changes a slot's refcount, its claims and the publisher's own share by the same amount |
| ChannelRefs.SubBalance | src/Subscriber.cc:410-447 | the same for a receiving or draining subscriber |
| ChannelRefs.ViewBalance | include/kickmsg/Subscriber.h:134-146 | the same for the release of a view |
| ChannelRefs.StepKeepsRefs | src/Publisher.cc:431-445 | every step keeps conservation and the idle partition |
| ChannelGuarantees.IdleInOnePlace | src/Publisher.cc:98-145 | a slot has refcount 0 exactly when it is on the free stack, reserved, or about to be pushed, in one of these places and once |
| ChannelGuarantees.PushedOnce | src/Publisher.cc:439-444 | a slot is pushed only while off the stack with no claim, view or share left: by one party, once |
| ChannelGuarantees.PoppedUnreferenced | src/Publisher.cc:98-116 | a popped slot has no reference anywhere |
| ChannelGuarantees.CommittedOnce | src/Publisher.cc:298-306 | a committed word replaces its own position's lock, which was never stolen and never committed before |
| ChannelGuarantees.StolenNeverCommitted | src/types.cc:118-131 | once a position's lock is stolen that position is never committed, however late its publisher resumes |
| ChannelGuarantees.HistoryLasts | src/types.cc:118-131 | thefts and commits are never undone |
| ChannelGuarantees.ClaimsGoForward | src/Publisher.cc:268-289 | an entry's claim is replaced only by a later position's, or cleared by the drain |
| ChannelLocks.WriteKeeps | src/Publisher.cc:228-249 | a sequence word always comes from a position that was handed out, and a write keeps every word and history so |
| ChannelGuarantees.AdmissionCounted | src/Publisher.cc:155-192 | in_flight is the number of admitted publishers, and none is admitted on a ring whose owner saw it quiesce |
| ChannelRings.QuiescedMeansNoPublisher | src/Subscriber.cc:88-115 | after Draining is seen with in_flight 0 no publisher touches the ring until it is Live again |
| ChannelGuarantees.QuiescedRingsLeakNothing | src/Subscriber.cc:532-589 | a Free ring whose tenancies all ended quiesced holds no slot claim |
| ChannelDrain.SubKeepsTenancies | src/Subscriber.cc:66-134 | constructor, drain and release keep the account of which claims a tenancy left behind |
| ChannelGuarantees.ViewIntegrity | src/Subscriber.cc:376-465 | (H) an unreleased view of a position pins the slot and length committed there; the slot is referenced, off the stack, in no publisher's hands and still carries that payload |
| ChannelViews.PubCareful | src/Publisher.cc:131-145 | a publisher rewrites only a slot with no references |
| ChannelSafety.StepKeepsInv | src/Publisher.cc:118-338 | the invariants that need no assumption are inductive over every step of every participant |
| ChannelSafety.StepKeepsIntegral | src/Subscriber.cc:345-468 | (H) sequence words, claims, payloads and views stay consistent over every step |
| ChannelSafety.RunKeepsInvH | src/Region.cc:640-714 | (H) both hold at every point of a run whose thieves never move a word back |
| ChannelSafety.StampedRegion | src/Region.cc:125-210 | the region a creator stamps, with any participants, is a start of runs |
| ChannelLateThief.LateSkipBreaksViews | src/types.cc:118-131 | without (H) there is a run ending in an unreleased view whose slot carries another payload than was committed there |
| ChannelGuarantees.EveryPositionAccounted | src/Subscriber.cc:353-465 | positions advanced are views delivered plus positions counted lost |
| ChannelGuarantees.DeliveredInOrder | src/Publisher.cc:192-192 | (H) delivered positions strictly increase, and two samples of one publisher come out in publish order |
| ChannelGuarantees.NullMeansEmptyHead | src/Subscriber.cc:355-391 | a receive without sample and without loss met an empty or uncommitted head |
| ChannelServes.EveryRingServed | src/Publisher.cc:151-319 | when a publication is over, whatever else ran, each ring was found not Live, or handed it a position that it claimed or gave up for a cause: not lockable, lock stolen, or a claim as new already there |
| ChannelServes.PubServeMove | src/Publisher.cc:151-319 | the publish loop leaves a ring only after one of these, and ends only after the last ring |
| ChannelPublish.PublishReachesEveryRing | src/Publisher.cc:118-338 | from every reachable state a publisher left alone with a filled slot finishes; every Live ring gave it one position, committed and recorded with this publication's slot, length and payload where the entry was lockable, mended where it was residue; nothing else changed |
| ChannelPublish.CommittedEverywhere | src/Publisher.cc:192-306 | then every lockable entry of every Live ring holds the committed position and the claim of the slot, and a mended one can be locked by the next wrap |
| ChannelAttempt.Mends | src/Publisher.cc:406-429 | self_repair leaves a stale word, or a lock unchanged over the whole wait, as the skip marker of its position, and newer words alone |
| ChannelAttempt.AloneRuns | src/Publisher.cc:118-338 | what a publisher does alone continues any run that leads there |
| ChannelLosses.EveryLossHasACause | src/Subscriber.cc:353-460 | every position between a subscriber's first and its read position was delivered, or was seen to be overrun by more than the capacity, skip-marked, replaced, unclaimed, recycled, moved before the check, or overlong |
| ChannelLosses.CauseHolds | src/Subscriber.cc:364-460 | what is passed for such a cause could not be delivered at that step |
| ChannelLosses.NothingOlderDelivered | src/Subscriber.cc:34-56 | a subscriber is given only positions handed out after it had the ring |
| ChannelReading.Receives | src/Subscriber.cc:345-468 | one try_receive_view alone delivers the first deliverable position of the window, everything before it being lost, and returns nothing only at the end, at a head still being written, or after 64 tries |
| ChannelReading.EveryDeliverableIsDelivered | src/Subscriber.cc:345-468 | from every reachable state a living subscriber left alone is given a view of every deliverable position of the window, in order, up to the end or the first head still being written; only the others are counted lost |
| ChannelReading.WindowIsEveryPosition | src/Subscriber.cc:364-370 | that sequence of views leaves out no deliverable position |
| ChannelReading.CommittedIsDeliverable | src/Subscriber.cc:376-460 | (H) a committed position in the window whose claim was not drained is deliverable |
| ChannelAlone.AttachTakesTheRing | src/Subscriber.cc:28-57 | a Free ring without admitted publishers, tried by a subscriber left alone, becomes Live and its own, read from write_pos |
| ChannelAlone.LeavingFreesTheRing | src/Subscriber.cc:66-134 | a subscriber that finds no admitted publisher leaves the ring Free, unowned, and without a claim at any position of its tenancy still in it |
| ChannelAlone.TimeoutKeepsTheCount | src/Subscriber.cc:88-131 | a subscriber whose wait runs out leaves the ring Free and unowned with its count kept and its entries untouched |
| ChannelAlone.DrainedEach | src/Subscriber.cc:553-587 | the drain clears the claim of every position of its window and touches no other |
| ChannelAlone.ReclaimFreesTheRing | src/Region.cc:741-813 | a reclaim pass left alone makes a dead owner's ring Free and unowned from Live, Draining or Reclaiming, and keeps its count |
| ChannelAlone.RepairMarksTheEntry | src/types.cc:118-131 | a repairer left alone turns a stuck entry into its position's skip marker and changes no other entry |
| ChannelOrder.OrderKept | src/Publisher.cc:192-192 | a publisher's later publication never takes an earlier position of a ring |
| FreeStack.StepRefines | src/types.cc:133-183 | each successful CAS is one push or pop of the abstract stack and nothing else changes it, also when next_free is rewritten between a popper's load and its CAS |
| FreeStack.RunRefines | src/types.cc:133-183 | over a run the chain from free_top is acyclic, duplicate-free and holds exactly the slots no thread owns |
| FreeStack.PushAlone | src/types.cc:133-144 | a push with nobody racing puts the slot on top of the abstract stack |
| FreeStack.PopAlone | src/types.cc:146-183 | a pop with nobody racing hands its thread the top of a stack that is not empty |
| FreeStack.ChainUnique | src/types.cc:133-144 | the words determine the abstract stack |
| FreeStack.UntimelyPopBreaks | include/kickmsg/types.h:447-456 | a pop whose CAS comes 2^32 swaps after its load can install a stale chain |
| FreeStack.StampedStack | src/Region.cc:190-195 | the stack built by stamping every slot is a start of runs |
| BoardGuarantees.OneLivingHolder | src/Blackboard.cc:158-201 | of the living at most one keeper is inside the board lock, and the lock names its process |
| BoardGuarantees.KeysStayUnique | src/Blackboard.cc:668-764 | whenever the lock is free, or its living holder has repaired the board and is between entries, every entry in use is Active with its key's fingerprint and no two hold one key, wherever earlier holders died |
| BoardGuarantees.PublishedKeysUnique | src/Blackboard.cc:261-307 | at every moment, mid-repair included, no two entries a reader could match hold one key |
| BoardHolder.NormHolds | src/Blackboard.cc:261-290 | normalising one entry keeps what the holder knows of the board and touches no live Writer's entry |
| BoardHolder.TakeHolds | src/Blackboard.cc:668-702 | a takeover touches only an unowned entry or a dead owner's |
| BoardHolder.ClaimHolds | src/Blackboard.cc:707-740 | a claim turns a Free entry Active only with its key, owner, fingerprint and a new tenancy in place, and no rival |
| BoardHolder.ReclaimHolds | src/Blackboard.cc:1344-1346 | a sweep frees only entries of dead owners, tenancy first |
| BoardHolder.ReleaseHolds | src/Blackboard.cc:915-925 | a release gives up the Writer's own entry and leaves it Active |
| BoardHolder.RepairHolds | src/Blackboard.cc:292-298 | after repair nothing needs normalising |
| BoardLockKept.KeeperKind | src/Blackboard.cc:158-201 | a living keeper's step is work inside the lock, an unlock, an entry, or its own Writer's store |
| BoardWriters.KeeperKeepsKeys | src/Blackboard.cc:644-764 | every step of every keeper keeps lock, keys and Writers in order |
| BoardGuarantees.TenancyIssuedOnce | src/Blackboard.cc:697-702 | a tenancy number is handed to a Writer at most once |
| BoardGuarantees.OneHandlePasses | src/Blackboard.cc:858-866 | at most one handle, of the living or the dead, can pass write()'s check of an entry |
| BoardGuarantees.ClaimStands | src/Blackboard.cc:831-888 | a living Writer's entry stays Active, its own, at its tenancy and its write count |
| BoardGuarantees.ValueContinues | src/Blackboard.cc:685-702 | while an entry is Active, through release, takeover and deaths, publish never goes back and no step touches the cell of the last completed value, a takeover's first write included |
| BoardGuarantees.LastValueStands | src/Blackboard.cc:868-885 | in every reachable state the last completed value is whole in its cell |
| BoardLastRead.LastValueReadable | src/Blackboard.cc:991-1070 | from every reachable state, a writer dead half way included, a reader left alone returns the last completed write in full |
| BoardActive.RunKeepsActive | src/Blackboard.cc:707-740 | at every moment no two Active entries, residue included, hold one key, so a cached resolution that stands names the one entry of its key |
| BoardResolve.Scans | src/Blackboard.cc:961-993 | a scan left alone resolves the first Active entry with the key's fingerprint and text, whatever stands before it, or finds that none has them |
| BoardResolve.ReadFindsTheKey | src/Blackboard.cc:946-1070 | from every reachable state a read left alone from its call ends with the last completed value of the entry published under its key, or "no message" if it was never written, and with "no such key" exactly when none is published and no earlier resolution stands |
| BoardAlone.TakesTheLock | src/Blackboard.cc:158-201 | a keeper left alone takes a free or dead holder's lock and starts its operation on a board where residue, and only residue, has become Free |
| BoardDeclare.DeclareGetsTheKey | src/Blackboard.cc:644-764 | from every reachable state with the lock free or its holder dead, a declare left alone ends with a Writer of the key's entry if that is unowned or a dead owner's, value and count kept; with none and the board untouched if the owner lives; and for a new key with a Writer of a Free entry, else of one a sweep frees, else none |
| BoardWrites.WriteCompletes | src/Blackboard.cc:831-888 | from every reachable state a living Writer's write left alone completes, changing only the entry's spare cell and publish word |
| BoardWrites.WrittenIsRead | src/Blackboard.cc:831-1070 | a reader of that key left alone afterwards gets the written length, stamp and words, numbered by the write |
| BoardWrites.SweepFreesTheDead | src/Blackboard.cc:1321-1349 | a sweep left alone frees exactly the entries of dead owners, and counts them |
| BoardWrites.ReleaseLeavesTheValue | src/Blackboard.cc:915-925 | a living Writer's release left alone leaves the entry Active with its value, unowned, at a tenancy no handle fits |
| BoardGuarantees.ReadsAreCoherent | src/Blackboard.cc:946-1070 | what a read returns is the length, stamp and words of the one completed write it is numbered for, under a key with the text asked for, whatever ran between any two words copied |
| BoardReads.CellStands | src/Blackboard.cc:1049-1055 | the cell being copied holds its value until the write after next begins |
| BoardReads.Behind | src/Blackboard.cc:1049-1055 | the unsigned difference rejects a publish word that was reset as surely as one too far ahead |
| BoardValues.KeeperKeepsValues | src/Blackboard.cc:868-885 | every keeper's step keeps both cells, the record of writes and every write in progress |
| BoardValues.WriteProgress | src/Blackboard.cc:868-885 | each store of a write keeps what the stores before it put in the cell |
| BoardGuarantees.StampedBoard | src/Blackboard.cc:449-480 | the board a creator stamps, with any participants, is a start of runs |
| RegistryGuarantees.OddHasOneHolder | src/Registry.cc:49-60 | an odd generation has exactly one holder, an owner or a sweeper; an even one has none |
| RegistryGuarantees.SweepsRetireTheDead | src/Registry.cc:412-477 | a sweep that changes a row retires a registration whose process is dead, at the generation it checked |
| RegistryGuarantees.RegistrationStands | src/Registry.cc:201-249 | the registration of a living owner stands, complete and Active, until it deregisters |
| RegistryAlone.RegisterAlone | src/Registry.cc:194-249 | a Free row nobody else wants becomes the whole registration, published by the next even generation |
| RegistryAlone.DeregisterAlone | src/Registry.cc:272-307 | a registration withdrawn by its owner leaves a Free row without identity |
| RegistryAlone.SweepAlone | src/Registry.cc:412-477 | a sweep alone retires a registration of the dead, and leaves one of the living as it is |
| RegistryAlone.LivingAreShown | src/Registry.cc:309-351 | in every reachable state a snapshot left alone returns a living owner's registration, whole |
| RegistryGuarantees.SnapshotWholeUnlessRetired | src/Registry.cc:309-351 | a row a snapshot returns is the whole of one registration exactly when its pid is not 0 |
| RegistryGuarantees.RetiredRowReturned | src/Registry.cc:309-351 | there is a run in which a snapshot returns a row that is no registration |
| RegistryRows.OwnerKnows | src/Registry.cc:272-307 | registering and deregistering step by step keep what the owner knows of its row |
| RegistryRows.StepKeepsInv | src/Registry.cc:17-60 | every step of owners, sweepers and snapshots keeps the row's invariant |
| RepairSpec.RepairedAt | src/Region.cc:640-714 | repair turns every stuck entry of a window into the skip marker of its position and leaves the rest |
| RepairSpec.RepairAgreesWithDiagnosis | src/Region.cc:575-611 | the two passes repair as many entries as diagnose counts, and a second repair finds none |
| RepairSpec.WindowApart | src/Region.cc:588-596 | positions of one window never share an entry |
| Recovery.Region.Diagnose | src/Region.cc:575-638 | the report counts stuck entries and retired, draining, dead and live rings |
| Recovery.Region.RepairLockedEntries | src/Region.cc:640-714 | returns what diagnose counted before, and leaves nothing to repair |
| Recovery.Region.ResetRetiredRings | src/Region.cc:716-739 | exactly the Free rings with a count lose it and their owner; returns their number |
| Recovery.Region.Checkup | include/kickmsg/Region.h:202-211 | repair, repair again, reset: the second repair returns 0 and diagnose then reports no locked entry and no retired ring |
| Orphans.Pool.CountClaims | src/Region.cc:994-1013 | counts, for every slot, the entries of every ring that claim it |
| Orphans.Pool.WalkStack | src/Region.cc:1015-1026 | marks exactly the slots the chain from free_top reaches |
| Orphans.Pool.ReclaimOrphanedSlots | src/Region.cc:989-1051 | from any well-formed free stack and any refcounts, every slot ends once on the stack, or off it with a refcount equal to its positive number of claims; returns the number of slots added |
| Orphans.Pool.Push | src/types.cc:133-144 | treiber_push with nobody racing puts the slot on top of a well-formed chain |
| Layout.StampAccepted | src/Region.cc:74-122 | for every accepted config the stamped header passes validate_snapshot |
| Layout.LayoutExact | src/Region.cc:74-122 | for every config compute_layout accepts no sum or product wraps at 64 bits |
| Layout.AreasDisjoint | src/Region.cc:225-355 | for every accepted header the header, the creator name, the blob, the rings and the slots lie inside total_size and never overlap |
| Layout.StampHolds | src/Region.cc:74-122 | a stamped region has a ring of the asked capacity for each subscriber, a slot of the asked payload for each message, the name and the whole blob in areas of their own, up to total_size and no further |
| Layout.ConfigChecksExact | src/Region.cc:12-60 | validate_config passes exactly the configurations whose stamped header an opener accepts and whose blob fits and has a schema |
| Layout.LayoutComplete | src/Region.cc:74-122 | compute_layout refuses no validated configuration whose region stays a cache line clear of 2^64, and takes exactly the size that plain arithmetic gives |
| Layout.StrideChecksExact | src/Region.cc:312-333 | the validator's own stride checks do not wrap, because the capacity is a power of two |
| Layout.EntriesInside | src/types.cc:51-78 | entries follow one another inside their ring, and the payload fills the end of its slot |
| Layout.MaskIndexes | include/kickmsg/types.h:442-445 | `pos & mask` of an accepted header is the position modulo the capacity |
| Layout.Aligned | include/kickmsg/types.h:437-440 | align_up gives the next multiple of the cache line |
| Bits.PowerOfTwoTest | include/kickmsg/types.h:442-445 | `n & (n - 1)` is 0 for exactly the powers of two |
| ClaimWord.ClaimOrder | include/kickmsg/types.h:339-345 | for positions less than 2^39 apart meta_precedes holds exactly when the claim is older, across any wrap of the tag |
| ClaimWord.ClaimOrderLimit | include/kickmsg/types.h:339-345 | at a distance of exactly 2^39 it holds in both directions |
| ClaimWord.ClaimRoundTrip | include/kickmsg/types.h:327-337 | every slot index below MAX_POOL_SIZE comes back out of the claim beside its tag |
| ClaimWord.SequenceWord | include/kickmsg/types.h:48-67 | lock bit, skip pattern and position of every sequence word read back what was encoded |
| ClaimWord.EncodingUnique | include/kickmsg/types.h:48-67 | different sequence words have different encodings |
| ClaimWord.Admission | include/kickmsg/types.h:386-393 | adding IN_FLIGHT_ONE admits one publisher and leaves the ring state |
| ClaimWord.TaggedRoundTrip | include/kickmsg/types.h:447-456 | generation and index come back out of a tagged word |
| SharedWords.StoreWords | src/types.cc:16-32 | the words hold exactly the bytes, the last one zero-padded, and words beyond are untouched |
| SharedWords.LoadWords | src/types.cc:34-49 | the bytes come from their words, and bytes beyond are untouched |
| SharedWords.StoredIsLoaded | src/types.cc:16-49 | what was stored is what is loaded, for every length |
| Reservation.Publisher.Allocate | src/Publisher.cc:98-116 | the previous reservation is superseded even when the pool is empty; every older handle is invalid |
| Reservation.Publisher.Publish | src/Publisher.cc:118-135 | the pending slot goes to the rings, or back to the pool when too long, and no other way |
| Reservation.Publisher.Send | src/Publisher.cc:340-357 | the result code, which slot is delivered, and that a length that cannot fit leaves even the pending reservation alone |
| Reservation.Publisher.MoveFrom | include/kickmsg/Publisher.h:76-92 | a move invalidates every handle of the source and puts its slot back on the pool |
| Reservation.Publisher.MoveAssign | include/kickmsg/Publisher.h:93-112 | an assignment invalidates every handle of both sides and puts both slots back; to itself it changes nothing |
| Reservation.AllocatedSlot.Drop | src/Publisher.cc:35-41 | a valid handle's slot goes back, an invalid one's destruction changes nothing |
| Reservation.AllocatedSlot.MoveFrom | src/Publisher.cc:43-51 | the moved-to handle is valid exactly as the source was, and the source is not |
| Reservation.AllocatedSlot.MoveAssign | src/Publisher.cc:53-69 | what the target still reserved goes back first |
| Reservation.AllocatedSlot.Publish | src/Publisher.cc:87-96 | a valid handle's slot is published or returned, once, and the handle is used up |
| Reservation.OneValidHandle | src/Publisher.cc:71-75 | at most one handle of a publisher is valid, and it names the pending slot, which is nowhere else |
| BoardWake.NoLostWakeup | src/Blackboard.cc:1110-1143 | nobody sleeps on an old change_seq unless a writer past its bump is still on its way to the wake, and a wait reports a change only after one |
| BoardWake.WaitsForAChange | src/Blackboard.cc:1110-1143 | a wait alone on an old count returns success at once, on the current count it parks, registered |
| BoardWake.TimedOutUnchanged | src/Blackboard.cc:1117-1126 | timed_out is returned only by a look that found the count unchanged |
| BoardWake.WokenLooksAgain | src/Blackboard.cc:1128-1141 | a waiter that wakes unregisters and looks again |
| BoardWake.WrappedCounterMissed | include/kickmsg/os/Futex.h:11-14 | after exactly 2^32 bumps a waiter parks on the old value with nobody to wake it |
| RingWake.NoLostWakeup | src/Subscriber.cc:223-257 | the subscriber is never parked, or armed with an unreadable descriptor, after write_pos moved or with a position left to read, unless a publisher past its claim still owes that wake; has_waiter is set only while it waits |
| RingWake.ParksOnlyAtTheEnd | src/Subscriber.cc:310-335 | alone, a receive parks, and an arm_wait arms, exactly when the ring is read to its end |
| RingWake.PublishKeeps | src/Publisher.cc:12-22 | claim, look at has_waiter and wake keep that promise at every step |

## Left out

- The count publish() returns, and the counters `dropped_count`, `steal_count`, `lost_count` and
  `drain_timeouts_`, which nothing else reads.
- The order in which a constructing subscriber tries the rings: `ChannelAlone.AttachTakesTheRing` is about any one it tries.
- Weak-memory ordering and fences: steps are sequentially consistent.
- The OS layer (`src/os`): mapping, futexes, sockets, clocks and process probing appear as atomic
  compare-and-park, choices and the set of dead processes.
- Concurrent `reclaim_dead_rings` passes, `reset_retired_rings` under a live publisher and
  `reset_schema_claim` under a live claimant, which their preconditions exclude.
- `src/Node.cc`, `src/WaitAny.cc`, multicast backends, naming, hashing, schema digests, bindings and tools: composition and I/O
  over the cores.
- Process identity is one value: the pid and start-time stores of an owner change are one step in
  `ChannelModel` and `BoardModel` (in `RegistryModel` they are two).
- The free stack inside `ChannelModel` is the set of slots that `FreeStack` shows its stack to be.
- A compare-and-swap loop whose failed attempts only reload is one step, and weak
  compare-and-swap never fails spuriously.
- Fields of a board entry that only the lock holder writes are examined by the holder in one step;
  readers read them one access at a time.
- The channel and Blackboard step functions are values, not methods on shared objects: the
  interleaving is the point, and update in place by one thread at a time is what `Perform` does.
- `read_entry`, `keys`, `read_all` and `Blackboard::snapshot`, which repeat the read protocol over
  all entries, and `owner_alive`.
- Moves of Subscriber, Writer and Region objects, and fork().
- The death verdict in reclaim_dead_rings is taken in one step although it reads pid and start time.
- FreeStack.RunRefines: assumes each CAS comes fewer than 2^32 swaps after its load (`Timely`).
- BoardGuarantees.ReadsAreCoherent: assumes the write count stays below 2^63 (`Fits`); publish words are unbounded in the model.
- ChannelReading.EveryDeliverableIsDelivered: assumes no refcount is within the number of unread positions of 2^32 - 1, where a receive takes a slot for corrupt and passes it (`Room`).
- BoardWake.NoLostWakeup: assumes a caller passes a count it has read; a writer that dies between its bump and its wake leaves waiters to their timeout, as documented; the promise counts it as still owing the wake.
- RingWake.NoLostWakeup: assumes publisher and subscriber were given the same backend; one ring and its one subscriber are modelled.
- ClaimWord.ClaimOrder: `ChannelModel` compares unbounded tags, which agree with the 40-bit ones within this distance.
- Reservation.OneValidHandle: assumes a publisher outlives its handles.
