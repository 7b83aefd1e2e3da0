# Verified model of magic-mirror

magic-mirror copies container images between registries. Its concurrency comes from one small
library, `internal/parka`: a `Map` that runs a handler once per key within a concurrency limit, and a
`KeyMutex` through which handlers give up their share of the limit while they wait for each other.
Above it, `internal/image/copy` copies specs, platforms and blobs, each through a `Map`. This project
models these, together with the canonical string sets, the image reference parser and the checks on
copy specs, and proves what their documentation and comments claim.

## How it is laid out

**The parka protocol, twice.** `WorkState.dfy`, `Tables.dfy` and `Locks.dfy` give the effect of each
critical section as a function. `ParkaMap.dfy` and `KeyMutex.dfy` are the objects of the source, with its
fields changed in place, proved to compute those functions. `Scheduler.dfy` is the transition system:
any number of goroutines with program counters, one step for each critical section *and* for each
action taken after the lock is dropped (starting a worker, handing a grant over, closing a channel,
opening a gate), so that every in-between state exists and every interleaving is covered. Handlers run
arbitrary finite code that detaches, reattaches, locks and unlocks; the callers `Inform`, `Get`,
`Collect`, `Limit`, `DequeueAll`, `Wait` and `Stats` may come in at any time.

The proof is bookkeeping. `Ledger.dfy` says, for each of seven kinds of account (grants, receivers less
pending sends, unstarted keys, keys on the way from grant to handler, unopened gates, held locks,
unclosed channels), how much each goroutine holds and how much the shared state says is held in all.
`Safety.dfy` proves that every step of every goroutine keeps the two equal. `Guarantees.dfy`,
`LockGuarantees.dfy`, `QueueOrder.dfy`, `Calls.dfy` (what each call has done by the time it returns) and
`Liveness.dfy` draw the consequences; the last has the measure (handlers to start, then unlocks to come, then work at hand) that falls with each step.

**The copy pipeline.** `Mirror.dfy` is a second transition system, over registries that only gain
content and that other clients also write to, with the limit on blob copies, which detach while they wait
for their lock. `MirrorSafety.dfy` proves referential integrity together with the soundness of the source
map; `MirrorTransfers.dfy` that a blob is sent to a registry once; `MirrorDelivery.dfy` what a copy without
error has delivered, and under which names; `MirrorUploads.dfy` which documents can arrive anywhere at all;
`MirrorTasks.dfy`, `MirrorUnchanged.dfy` and `MirrorIndexer.dfy` that nothing is copied twice or needlessly
and that the indexer misses no blob;
`MirrorLiveness.dfy` that the copies never get stuck, whatever the limit, and come to an end;
`MirrorCauses.dfy` what a spec's error must come from; `MirrorSuccess.dfy` when copies must succeed.
`MirrorWitness.dfy` has the runs that show which properties fail, and `MirrorSample.dfy` a concrete world of
documents and digests with copies in it, so that no assumption about these is an empty one. `Places.dfy`
ties the limit of this system to the parka map. `BlobCopier.dfy` is the blob copier as an object, whose
undisturbed `copyBlob` is proved to follow the steps of that system. `IndexCopy.dfy` is `copyIndex` over
arrays, since two of its slices share storage, and `IndexRefinement.dfy` proves that it asks for and uploads
what the pipeline does.

**Sequential parts.** `Base64.dfy`, `Ordering.dfy`, `StringKeyed.dfy` and `StringSet.dfy` for
`stringkeyed.Set`; `ImageRef.dfy` for the reference parser and printer; `Coalesce.dfy` for
`coalesceRequests`. `Sums.dfy` and `Induct.dfy` hold lemmas about sums and about runs.

## Properties that fail

**Annotations and platform of an index entry.** `copyIndex` means to carry them over to the entry that
replaces it (internal/image/copy/copier.go:191-196). When platforms are limited, line 166 makes the list
being rewritten and the list being read the same slice, so line 193 overwrites the old entry before
lines 194-195 read it. `IndexCopy.FieldsKeptExactlyWhen` gives the exact condition: the fields are kept if
and only if platforms are not limited or the digest listed in the source is the canonical one.
`IndexCopy.LimitedIndexLosesPlatform` is a concrete index that loses a platform.

**An exact copy.** Without a transform, the destination receives the very document that the source's name
stood for, unless (internal/image/copy/copier.go:180-183 and 189-197) that is an index of a single
manifest, which is replaced by the manifest, or an index that lists a digest of another algorithm than
the canonical one, which is rewritten. `MirrorDelivery.CopiedVerbatimIff` proves that it does exactly in the
other cases (`MirrorDelivery.Portable`), or if it was there before.

**The digest of a destination.** So a destination named by a digest, which the checks on copy specs allow
if the source has the same one, does not always come to exist although the copy reports no error: the
single manifest of an index goes up under a digest of its own (internal/image/copy/platforms.go:82-87), and a
rewritten index has another digest. `MirrorDelivery.DigestStandsIff` has the exact condition, which is the
one above, for registries that find a document under every digest of it; where they know only the name it was
given, a manifest must be named by a digest of the canonical algorithm as well (`MirrorDelivery.DigestWrittenIff`).
`MirrorWitness.NeverArrives` proves of every run that such a digest never comes to be there
unless somebody else pushes its document, and `MirrorWitness.DigestMayNotStand` that the copy can nevertheless
be run to its end without error, from any intact registries. `MirrorSample.DigestIsLost` is a concrete case.

**The tag of a destination that also has a digest.** A destination is looked up by digest if it has one
(internal/image/copy/manifests.go:54-57) but written by tag if it has one (lines 23-29). If the digest is
already there, under whatever name, copySpec finds nothing to do and the tag is never set.
`MirrorDelivery.TagStands` proves that the tag of a destination without a digest always comes to stand for
the document delivered, and so does that of any destination to which something was copied;
`MirrorWitness.TagMayNotStand` is, for every destination with both, a run from any intact registries that
have the document but not the tag, which reports no error and never sets it; `MirrorSample.TagIsLost` is a
concrete case.

## Model

| member | source | states |
|---|---|---|
| Guarantees.NeverPanics | internal/parka/map.go:42-47 | in no reachable state has a gate or channel been closed twice, a task lookup failed, or a key been unlocked that was not locked |
| Guarantees.GrantsConserved | internal/parka/map.go:55-71 | at every point of every run `grants` is exactly the number of grants that goroutines hold; only a goroutine handing grants out holds more than one; one blocked on a lock holds none |
| Guarantees.SendsMatched | internal/parka/map.go:83-93 | goroutines in ReceiveGrant are exactly the reattachers plus the sends still due, so no send goes unmatched |
| Guarantees.AttachedWithinGrants | internal/parka/map.go:542-552 | attached handlers never outnumber the outstanding grants |
| Guarantees.StepWithinLimit | internal/parka/map.go:207-223 | any step that adds a grant, grants a key or admits a reattacher leaves grants within the limit |
| Guarantees.RiseWithinLimit | internal/parka/map.go:191-197 | after a decrease of the limit grants never rise until they are back within it |
| Guarantees.GrantsBound | internal/parka/map.go:353-354 | grants at most L stay at most L for as long as the limit does |
| Guarantees.ConcurrencyBound | internal/parka/map.go:32-35 | while the limit stays at or below L, at most L attached handlers run at once |
| Guarantees.WorkConserved | internal/parka/map.go:63-65 | a non-empty queue or a waiting reattacher means the limit is used up, in every reachable state |
| Guarantees.ReattachersGoFirst | internal/parka/map.go:69-71 | no step of any run gives a key a grant and leaves a reattacher waiting |
| Guarantees.HandlerStartsOnce | internal/parka/map.go:24-25 | over a whole run no key's handler starts twice, with DequeueAll and repeated Inform interleaved anywhere |
| Guarantees.OnePlace | internal/parka/map.go:42-44 | every pending key is in exactly one place: the queue, a caller about to schedule it, or a worker about to start it |
| Guarantees.OneOwner | internal/parka/map.go:42-47 | every task whose handler has begun, or that was ejected, and whose gate is still shut, has exactly one goroutine that will open it, once |
| Guarantees.StatsNeverAhead | internal/parka/map.go:127-143 | the two reads of Stats, however far apart, never give Handled greater than Total |
| Guarantees.RetiredWhenDrained | internal/parka/map.go:470-477 | a Wait channel is taken for closing only by a step that leaves no grant, no queue and no reattacher |
| Guarantees.RetiredStable | internal/parka/map.go:470-477 | once taken, a Wait channel is never in the state again |
| Guarantees.WokenAfterDrained | internal/parka/map.go:470-490 | a Wait channel that is closed or taken was taken at exactly one moment of the run, with no grant, queue or reattacher: never before it, for good from then on |
| Guarantees.WaitSeesDrained | internal/parka/map.go:291-313 | between a call of Wait and its return the map had no grant, no queue and no reattacher at some moment: no early wake-up |
| Calls.GetWaits | internal/parka/map.go:165-171 | when a Get has returned, the task that its key had once the call had looked it up is finished; likewise for the first key of any Collect |
| Calls.CollectWaits | internal/parka/map.go:173-189 | when a Collect has come to the end of its list, the tasks of all its keys are finished |
| Calls.CollectMayStop | internal/parka/map.go:173-189 | and it may stop at any key whose task is finished |
| Calls.InformDoesNotWait | internal/parka/map.go:145-163 | Inform and InformFront are never held up: until they return they can move |
| Calls.InformEnqueues | internal/parka/map.go:145-163 | when any of these calls has returned, the keys among those given that the map did not know, each once and in the order given, have been put into the line as one block: behind all others, or in front of the queue for InformFront |
| Calls.LimitIsSet | internal/parka/map.go:191-208 | a call of Limit sets the limit to the number given, or to 1 if that is less |
| Calls.StatsReads | internal/parka/map.go:127-143 | Stats returns how many keys were handled at one moment of the call, and how many were known at a later one |
| Calls.DequeueReleases | internal/parka/map.go:251-289 | DequeueAll leaves the queue empty in one step, takes every key in it out of the map, and has released all who wait for those keys when it returns |
| Calls.AnyHandlerMayRun | internal/parka/map.go:385-443 | a worker can start its key's handler on any code that keeps its locks in pairs, attached and with its task running |
| Calls.HandlerMayEnd | internal/parka/map.go:414-442 | which may return or call Goexit |
| Calls.GoexitEnds | internal/parka/map.go:433-439 | and a goroutine whose handler has called Goexit never starts another one |
| QueueOrder.ScheduleEditsLine | internal/parka/map.go:341-359 | keys started at once are in the same place in line as if they had been queued, because free grants imply an empty queue |
| QueueOrder.SectionEditsLine | internal/parka/map.go:145-163 | every critical section edits the line of granted and queued keys as documented (append a block, insert a block behind the granted keys, cut) and otherwise only moves the cursor |
| QueueOrder.ReattachersFirst | internal/parka/map.go:457-483 | a section that grants a key leaves no reattacher and is within the limit |
| QueueOrder.GrantsWithinLimit | internal/parka/map.go:516-525 | a section that adds a grant or admits a reattacher is within the limit |
| QueueOrder.MoveIsSection | internal/parka/map.go:49-52 | each step changes the work state by the critical section that the moving goroutine has come to, or not at all |
| QueueOrder.MoveEditsLine | internal/parka/map.go:145-163 | in each step the goroutine that moves edits the line as its own call promises: Inform appends and InformFront inserts exactly the keys it created, DequeueAll cuts, all others only move the cursor on |
| QueueOrder.LineDistinct | internal/parka/map.go:148-149 | a key stands in the line at most once |
| QueueOrder.StepKeepsOrder | internal/parka/map.go:158-163 | a step other than DequeueAll keeps the relative order of any two keys in line |
| QueueOrder.NoOvertaking | internal/parka/map.go:145-163 | a queued key is never granted before a key that was ahead of it, whatever callers and limits do, unless DequeueAll has taken the latter out of the queue |
| Liveness.StepFalls | internal/parka/map.go:385-407 | a lexicographic measure falls with every step of every goroutine |
| Liveness.NoInfiniteRun | internal/parka/map.go:385-407 | no schedule, fair or not, lets the system run for ever |
| Liveness.SendFindsReceiver | internal/parka/map.go:232-236 | a goroutine in SendGrant can always hand its grant over at once, whatever the others are doing |
| Liveness.StuckIsDrained | internal/parka/map.go:507-530 | if nobody can move no grant is out, so nobody waits to reattach |
| Liveness.StuckNotBlocked | internal/parka/keymutex.go:59-70 | if nobody can move nobody is blocked on a lock, since a holder never waits for one |
| Liveness.Progress | internal/parka/keymutex.go:24-71 | deadlock freedom of Map and KeyMutex together: unless all goroutines have returned, some step is enabled |
| Liveness.RunsToTheEnd | internal/parka/map.go:24-38 | from every state with the invariant, going on ends with all goroutines returned |
| Liveness.OverIsAtRest | internal/parka/map.go:127-133 | then no grant, key, reattacher or lock is left, every gate and Wait channel is open, and Handled equals Total |
| Liveness.MaximalRunEndsAtRest | internal/parka/map.go:291-313 | a run that cannot go on, under any schedule, has ended in that state |
| LockGuarantees.MutualExclusion | internal/parka/keymutex.go:5-12 | a key is in the map of channels exactly when a handler holds it, and never do two hold it |
| LockGuarantees.WaitersAreReachable | internal/parka/keymutex.go:59-70 | a waiter's channel, fetched or blocked on, is closed or is the one the present holder will use: no lost wake-up |
| LockGuarantees.UnlockEnds | internal/parka/keymutex.go:75-92 | a goroutine at Unlock can only pass the key on or close its channel |
| LockGuarantees.UnlockHandsOver | internal/parka/keymutex.go:83-91 | an Unlock that finds a goroutine blocked on the key gives it to one of those; the key never becomes free for a newcomer |
| LockGuarantees.TracksMove | internal/parka/keymutex.go:32-71 | whatever goroutine moves, a handler in a lock call, or in any other instruction, stays on the path of that with the attachment it had on entry remembered |
| LockGuarantees.LockKeepsAttachment | internal/parka/keymutex.go:24-43 | across any number of retries and interleavings LockDetached returns with the lock and with the handle attached or not as it was on entry |
| LockGuarantees.InstructionDoes | internal/parka/map.go:554-587 | however long it had to wait, once past Detach a handler is detached, past Reattach attached, past a lock call as it was and with the lock, past Unlock without it |
| Safety.InitInv | internal/parka/map.go:117-125 | a new map satisfies the invariant |
| Safety.MoveKeeps | internal/parka/map.go:55-71 | every step of every goroutine keeps all accounts balanced, the work state sound and the task table consistent |
| Safety.RunInv | internal/parka/map.go:55-71 | hence so does every point of every run |
| Safety.BalancedIsSolvent | internal/parka/map.go:42-44 | balanced books mean that each queued key is pending and queued once, and that each Wait channel is closed at most once |
| Safety.InformSettles | internal/parka/map.go:321-339 | Inform's first critical section books each new key to its caller and changes no other account |
| Safety.DequeueSettles | internal/parka/map.go:258-289 | DequeueAll moves each queued key's task to its caller, to be opened once |
| Safety.HandlerSettles | internal/parka/map.go:414-531 | every step of a handler, including detach, lock, reattach and completion, keeps every account balanced |
| Safety.PairSettles | internal/parka/map.go:92-93 | so does handing a grant or a lock from one goroutine to another |
| WorkStates.FreshStartsAll | internal/parka/map.go:117-125 | a new map starts at once any number of keys up to 2^63 - 1 |
| WorkStates.LimitSound | internal/parka/map.go:203-224 | Limit issues grants to reattachers before keys, pops a prefix of the queue, and keeps the work state sound |
| WorkStates.ScheduleSound | internal/parka/map.go:348-359 | keys are started at once only when neither queue nor reattacher waits; the rest are queued as a block |
| WorkStates.TryGetSound | internal/parka/map.go:444-484 | what a worker that holds a grant must do next, and in which states |
| WorkStates.WaitSound | internal/parka/map.go:297-308 | Wait returns at once exactly when no grant is out, and otherwise waits on the one current channel |
| Tables.CreateTasks | internal/parka/map.go:321-339 | each key unknown to the map gets one pending task; all else stays |
| Tables.CreateFinds | internal/parka/map.go:321-339 | the tasks returned are those of the keys asked for, in order |
| Tables.CreateInOrder | internal/parka/map.go:321-339 | the new keys are exactly those given that the map did not know, each once, in the order in which they first occur |
| Tables.EjectTasks | internal/parka/map.go:275-281 | every queued key leaves the map with its task ejected, and none is missing |
| Tables.EjectFinds | internal/parka/map.go:275-281 | the tasks are those of the queued keys, in order, and the map forgets these keys and no others |
| Tables.HandledKnown | internal/parka/map.go:127-133 | handled keys never outnumber the keys in the map |
| ParkaMap.Map.Limit | internal/parka/map.go:198-224 | the critical section, in place, equals its function; the keys to start are a prefix of the old queue, none while a reattacher remains |
| ParkaMap.Map.PopFront | internal/parka/map.go:220-223 | pops exactly the first n keys |
| ParkaMap.Map.GetOrCreateTasks | internal/parka/map.go:321-339 | the loop equals its function; each new key is reported once, in the order of first occurrence |
| ParkaMap.Map.PushAllBack | internal/parka/map.go:370-374 | appends the block in order |
| ParkaMap.Map.PushAllFront | internal/parka/map.go:376-380 | the backwards loop puts the block in front with its order kept |
| ParkaMap.Map.ScheduleNewKeys | internal/parka/map.go:346-359 | the critical section equals its function and keeps each pending key in the queue at most once |
| ParkaMap.Map.EjectAll | internal/parka/map.go:272-281 | the loop equals its function, with every lookup succeeding |
| ParkaMap.Map.DequeueAll | internal/parka/map.go:258-282 | both maps change together: the queue is emptied and returned in order, its tasks leave the map |
| ParkaMap.Map.Wait | internal/parka/map.go:297-308 | returns a channel exactly when grants are out, always the one in the state |
| ParkaMap.Map.TryGetQueuedKey | internal/parka/map.go:447-484 | the switch equals its function, keeps the invariant, and closes only a drained map |
| ParkaMap.Map.HandleReattach | internal/parka/map.go:509-526 | waits for a grant exactly when the limit is used up |
| KeyMutexes.Handle.Detach | internal/parka/map.go:558-571 | gives the grant up exactly once; a terminated handle panics |
| KeyMutexes.Handle.Reattach | internal/parka/map.go:576-587 | takes a grant back exactly if detached |
| KeyMutexes.Handle.Terminate | internal/parka/map.go:592-598 | the worker learns whether the handle still held its grant |
| KeyMutexes.KeyMutex.TryLock | internal/parka/keymutex.go:46-57 | takes a free key with a fresh channel, or returns the holder's channel |
| KeyMutexes.KeyMutex.Unlock | internal/parka/keymutex.go:75-92 | passes the key on if someone waits, else closes the channel and forgets the key; panics if not locked |
| KeyMutexes.KeyMutex.LockDetached | internal/parka/keymutex.go:28-71 | the retry loop, whatever others do between turns: it gets the key in the first turn in which that is free or passed to it, and in no other case; one detach and one reattach exactly if it had to wait attached, no grant while waiting, attachment on return as on entry |
| MirrorSafety.MoveKeeps | internal/image/copy/blobs.go:82-169 | every step of every copy, indexer or other client keeps integrity and source soundness, and sources only grow |
| MirrorSafety.PlatformKept | internal/image/copy/platforms.go:52-93 | a platform's manifest is uploaded only when all of its blobs are there |
| MirrorSafety.IndexComplete | internal/image/copy/copier.go:185-202 | the index uploaded names only manifests already in the destination |
| MirrorSafety.SpecKept | internal/image/copy/copier.go:92-133 | every step of copying a spec keeps integrity |
| MirrorSafety.IndexerKept | internal/image/copy/blobindexer.go:29-58 | the indexer registers only repositories that hold the blob |
| MirrorSafety.BlobKept | internal/image/copy/blobs.go:82-169 | a destination is registered as a source only once it holds the blob |
| MirrorSafety.MirrorStaysIntact | internal/image/copy/copier.go:92-203 | at every point of every run no repository has a manifest without its blobs or an index without its manifests, and listed sources hold their blobs |
| MirrorSafety.SourceAlwaysKnown | internal/image/copy/blobs.go:62-69 | a blob copy always knows a source, so taking the first of them cannot fail |
| MirrorSafety.SourceIsRegistered | internal/image/copy/blobs.go:55-69 | once the blobs of a platform have been asked for, its source repository is listed for each of them |
| MirrorIndexer.DestinationIsSubmitted | internal/image/copy/copier.go:109-116 | a copy that has found its destination's manifest has that indexed, whatever it does next |
| MirrorIndexer.IndexesEveryBlob | internal/image/copy/blobindexer.go:28-46 | when the indexing of a manifest is over, its repository is listed as a source of every one of its blobs |
| MirrorIndexer.IndexesEveryManifest | internal/image/copy/blobindexer.go:48-58 | when that of an index is over, a goroutine has been started for every manifest it lists |
| MirrorIndexer.FetchedIsIndexed | internal/image/copy/blobindexer.go:51-56 | such a goroutine can take up any document the repository has for the digest |
| MirrorTasks.CopiedByOne | internal/image/copy/platforms.go:24-36 | at no point of any run do two goroutines copy the same platform, or the same blob to the same repository |
| MirrorTasks.CopiedOnce | internal/image/copy/copier.go:61-73 | a platform or blob that has been copied, or has failed, keeps that result, however often it is asked for |
| MirrorUnchanged.NothingToCopy | internal/image/copy/copier.go:104-116 | a spec without a transform whose destination's name stands for the very document its source's stands for asks for no platform, as long as fetching the destination does not fail |
| MirrorUnchanged.SourceFails | internal/image/copy/copier.go:95-107 | a copy that fails at its source ends at once, while the fetch of its destination may go on and be kept |
| MirrorDelivery.Stands | internal/image/copy/manifests.go:17-107 | what the history records under a name was what the registry had under it at some moment of the run |
| MirrorDelivery.MirrorDelivers | internal/image/copy/copier.go:92-203 | a spec copied without error: at some moment the source's name stood for its source document; the document delivered is whole in the destination; for a source manifest it is that very document; for an index it is that index, the one manifest selected, or an index of the manifests selected, each whole and matching |
| MirrorDelivery.CopiedVerbatimIff | internal/image/copy/copier.go:155-202 | without a transform, if the destination did not have it, the document delivered is the source's own exactly if that is a manifest, or an index of several digests all of the canonical algorithm |
| MirrorDelivery.DigestStandsIff | internal/image/copy/spec.go:71-76 | if no two documents share a digest, and registries find a document under every digest that verifies it, a destination with a digest finds the document delivered under it exactly on that condition, or if it had it before |
| MirrorDelivery.DigestWrittenIff | internal/image/copy/platforms.go:82-87 | what is copied to a destination named by a digest alone is put under that digest exactly if the source document can be copied as it is and, if it is a manifest, that digest is of the canonical algorithm, under which manifests go up |
| MirrorDelivery.EveryPlatformDelivered | internal/image/copy/copier.go:155-202 | without a transform, every manifest that the source index lists is whole in the destination |
| MirrorDelivery.TagStands | internal/image/copy/manifests.go:17-57 | the tag of a destination without a digest, or to which something was copied, has stood for the document delivered |
| MirrorWitness.TagMayNotStand | internal/image/copy/manifests.go:17-57 | for every consistent spec whose destination has tag and digest, in any world and from any intact registries that have the digest but not the tag, a run that succeeds and never sets the tag |
| MirrorWitness.NeverArrives | internal/image/copy/copier.go:177-202 | in any run, a digest that a repository lacks, of a document that cannot be copied as it is, stays absent there unless somebody else pushes that document |
| MirrorWitness.DigestMayNotStand | internal/image/copy/copier.go:177-202 | for every consistent spec whose destination has the digest of an index that is in order but cannot be copied as it is, and lacks it, with a tag if that index is rewritten: a run from any intact registries that succeeds and at no moment of which that digest finds anything in the destination; in any world where no two documents share a digest and an index of any manifests can be written |
| MirrorWitness.CopySucceeds | internal/image/copy/copier.go:92-133 | any single spec with a source in order can be copied by moves of the copying goroutines alone, none failing |
| MirrorUploads.WhoUploaded | internal/image/copy/copier.go:185-202 | every document that comes to a repository during a run is a manifest, or an index of several manifests by canonical digests, or was pushed by somebody else |
| MirrorUploads.MadeIsPortable | internal/image/copy/copier.go:189-202 | whatever the program uploads could itself be copied as it is |
| MirrorSample.SampleIsRegular | internal/image/manifest.go:72-79 | the assumptions on documents and digests hold together in a concrete world, for any registries and limit |
| MirrorSample.IndexIsCopied | internal/image/copy/copier.go:92-133 | there, an index of two platforms is copied to the end without any failure, and its new tag has stood for that very index |
| MirrorSample.DigestIsLost | internal/image/copy/copier.go:180-183 | there, an index of one platform is copied without error to a destination of the same digest, which never exists |
| MirrorSample.TagIsLost | internal/image/copy/manifests.go:17-57 | there, an image copied without error to a new tag of a repository that has it by digest never gets the tag |
| MirrorLiveness.SomeoneIsReady | internal/image/copy/copier.go:61-203 | while anything is or waits to be copied, some copy is held up by no other, or can start; under any limit of at least one on blob copies |
| MirrorLiveness.Progress | internal/image/copy/copier.go:61-203 | no deadlock of the pipeline: a spec, platform or blob copy can move or start |
| MirrorLiveness.FullIsReady | internal/image/copy/blobs.go:39-44 | a limit that is used up is used up by blob copies that can move, since those that wait for a lock have detached |
| MirrorLiveness.BlobsWithinLimit | internal/image/copy/blobs.go:39-44 | at every point of every run no more blob copies are attached than the limit allows |
| MirrorLiveness.CopiesNeverStuck | internal/image/copy/copier.go:61-73 | so in every reachable state |
| MirrorLiveness.BlobIsReady | internal/image/copy/blobs.go:83-88 | a blob copy can move, or the holder of its lock can, or those who use up the limit can |
| MirrorLiveness.PlatformIsReady | internal/image/copy/platforms.go:52-93 | a platform copy can move, or what it awaits can start or be copied on |
| MirrorLiveness.MoveFalls | internal/image/copy/copier.go:92-203 | a four-part measure falls with every move of a copy, and no move of the indexer or of other clients raises it |
| MirrorLiveness.CopyingStops | internal/image/copy/copier.go:61-73 | in any infinite history, under any schedule, only finitely many moves copy |
| MirrorLiveness.CopiesFinish | internal/image/copy/copier.go:61-73 | from every reachable state the copies can be run to their end |
| MirrorCauses.ErrorHasCause | internal/image/copy/copier.go:92-133 | over any run, a spec ends in error only if before that a step of its own failed, or one of the copy of a platform that it had asked for, or of a blob of such a platform's manifest |
| MirrorCauses.AskedIsSelected | internal/image/copy/copier.go:155-188 | and what it had asked for is what was selected from its source document |
| MirrorCauses.PlatformCause | internal/image/copy/platforms.go:52-93 | a platform has failed only if its own copy failed in some step, or that of one of its manifest's blobs |
| MirrorCauses.BlobCause | internal/image/copy/blobs.go:82-169 | a blob has failed only if a request of its own copy did |
| MirrorCauses.SpecMirrored | internal/image/copy/copier.go:61-73 | once all copies have ended, every spec for which nothing failed that it had asked for has been copied without error, whatever became of the others |
| MirrorSuccess.AllMirrored | internal/image/copy/copier.go:61-73 | in any settled run in which nothing failed, every spec has been copied without error |
| MirrorSuccess.GoodMove | internal/image/copy/copier.go:92-203 | sources that are in order stay so at every step, whatever the program uploads over them and whatever fails, unless other clients spoil them |
| MirrorSuccess.ProgressWithoutFailure | internal/image/copy/copier.go:92-203 | if the sources are in order no copy is ever forced to fail: while anything is left to copy, a goroutine can move without a failed request, whichever platforms are selected |
| MirrorSuccess.EverySpecCanSucceed | internal/image/copy/copier.go:61-73 | if each spec's source name stands for something in order (a manifest, or a non-empty index all of whose digests are of manifests), and other clients leave it so, every run can go on without further failures to its end, whichever platforms transforms select, and then each spec for which nothing had failed that it has asked for has been copied without error |
| MirrorSuccess.OnlyIfInOrder | internal/image/copy/copier.go:118-202 | and a spec without a transform ends without error only if its source is in order, or the destination had it; a destination known only by its digest takes an index of several manifests only if that can be copied as it is |
| Places.PipelineTakesPlaces | internal/image/copy/blobs.go:82-88 | every step of the pipeline gives up or takes at most one place of the limited map, and takes only a free one |
| Places.MapTakesPlaces | internal/parka/map.go:32-35 | so does every step of the parka map, for the handlers attached, under any limit it has kept to |
| Places.FreePlaceIsPassedOn | internal/parka/map.go:55-71 | while a place is free and a key is queued or a handler waits to reattach, some goroutine has a grant on its way to somebody else and can move at once |
| MirrorTransfers.ExclusiveKept | internal/image/copy/blobs.go:83-88 | at most one copy of a digest into a registry is past its lock |
| MirrorTransfers.FirstToSend | internal/image/copy/blobs.go:117-136 | a copy that finds nothing to mount in a registry that honours mounts is the first to send the blob there |
| MirrorTransfers.SingleTransfer | internal/image/copy/blobs.go:83-168 | over any run such a registry is sent each blob at most once, for any number of repositories |
| BlobCopiers.BlobCopier.SourcesOf | internal/image/copy/blobs.go:71-80 | each digest gets one set, made when first asked for, and no set changes |
| BlobCopiers.BlobCopier.RegisterSource | internal/image/copy/blobs.go:46-53 | adds one repository to the sources of one digest and changes nothing else |
| BlobCopiers.BlobCopier.KeysFor | internal/image/copy/blobs.go:62-67 | registers the source for exactly the blobs asked for, before any is asked for, and builds their keys in order |
| BlobCopiers.BlobCopier.Submit | internal/image/copy/blobindexer.go:39-43 | registers the repository for exactly the blobs of the manifest |
| BlobCopiers.BlobCopier.FindMount | internal/image/copy/blobs.go:120-126 | finds a source in the destination's registry exactly if there is one |
| BlobCopiers.BlobCopier.Request | internal/image/copy/blobs.go:114-168 | from the choice of a source to the upload: steps of the protocol; for some known source and, if there is any in the registry, some repository to mount from, it ends well exactly if the upload request is granted, or a URL is given and the blob sent, and leaves the blob in the destination exactly then |
| BlobCopiers.BlobCopier.Transfer | internal/image/copy/blobs.go:102-168 | the body of copyBlob takes steps of the protocol; an error from the destination fails it, a blob that is there ends it well with nothing changed, no known source crashes it, and else it ends as the request for an upload does |
| BlobCopiers.BlobCopier.Announce | internal/image/copy/blobs.go:96-100 | the deferred call registers the destination exactly on success |
| BlobCopiers.BlobCopier.CopyLocked | internal/image/copy/blobs.go:90-169 | between lock and unlock: a path of the transition system, with the outcome that the answers call for; a known destination is left alone; the destination is a source afterwards exactly if all went well |
| BlobCopiers.BlobCopier.CopyBlob | internal/image/copy/blobs.go:82-169 | the whole call, lock and unlock included, is a path of the transition system, with the same outcome, and the destination becomes a source exactly if it ends well |
| BlobCopiers.BlobDigests | internal/image/copy/platforms.go:73-78 | the blobs of a manifest are its layers, then its configuration |
| IndexCopy.SelectedExactly | internal/image/copy/copier.go:155-167 | the selection drops exactly the descriptors of unwanted platforms, with multiplicity |
| IndexCopy.SelectedInOrder | internal/image/copy/copier.go:159-165 | and keeps the order of the rest, all of it |
| IndexCopy.OutcomeExactly | internal/image/copy/copier.go:135-203 | which outcome it is, from the request alone: an invalid digest, a missing platform when platforms are limited, no wanted entry, exactly one, several of which some was not copied, or several all copied, and only then an upload |
| IndexCopy.EntriesListed | internal/image/copy/copier.go:189-197 | an entry whose digest did not change is listed as it was, the others with what was copied |
| IndexCopy.ListsWhatWasCopied | internal/image/copy/copier.go:185-197 | an uploaded index lists, in order, the digests of the manifests that were copied, at least two |
| IndexCopy.MirroredUnchanged | internal/image/copy/copier.go:189-202 | without limits the source index itself is uploaded exactly when no digest changed |
| IndexCopy.FieldsKeptExactlyWhen | internal/image/copy/copier.go:189-197 | when an entry keeps its annotations and platform: exactly if platforms are not limited or its digest did not change |
| IndexCopy.LimitedIndexLosesPlatform | internal/image/copy/copier.go:157-197 | a concrete limited index whose uploaded copy has lost a platform |
| IndexCopy.SelectPlatforms | internal/image/copy/copier.go:159-165 | the selecting loop equals its function; it crashes exactly if some descriptor has no platform |
| IndexCopy.CopyAll | internal/image/copy/platforms.go:38-50 | succeeds exactly if every copy does, with the results in order |
| IndexCopy.Validate | internal/image/manifest.go:81-88 | accepts exactly the indexes whose digests are all valid |
| IndexCopy.ListCopies | internal/image/copy/copier.go:189-197 | the rewriting loop over shared or copied storage lists the entries of the specification |
| IndexCopy.CopySelected | internal/image/copy/copier.go:169-202 | fails with nothing selected, copies one manifest without an index, and uploads an index only when every manifest was copied |
| IndexCopy.CopyIndex | internal/image/copy/copier.go:135-203 | the whole outcome equals the specification, and the cached source index is not changed |
| IndexRefinement.SelectionAgrees | internal/image/copy/copier.go:155-175 | the descriptors selected are a selection that the pipeline allows |
| IndexRefinement.AsksForOne | internal/image/copy/copier.go:180-183 | the one platform asked for is the pipeline's |
| IndexRefinement.AsksForEach | internal/image/copy/copier.go:185-188 | so are several |
| IndexRefinement.UploadsTheIndex | internal/image/copy/copier.go:189-202 | the index uploaded is one that the pipeline allows |
| Base64.RoundTrip | internal/stringkeyed/set.go:142-161 | decoding undoes encoding for all byte strings (section 4 of RFC 4648), and encoded text has no control characters |
| Base64.TestVectors | internal/stringkeyed/set.go:142-146 | three test vectors of section 10 of RFC 4648 |
| Ordering.LessExactly | internal/stringkeyed/set.go:61-61 | strings are compared byte by byte: the first that differs decides, and a proper prefix is less |
| Ordering.CanonicalLists | internal/stringkeyed/set.go:58-62 | sorting and compacting give a strictly increasing list of the same elements |
| Ordering.SortUnique | internal/stringkeyed/set.go:61-61 | sorted permutations of each other are equal, so the sorting algorithm does not matter |
| Ordering.ListUnique | internal/stringkeyed/set.go:61-62 | a set has only one strictly increasing list |
| StringKeyed.PlainForm | internal/stringkeyed/set.go:28-38 | an element without separator or escape is represented as it is, behind the byte 0x1F if it is not the first |
| StringKeyed.ElementRoundTrip | internal/stringkeyed/set.go:130-161 | decoding an element undoes encoding it, and no encoded element contains the separator |
| StringKeyed.SplitJoin | internal/stringkeyed/set.go:70-102 | splitting undoes joining, and separators count the parts |
| StringKeyed.EncodingSpecial | internal/stringkeyed/set.go:63-66 | only the empty set is the empty string, and only {""} is the lone separator |
| StringKeyed.ReadBack | internal/stringkeyed/set.go:73-102 | every representation is read back as the list it was made from, and counted right |
| StringKeyed.AddedRepresents | internal/stringkeyed/set.go:57-71 | Add represents the union |
| StringKeyed.BuiltRepresents | internal/stringkeyed/set.go:46-71 | any sequence of Add calls represents the set of all elements added |
| StringKeyed.EqualAsStrings | internal/stringkeyed/set.go:22-44 | two sets, however built up, are equal as strings if and only if they have the same elements |
| StringKeyed.ListsElements | internal/stringkeyed/set.go:86-110 | a built set lists exactly its elements in strictly increasing order, and its cardinality is their number |
| StringSets.Set.Add | internal/stringkeyed/set.go:57-71 | in place, with the special case and the encoding loop: the set becomes the union |
| StringSets.Set.ToSlice | internal/stringkeyed/set.go:105-110 | the strictly increasing list of the elements |
| StringSets.Set.Cardinality | internal/stringkeyed/set.go:75-84 | the number of elements |
| StringSets.Set.UnmarshalJSON | internal/stringkeyed/set.go:116-128 | accepts exactly arrays without repetitions, and leaves the set alone otherwise |
| StringSets.Set.UnmarshalJSONFrom | internal/stringkeyed/set_jsonv2.go:44-80 | accepts the same arrays with the same result, although it collects them in any order |
| StringSets.ElemsSize | internal/stringkeyed/set.go:123-125 | counting distinct elements detects exactly the repetitions |
| ImageRef.MatchSound | internal/image/image.go:45-51 | a match is a way of reading the whole reference |
| ImageRef.MatchComplete | internal/image/image.go:45-51 | every way of reading is found, unless one with a registry is preferred |
| ImageRef.Unambiguous | internal/image/image.go:45-45 | the expression is unambiguous once it is settled whether there is a registry |
| ImageRef.ParseExactly | internal/image/image.go:47-84 | what Parse makes of each part of a reference, with the three defaults; it accepts every reference that can be read, unless it has a digest that is not valid |
| ImageRef.ParseRejects | internal/image/image.go:48-51 | and no other |
| ImageRef.ShortReference | internal/image/image.go:60-68 | a bare name with a tag is an official image of docker.io |
| ImageRef.GroupsExactly | internal/image/image.go:45-45 | what each group of the expression matches |
| ImageRef.ParseNormal | internal/image/image.go:53-84 | every parsed image is fully spelt out |
| ImageRef.PrintParse | internal/image/image.go:47-96 | parsing a printed image gives the same image, for every reference Parse accepts |
| ImageRef.RoundTripIffNormal | internal/image/image.go:47-96 | an image survives printing and parsing if and only if it is fully spelt out |
| ImageRef.PrintInjective | internal/image/image.go:87-96 | distinct parsed images print differently |
| Coalesce.CoalesceRequests | internal/image/copy/spec.go:60-94 | the exact list of errors; none if and only if no spec breaks a rule and all for one destination are equal; one spec per destination, the same set when there is no error |
| Coalesce.CheckEach | internal/image/copy/spec.go:63-77 | every broken rule of every spec is reported, in order |
| Coalesce.ErrorsExactly | internal/image/copy/spec.go:67-91 | each complaint is made once for every spec that gives cause for it, and none without; those about single specs come first |
| Coalesce.NoErrorsIff | internal/image/copy/spec.go:60-93 | that list of errors is empty exactly for consistent specs |
| Coalesce.FirstsSame | internal/image/copy/spec.go:79-87 | the result has exactly the destinations asked for, each once, with a spec that was given |
| Coalesce.FirstsInOrder | internal/image/copy/spec.go:79-87 | the result is in order of first occurrence |
| Coalesce.FirstsKeepSet | internal/image/copy/spec.go:79-93 | specs that agree lose nothing but repetitions |

## Left out

- KeyMutexes.KeyMutex.LockDetached: the other goroutines are a given sequence of turns, so termination is not its claim; Liveness.Progress and Liveness.StepFalls prove it for the protocol.
- WorkStates.LimitSound: the 64-bit range of the counters is not modelled, only the initial limit of math.MaxInt.
- MirrorDelivery.MirrorDelivers: which platforms a transform selects is left open there; IndexCopy proves it. The tag stood for the document at some moment; other clients may move it.
- BlobCopiers.BlobCopier.CopyBlob: runs undisturbed there, with its key free and answers fixed in advance; other goroutines interleave in MirrorSafety and MirrorTransfers, where `copySpec`, `copyPlatform` and the indexer's goroutines are steps on values.
- Handlers that use their own map while attached, or wait on each other through other means: the documentation leaves deadlock to them. Callers may make such calls at any time, so safety covers them, and liveness does not.
- `KeyMutex.Lock` by goroutines that are not handlers, and nested locks: each handler holds one key at a time, as copyBlob does.
- Calls of Handle methods from several goroutines of one handler, and the panic after the handler's lifetime in the transition system (`KeyMutexes.Handle` has it).
- Handlers that panic: the program crashes, so the run ends. A handler returns or calls Goexit.
- The values of results and `Map.Collect`'s choice of error: a collector may stop at any finished task. `Cleanup` is DequeueAll followed by Wait.
- The Go memory model and fairness: each critical section is one step, and no fairness is needed.
- FIFO order among blocked senders and receivers: any of them may be served.
- HTTP, authentication, upload URLs and registry errors: abstract registry steps that succeed or fail at any time. Content is never deleted; other clients push only complete images.
- BlobCopiers.BlobCopier.Transfer: a registry that says it has found or created a blob has it. The source takes its word, with or without a mount.
- MirrorLiveness.Progress: the limited map of blobs is there a set of waiting tasks and a number of places, of which a start or a reattachment takes one. That the parka map is so is Places.MapTakesPlaces and Places.FreePlaceIsPassedOn; the two transition systems are not run as one. The limits of the manifest caches are left out, as their handlers wait for nobody. The indexer's goroutines need not end: an index might list itself, as digests are arbitrary there.
- MirrorSuccess.EverySpecCanSucceed: that the source of a transform is in order asks more than the platforms selected need, and a selection must not be empty, which copyIndex reports as an error.
- MirrorDelivery.DigestStandsIff: a registry is taken to find a document under every digest that verifies it, not only under the one it was pushed by; DigestWrittenIff says which one that is.
- Errors kept by the manifest caches: a fetch that failed may succeed later. What was fetched is kept.
- Finding the source set of a digest and adding to it is one step, as sets are shared and never replaced.
- SHA-256, digest syntax and the size of manifests: a canonical digest that verifies its document, and a validity predicate.
- JSON text, `null`, and the encoding of sets as JSON: the decoders start from an array of strings.
- Platform matching is an arbitrary predicate; a deep copy is a new array with the same entries.
- The deque is a sequence; sorting is an insertion sort, shown to give the only sorted permutation.
- Base64 text that encoding never produces: decoding is defined on it, and nothing is proved of it.
- The specs' platform sets are compared by their representation, as the source does; parsing of platform names is left out.
- Logging, statistics timers, flags, `main.go` and `ctxLock`.
