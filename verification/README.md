# dag-time: a verified model

dag-time stores events in a DAG, gives each a content-derived identifier, and anchors every few main
events to a round of the drand beacon. This project models the parts of it that carry state and proves
what they promise:

- the canonical encoding behind identifiers, with a decoder (`Wire`, `Encoding`);
- the event store, its queries and its integrity check, for the memory and the IPFS backend (`Events`,
  `Stored`, `MemoryDag`, `IpfsDag`, `CycleCheck`, `SubEventWalk`), what every history of `AddEvent` calls
  leaves behind (`History`), also when the IPFS node refuses events or answers queries (`IpfsHistory`), and the
  two backends side by side, snapshots included (`Snapshot`, `Lockstep`);
- the pool: its subscriber list (`Subscribers`), its run goroutine (`RunLoop`, `RunLoopProofs`, `Consumer`),
  and the whole of it as a state machine whose runs interleave every goroutine (`Pool`, `PoolProofs`, `MainLog`,
  `PoolTheorems`, `PoolDag`), what its single operations achieve (`PoolEffects`), the sub-events and the anchor each
  main event gets (`SubEventCount`, `Anchoring`), what becomes of accepted events and of `Close` (`QueueFate`), and
  drand round times (`Drand`);
- the hashpool adapter and its composition with the pool (`Adapter`, `AdapterProofs`, `AdapterCode`, `Submission`,
  `Chain`).

## How it is modelled

Strings are byte strings, as in Go. An event is an object whose `children` and `beacon` are updated through
its pointer; its content never changes. The backends, the subscriber list, the run goroutine and the adapter
are classes whose methods change their fields in place; each method is proved equal to a function on the
value of those fields, or to keep what the theorems rely on, and the theorems are about those functions. Iteration over a Go map is a choice of an
arbitrary remaining key, so every result holds for every iteration order.

`AddEvent` links an event into its parents' child lists before it has checked all of them, so a rejected call
can leave its identifier behind. The model keeps this exactly: `Add` is not atomic,
`RejectionIsAtomicExactly` says when it is, and the theorems about `Verify` and child lists are stated over
the identifiers left behind (`Residue`).

SHA-256 and the CID text form are one unknown function. It is assumed to be collision free, and to give
59-byte strings, only on `Hash.domain`, the encodings that occur in the run at hand. Length fields are 32 bits
wide: `Occurs` asks that lengths fit, and `OverlongFieldsCollide` shows two events that encode alike when they
do not. The type is written as its low byte, so `SameContent` compares types modulo 256.

The adapter's `Start`, `Stop` and `HandleCommitment` are whole methods over its shared fields. Between two of
their critical sections the other goroutines may change those fields in any way that the method's rely condition
allows; each section is proved to be a move of the adapter's state machine, and every run of the other moves is
proved to respect the rely condition.

What a step of the state machines or a function on a store does is stated a second time without them: by position in
the bytes, by what is in the store, by the rounds in the DAG, by what is unread in a buffer.

In the pool and adapter state machines an action carries every outside choice: random draws, beacon answers,
which goroutine runs next, payloads. Sections that the code runs under a lock, and single channel operations,
are one step. Sending on a closed channel, or closing one twice, sets a `panicked` flag that is proved never
to be set. History (insertion log, notifications, verdicts) is kept in extra fields that no step reads.

Where the documentation and the code differ, the model follows the code:

- the comment at dag/dag.go:96 says `Verify` checks the order of beacon anchors; it does not look at anchors at
  all (`PoolDag.AnchorsDoNotMatter`). Their order is a property of the pool (`AnchorsRespectAncestry`);
- `Verify` follows `Parents` only, not `ParentID`, and only the memory backend checks children;
- `GetChildren` of an unknown event is an error in the memory backend and an empty list in the IPFS backend
  (`ChildrenAgreeExactly`);
- a query on the IPFS backend caches what it fetches without looking at its references, so it can make `Verify`
  fail; `FetchKeepsVerifiedExactly` says when it does not. A fetch that ends late replaces an event indexed
  meanwhile, anchor included (`LateCacheReplacesAnchorOnly`);
- chaining commitments does not always give a chain: callbacks that overlap may build on the same predecessor.
  `CommitmentsChainExactly` is the exact condition for every interleaving, `OverlapBreaksTheChain` a run without it;
- the identifier returned by the pool's `AddEvent` does not mean the event reaches the DAG. The run goroutine stops
  for good when its context is cancelled, by `Close` or by the owner of the context given to `NewPool`, whatever is
  in the queue, and the queue goes on accepting. `AcceptedEventsFate` is the exact condition: an accepted event is
  taken, or still can be, if and only if the goroutine has not returned before taking it, and it has not as long as
  its context is not cancelled. Three runs lose one: it was queued before `Close` began
  (`QueuedBeforeCloseCanBeLost`), the context was cancelled and `Close` never called
  (`CancelledPoolKeepsAccepting`), or its call was under way when `Close` ran (`LateCallsAreLost`).

## Model

| member | source | states |
|---|---|---|
| `Encoding.WriteString` | dag/cid.go:89-97 | a string is appended as its big-endian 32-bit length and its bytes |
| `Encoding.SerializeEventContent` | dag/cid.go:50-86 | the loop over the sorted copy of the parents writes exactly the canonical encoding `Encode` |
| `Encoding.EncodeLayout` | dag/cid.go:44-86 | the bytes position by position, for every event: type byte, parent ID, number of parents, parents in lexicographic order, data, nothing else; lengths and count big-endian |
| `Wire.Be32IsBigEndian` | dag/cid.go:89-92 | the four bytes of a length field, most significant first, spell the length modulo 2^32 |
| `Wire.LeqIsLexicographic` | dag/cid.go:64-66 | the sorting order: a prefix first, otherwise the smaller byte at the first difference |
| `Wire.SortedIsUnique` | dag/cid.go:64-66 | a multiset of strings has one sorted listing, so any correct sort gives the same bytes |
| `Encoding.DecodeEncode` | dag/cid.go:44-86 | round trip: reading an encoding, followed by anything, gives back type byte, parent ID, sorted parents and data, and what follows |
| `Encoding.EncodeDecode` | dag/cid.go:44-86 | conversely, bytes that decode to sorted parents are exactly that event's encoding and the remainder |
| `Encoding.EncodesEqually` | dag/cid.go:13-20 | two events in range encode equally if and only if type byte, parent ID, parent multiset and data agree |
| `Encoding.PrefixFree` | dag/cid.go:44-86 | no encoding is a proper prefix of another |
| `Encoding.RoundTripExactly` | dag/cid.go:89-97 | an encoding decodes to its event if and only if every length fits its 32-bit field |
| `Encoding.OverlongFieldsCollide` | dag/cid.go:90-90 | lengths of 2^32 and more do make different events encode alike |
| `Encoding.SameIdSameContent` | dag/cid.go:21-42 | two events that occur have the same identifier if and only if their immutable content is the same |
| `MemoryDag.MemoryDag.AddEvent` | dag/memory.go:23-64 | verdict and whole new store, including what a rejected call leaves in child lists; the stored map changes only on success |
| `Events.AddMeans` | dag/memory.go:23-64 | the whole effect of a call on any store: nothing if it fails before the first link; else linked from its spawning event and every parent before the first missing one, as often as named; stored as given exactly if none is missing |
| `MemoryDag.MemoryDag.Link` | dag/memory.go:39-59 | the spawning event and the parents in front of the first missing one each gain the event as last child, once per occurrence |
| `MemoryDag.MemoryDag.LinkParents` | dag/memory.go:52-59 | the loop stops at the first parent that is not stored, with all earlier ones linked |
| `MemoryDag.MemoryDag.GetParents` | dag/memory.go:82-105 | the parents in order, or the error for the first missing one |
| `MemoryDag.MemoryDag.GetChildren` | dag/memory.go:107-130 | the children in order, or the error for the first missing one |
| `Events.QueriesMean` | dag/memory.go:82-130 | both queries on any store: errors for the empty and for an unknown identifier, all events named in order when stored, else an error for the first that is not |
| `MemoryDag.MemoryDag.GetSubEvents` | dag/memory.go:132-182 | the traversal over this backend's child lists |
| `MemoryDag.MemoryDag.GetMainEvents` | dag/memory.go:184-196 | each main event once and nothing else, in any iteration order |
| `MemoryDag.MemoryDag.Verify` | dag/memory.go:198-262 | nil exactly when parent IDs, parents and children are all stored and the parent relation has no cycle; a cycle error exactly when only the cycle is wrong |
| `MemoryDag.MemoryDag.Export` | dag/memory.go:265-278 | importing the snapshot gives back the events and an index of exactly the non-empty child lists, whatever keys the events are under; for events under their own identifiers that index is unique |
| `MemoryDag.MemoryDag.Import` | dag/memory.go:281-301 | the snapshot's events with their listed children restored; nothing changes on an unsupported version |
| `CycleCheck.CycleSearch.CheckCycle` | dag/memory.go:233-251 | the recursive search finishes the event with everything it leads to and restores the stack, or there is a cycle |
| `CycleCheck.CheckReferences` | dag/memory.go:202-227 | nil exactly when every reference is stored; otherwise it names an event with a dangling one |
| `CycleCheck.VerifyStore` | dag/memory.go:198-262 | for any event map and any iteration order: terminates, nil exactly when references are stored and no cycle exists, a reported cycle is real, and nil comes with a listing that ranks every parent before its child |
| `CycleCheck.TopologicalMeansAcyclic` | dag/memory.go:229-261 | such a ranking rules out every cycle, of any length |
| `SubEventWalk.Traversal.Traverse` | dag/memory.go:150-172 | visiting an event advances the walk exactly past it, errors included |
| `SubEventWalk.GetSubEvents` | dag/memory.go:132-182 | the recursive traversal computes the depth-first walk `SubEventsOf` |
| `SubEventWalk.WalkIsExact` | dag/memory.go:150-179 | from any stage of the walk on, what is found is exactly what is reachable through sub-events of the root |
| `SubEventWalk.SubEventsAreExact` | dag/memory.go:132-182 | on any event map, cyclic child links included: no duplicates, exactly the root's sub-events reachable through the root's sub-events, and an error exactly when the root is empty or unknown or a listed child is missing |
| `SubEventWalk.WalkIsDepthFirst` | dag/memory.go:150-179 | in which order: what the first children lead to is listed before anything the later ones add, and an error there is the answer |
| `IpfsDag.IpfsDag.AddEvent` | dag/ipfs.go:257-312 | the event gets its content identifier if it has none; verdict, event map and child index for either answer of the remote store, what a failed call leaves included |
| `IpfsDag.IpfsDag.AddIdentified` | dag/ipfs.go:271-311 | the same for an event that has its identifier |
| `IpfsDag.RefusalMeans` | dag/ipfs.go:298-309 | an event the remote store refuses is reported and not indexed, and its links stay |
| `IpfsDag.IpfsDag.GetEvent` | dag/ipfs.go:314-349 | a stored event with its child list filled in; an unknown one is fetched and cached, for any answer of the remote store; the empty identifier is refused |
| `IpfsDag.IpfsDag.CacheFetched` | dag/ipfs.go:336-342 | the section after the fetch writes unconditionally, whatever other calls have done since the lookup |
| `IpfsDag.IpfsDag.GetParents` | dag/ipfs.go:351-371 | the parents in order, fetched and cached as needed, or not found at the first that is nowhere |
| `IpfsDag.IpfsDag.GetChildren` | dag/ipfs.go:373-392 | the indexed children in order, fetched and cached as needed; the queried event itself is not looked up |
| `IpfsDag.ParentsInMeans` | dag/ipfs.go:351-371 | for any index and remote store: not found for an event that is nowhere; otherwise all parents in order, each with its own content, or not found for the first that is nowhere; nothing indexed changes |
| `IpfsDag.ChildrenInMeans` | dag/ipfs.go:373-392 | the same for the indexed children |
| `IpfsDag.IpfsDag.GetSubEvents` | dag/ipfs.go:394-443 | the traversal over the child index |
| `IpfsDag.IpfsDag.Verify` | dag/ipfs.go:461-518 | nil exactly when parent IDs and parents are stored and there is no cycle; children are not checked |
| `IpfsDag.IpfsDag.Export` | dag/ipfs.go:521-526 | round trip: importing the snapshot gives back exactly this index |
| `IpfsDag.IpfsDag.Import` | dag/ipfs.go:529-542 | both maps become the snapshot's, or nothing changes |
| `Snapshot.ExportThenImport` | dag/export.go:29-64 | importing an exported snapshot gives back both maps, also when the omitted child index was empty |
| `Snapshot.ImportMeaning` | dag/export.go:45-64 | a snapshot is accepted if and only if its version is 1, and absent maps count as empty |
| `Events.VerdictMeaning` | dag/memory.go:24-59 | which error, in the order of the checks: nameless, duplicate, sub-event without parent ID, its spawning event missing, the first missing parent; accepted exactly when none applies |
| `History.RejectionIsAtomicExactly` | dag/memory.go:39-59 | a rejected call leaves the store unchanged if and only if the guard in front of its first link is false |
| `History.ReplayInOrder` | dag/memory.go:23-64 | after every history of calls, insertion order ranks the combined relation of parents and parent ID |
| `History.NeverCyclic` | dag/memory.go:229-261 | after every history of calls, parent references are stored and no backend reports a cycle |
| `History.RejectedCallBreaksVerify` | dag/memory.go:52-59 | a history whose second call is rejected for its second parent leaves residue, and memory `Verify` fails from then on |
| `IpfsHistory.VerifyNeverFails` | dag/ipfs.go:461-518 | after every history of calls, accepted, rejected or refused by the remote store, IPFS `Verify` returns nil |
| `IpfsHistory.FetchKeepsVerifiedExactly` | dag/ipfs.go:330-342 | when a query caches a fetched event, `Verify` still returns nil if and only if all its references are indexed already |
| `IpfsHistory.LateCacheReplacesAnchorOnly` | dag/ipfs.go:330-342 | a fetch that ends after its event has been indexed, with the same content, changes nothing but the anchor, nothing at all if and only if the anchors agree, and not the outcome of `Verify` |
| `IpfsHistory.OnlyFetchedCanDangle` | dag/ipfs.go:257-349 | over every history, fetches ending at any later time included, only fetched events can refer to something that is not stored |
| `IpfsHistory.ReferencesStoredExactly` | dag/ipfs.go:465-483 | so all references resolve if and only if those of the fetched events do |
| `History.VerifyExactlyWhenResidueResolved` | dag/memory.go:198-262 | memory `Verify` returns nil if and only if every identifier left behind by a half-applied rejected call was accepted after all |
| `History.ChildrenAreLinks` | dag/memory.go:48-58 | each child list is, in order, exactly what the calls of the history appended to it |
| `History.ChildMultiplicity` | dag/memory.go:39-59 | an event no rejected call left behind is listed by p once if p spawned it plus once per occurrence of p among its parents, and others at least so often |
| `History.SubEventsAreTheFilter` | dag/dag.go:84-86 | on a store built by `AddEvent`, a successful `GetSubEvents` is the plain filter by parent ID, each event once; it succeeds when no residue is unresolved |
| `Lockstep.AddKeepsLockstep` | dag/ipfs.go:271-311 | one call on both backends gives the same verdict and keeps them showing the same store, child order and residue included |
| `Lockstep.ReplayKeepsLockstep` | dag/ipfs.go:257-312 | so does every history of calls |
| `Lockstep.QueriesAgree` | dag/ipfs.go:351-443 | for stored events `GetParents`, `GetChildren` and `GetSubEvents` agree between the backends, and leave the IPFS backend as it is, when the remote store has none of the events missing here |
| `Lockstep.ChildrenAgreeExactly` | dag/ipfs.go:373-392 | `GetChildren` agrees if and only if the event is stored or the identifier empty: for an unknown event, an error on one side and an empty list on the other |
| `Lockstep.TransferKeepsLockstep` | dag/export.go:29-64 | from either backend into either backend, a snapshot restores the same store, child order included |
| `Lockstep.RunsKeepLockstep` | dag/export.go:29-64 | any interleaving of calls, reloads and cross-backend transfers leaves both backends at the store the calls alone would have built |
| `Subscribers.SubscribeKeeps` | pool/pool.go:231-245 | subscribing keeps conservation, stream order, buffer bounds and listed-means-open |
| `Subscribers.NewSubscriptionHearsNext` | pool/pool.go:239-274 | a new subscription receives the next event, and the others receive what they would have without it |
| `Subscribers.SubscriberList.RemoveSubscriber` | pool/pool.go:250-261 | the subscription is detached and its channel, still open, closed; a second call does nothing |
| `Subscribers.UnsubscribeDetaches` | pool/pool.go:250-261 | the subscription alone leaves the list and is closed with what is unread in it; one that is not listed changes nothing |
| `Subscribers.SubscriberList.NotifySubscribers` | pool/pool.go:264-276 | every listed subscriber is offered the event once; full buffers are counted as drops |
| `Subscribers.NotifyDelivers` | pool/pool.go:264-276 | every listed subscription with room has the event as its last unread one, nobody else is touched, and exactly the listed ones with a hundred unread are counted as drops |
| `Subscribers.SubscriberList.CloseSubscribers` | pool/pool.go:457-463 | every listed channel is closed once and the list emptied |
| `Subscribers.NotifyKeeps` | pool/pool.go:264-276 | notification keeps conservation, stream order and buffer bounds |
| `Subscribers.UnsubscribeKeeps` | pool/pool.go:250-261 | unsubscribing keeps them too |
| `RunLoopProofs.SubEventAccepted` | pool/pool.go:501-523 | the DAG accepts every sub-event the loop builds: its identifier is new and everything it refers to is stored |
| `RunLoopProofs.WindowIsLast` | pool/pool.go:351-359 | appending and trimming the window gives the last hundred entries of the longer log |
| `RunLoopProofs.AnchoredKeeps` | pool/pool.go:536-559 | counting and anchoring keeps rounds rising along the log and the schedule's bookkeeping, whatever the beacon answers |
| `RunLoopProofs.TakeMainKeeps` | pool/pool.go:481-494 | taking an event off the queue, accepted or not, keeps the loop's invariant |
| `RunLoopProofs.AncestorsHaveSmallerRounds` | pool/pool.go:536-557 | an anchored proper ancestor, through any mix of parents and spawning, has the smaller round |
| `Consumer.Consumer.TakeMain` | pool/pool.go:481-486 | the event is inserted into the memory DAG and logged exactly as the loop's step says |
| `Consumer.Consumer.CreateSubEvent` | pool/pool.go:502-523 | the sub-event is built from its main event, index and drawn parents and inserted |
| `Consumer.Consumer.AddRecentEvent` | pool/pool.go:351-359 | of whatever log the window was the last hundred, it becomes the last hundred of that log with the event added |
| `Consumer.Consumer.SelectRandomParents` | pool/pool.go:319-348 | for all draws: distinct recent events, at most as many as asked, at least one when there are any; the first tries themselves if they differ; and a round is lost only if all its five tries hit events already chosen |
| `Consumer.Consumer.AnchorIfDue` | pool/pool.go:536-559 | the main event is counted and, when due and the beacon is valid and newer, anchored through its pointer |
| `PoolProofs.StepKeeps` | pool/pool.go:468-567 | every step of every goroutine keeps the pool's invariant |
| `PoolTheorems.SubEventsAreAlwaysInserted` | pool/pool.go:501-533 | in every run, creating a sub-event inserts it and reports no error |
| `SubEventCount.DrawnSubEventsAreCreated` | pool/pool.go:496-533 | from every reachable state, for every draw and along every continuation, the main event has exactly the drawn number of sub-events once its iteration ends and ever after, with payloads numbered from zero |
| `SubEventCount.SpawnStoresTheDraw` | pool/pool.go:502-523 | in every run a created sub-event is stored with its main event's identifier, the drawn parents in order, and the next payload |
| `SubEventCount.DrawsAreExact` | pool/pool.go:319-348 | exactly the duplicate-free selections of at most three recent events can be drawn as parents |
| `SubEventCount.EverySelectionCanBeSpawned` | pool/pool.go:502-513 | and whenever a sub-event is left to create, each of them can be |
| `PoolTheorems.AnchorsRespectAncestry` | pool/pool.go:544-551 | in every run, along any mix of parent and spawning links, an anchored ancestor has the strictly smaller round |
| `PoolTheorems.RoundsRiseWithInsertion` | pool/pool.go:544-551 | in every run, anchored rounds rise strictly in insertion order and none is above the last round used |
| `PoolTheorems.AnchoringSchedule` | pool/pool.go:536-559 | over the insertion log's main events, in order and each once: count = anchors * interval + failed attempts + min(count, interval - 1); anchors at least an interval apart; exactly every interval-th event anchored if and only if no attempt failed |
| `Anchoring.AnchoringIsExact` | pool/pool.go:536-557 | in every reachable state a finished main event is anchored, to the round given and its randomness, if and only if its interval is full and the round is sound and above every round in the DAG; otherwise a full interval counts as failed and is reported as missing or stale |
| `PoolTheorems.ChannelsAreUsedSafely` | pool/pool.go:231-286 | in every interleaving no channel is sent on after closing or closed twice; listed subscriptions are open, unlisted ones closed |
| `PoolTheorems.TellDelivers` | pool/pool.go:264-276 | in every reachable state the inserted event goes to every listed subscription with fewer than a hundred unread, whatever it received before, and is dropped for exactly the others |
| `PoolTheorems.NotificationsAreConserved` | pool/pool.go:263-276 | in every run accepted plus dropped equals offered, dropped exactly where there was no room; a subscriber with room throughout has received the whole insertion log between joining and leaving; the window is the last hundred |
| `PoolTheorems.CloseIsFinal` | pool/pool.go:440-466 | after `Close` no run inserts, notifies or reports an error, and every `AddEvent` started then is refused |
| `PoolEffects.OpenPoolTakesCalls` | pool/pool.go:408-438 | on a pool that is not closed every call gets through: with room its event, main and with the caller's parents and data, becomes the last queued, and it may also give up without a trace |
| `PoolEffects.ClosedPoolRefusesCalls` | pool/pool.go:411-415 | in every reachable state a new call changes nothing if and only if `Close` has begun |
| `PoolEffects.TakingIsExact` | pool/pool.go:480-486 | in every reachable state the oldest event is inserted as queued if it is new and its parents are stored; otherwise nothing is inserted and the failure is reported |
| `PoolEffects.CheckingIsExact` | pool/pool.go:561-564 | the periodic check reports exactly when the DAG does not verify |
| `PoolEffects.JoiningIsExact` | pool/pool.go:231-245 | in every reachable state subscribing adds an open, empty subscription, or nothing once `Close` has begun |
| `PoolEffects.LeavingIsExact` | pool/pool.go:250-261 | in every reachable state unsubscribing detaches and closes that subscription alone, what is unread stays readable, and a second call does nothing |
| `PoolEffects.ErrorsAreReadInOrder` | pool/pool.go:221-223 | whoever reads the error channel takes the oldest error |
| `PoolEffects.SubscribersReadInOrder` | pool/pool.go:264-276 | a subscriber that reads extends what it has read by its oldest unread event |
| `QueueFate.AcceptedEventsFate` | pool/pool.go:476-486 | in every reachable state an accepted event has been taken off the queue, or some continuation takes it, if and only if the goroutine has not returned before taking it; it has not while its context is not cancelled |
| `QueueFate.TakenEventsAreStored` | pool/pool.go:481-486 | in every run an event taken off the queue is in the DAG under the identifier its caller got, unless it named a parent the DAG did not have then |
| `QueueFate.QueuedBeforeCloseCanBeLost` | pool/pool.go:476-481 | a reached state in which an event queued before `Close` began can never be taken |
| `QueueFate.CancelledPoolKeepsAccepting` | pool/pool.go:408-438 | a reached state in which a pool that nobody closed has accepted an event that can never be taken |
| `QueueFate.LateCallsAreLost` | pool/pool.go:428-438 | a reached state in which `Close` has returned, a call under way was accepted, and its event is never inserted |
| `QueueFate.IterationIsNeverStuck` | pool/pool.go:481-559 | in every reachable state the goroutine's next step within an iteration is possible, for every draw and every beacon answer |
| `QueueFate.IterationIsBounded` | pool/pool.go:481-559 | along every run the goroutine takes no more steps within an iteration than its rank, at most twelve in reachable states, whatever is drawn, answered or done in between |
| `QueueFate.CloseCanComplete` | pool/pool.go:440-466 | from every reachable state `Close` can be called and return within the rest of the iteration and five steps, with no help from callers, subscribers or readers |
| `QueueFate.ShutdownIsBounded` | pool/pool.go:440-566 | along every run after `Close` has begun, the goroutine (verify ticks aside) and `Close` together take no more steps than the rest of the iteration, thirteen for each event queued or in flight, and four |
| `QueueFate.QuietMeansClosed` | pool/pool.go:440-466 | where neither the goroutine nor `Close` can take a step, `Close` has returned |
| `PoolTheorems.InsertedEventsStayVerified` | dag/cid.go:99-115 | an inserted event keeps identifier and content, and passes `VerifyCID`, in every later state |
| `PoolTheorems.TamperingIsDetected` | dag/cid.go:99-115 | an event that verifies and whose content is replaced verifies if and only if the contents are the same but for the order of parents |
| `PoolDag.AnchorsDoNotMatter` | dag/memory.go:198-262 | the integrity check does not depend on anchors |
| `PoolDag.PoolDagVerifies` | pool/pool.go:561-564 | in every run the periodic check finds no cycle and no dangling parent, and fails exactly while a half-applied rejected event is missing |
| `PoolDag.PoolSubEventsAreTheFilter` | pool/pool.go:496-534 | on the pool's DAG, anchors and all, a successful `GetSubEvents` lists each spawned sub-event exactly once |
| `PoolDag.PoolAnchorsAreSound` | pool/pool.go:384-396 | in every run only main events are anchored, each to a positive round with randomness, as validation demands |
| `Drand.RoundTimeExact` | beacon/drand.go:86-87 | the 64-bit round time is genesis + (round - 1) * period if and only if the product fits |
| `Drand.LaterRoundsAreLater` | beacon/drand.go:86-87 | later rounds are later by at least a period while the product fits |
| `Drand.OverflowRewinds` | beacon/drand.go:86-87 | one round past the limit the computed time goes backwards |
| `Drand.AncestorsAreAPeriodEarlier` | beacon/drand.go:86-87 | in every pool run an anchored ancestor's drand time precedes its descendant's by at least a period |
| `AdapterCode.AdapterCode.HandleCommitment` | hashpool/adapter.go:169-228 | with the others running between its sections: nothing changes unless running; what it passes to `AddEvent` is what the machine's callback calls with, its sole parent the last event at registration; it sends one error exactly when encoding or `AddEvent` fails, on an open channel; without overlap the wait group is restored and the accepted event, and only that, becomes the last one |
| `AdapterCode.AdapterCode.Start` | hashpool/adapter.go:119-143 | a running adapter is left alone; otherwise success means running unless `Stop` cancelled it meanwhile, failure means not running, and a running adapter with a cancelled context was cancelled by the owner of the context given to `Start` |
| `AdapterCode.AdapterCode.Stop` | hashpool/adapter.go:146-166 | a running adapter ends up cancelled, not running, with no callback left and the channel, still open until then, closed; any other is left alone |
| `AdapterCode.ReachableIsSound` | hashpool/adapter.go:146-179 | the precondition of these methods holds in every reachable state of the adapter and pool |
| `AdapterCode.OthersRespectCallback` | hashpool/adapter.go:169-222 | along every run of the other moves a registered callback keeps its place, a counted wait group and an open channel, and, alone, its predecessor |
| `AdapterCode.OthersRespectStop` | hashpool/adapter.go:152-163 | between clearing `running` and closing the channel, no run of the others starts, registers, or closes it |
| `AdapterCode.OthersRespectStart` | hashpool/adapter.go:126-138 | while the hashpool node starts, only `Stop` clears `running`, and it cancels the context with it; otherwise only the owner of the given context cancels |
| `AdapterCode.SequentialMeansAlone` | hashpool/adapter.go:169-179 | when callbacks do not overlap, a callback is alone from its registration on |
| `AdapterProofs.StopProtocolIsSafe` | hashpool/adapter.go:146-179 | in every interleaving no callback sends on the closed error channel, it is closed once and only with no callback left, and nobody registers after `Stop` |
| `AdapterProofs.CallbacksDrain` | hashpool/adapter.go:160-162 | from every state after `Stop` took effect, whatever the callbacks' commitments encode to, a run of callback steps only, no longer than they have left, empties the wait group |
| `AdapterProofs.QuietMeansDrained` | hashpool/adapter.go:211-217 | if, with the context cancelled by `Stop` or its owner, no callback can take a step with its payload, the wait group is zero: nothing is stuck, not even in the pool's `AddEvent` |
| `AdapterProofs.StopCanComplete` | hashpool/adapter.go:156-165 | so a `Stop` that took effect can return, the pool standing still, within the callbacks' steps and three of its own |
| `AdapterProofs.DrainIsBounded` | hashpool/adapter.go:160-162 | along every run after `Stop` the callbacks together take no more steps than they had left, at most four each |
| `Submission.CommitmentsCanBeSubmitted` | hashpool/adapter.go:205-222 | in every reachable system a registered callback can submit its commitment to an open pool with room: the event, following the one it read, is queued, accepted and remembered, and nothing else changes |
| `Submission.RunningAdapterSubmits` | hashpool/adapter.go:169-222 | so a running adapter can take a new commitment all the way, following the event it remembers |
| `Submission.EncodingFailuresAreReported` | hashpool/adapter.go:199-203 | a commitment that cannot be encoded ends with one error sent and nothing else changed |
| `Submission.AddFailuresAreReported` | hashpool/adapter.go:213-217 | so does one whose call on the pool fails because pool or context is done |
| `Submission.ClosingPoolRefuses` | pool/pool.go:411-415 | once the pool has begun to close, a commitment encoded from then on is refused and reported |
| `Submission.OwnerCanAbort` | hashpool/adapter.go:126-127 | cancelling the context given to `Start` is enough to end a call on the pool |
| `Submission.StartingIsExact` | hashpool/adapter.go:119-143 | an adapter not yet started can be, with either outcome: it then runs, with the context its owner gave it, or does not |
| `Submission.StartCanReturn` | hashpool/adapter.go:133-142 | whatever has happened meanwhile, `Start` can return either way, and on failure the adapter is not running |
| `Submission.RunningAdapterCanStop` | hashpool/adapter.go:146-165 | in every reachable system with a running adapter `Stop` can be called and return |
| `Submission.ErrorsAreReadOneByOne` | hashpool/adapter.go:102-106 | a reader takes one error off the adapter's channel |
| `Submission.CommitmentsAreAccountedFor` | hashpool/adapter.go:169-228 | in every interleaving each registered callback has had its event accepted, or has sent an error, or has yet to do one of the two, and never both |
| `Chain.ChainIdsDistinct` | hashpool/adapter.go:205-222 | along a chain no identifier repeats, even for identical payloads |
| `Chain.CommitmentsAreStored` | hashpool/adapter.go:205-222 | in every interleaving of adapter and pool, overlapping or not, chaining or not: a commitment names at most one parent, an earlier accepted commitment, is queued after it, and once taken off the queue is in the DAG, never rejected for a missing parent |
| `Chain.CommitmentsChainExactly` | hashpool/adapter.go:177-222 | in every interleaving: each commitment's sole parent is the one accepted just before it if and only if no two accepted ones were built on the same last event; then identifiers are distinct too |
| `Chain.CommitmentsFormAChain` | hashpool/adapter.go:169-222 | with chaining and no overlap that is always so: distinct identifiers, each commitment's sole parent its predecessor, the last event the end of the chain between callbacks |
| `Chain.DuplicatesComeFromOthers` | pool/pool.go:481-486 | a commitment the DAG already had was queued earlier by some other caller |
| `Chain.OverlapBreaksTheChain` | hashpool/adapter.go:169-222 | a run without it: two overlapping callbacks with the same payload build on the same last event and submit one event twice |

## Left out

- The pool's `AddEvent` and `Close` as methods: they are steps of the state machine in `Pool`; the locked sections and loops
  of the other pool operations are methods.
- `StopProtocolIsSafe`: one `Start`, and one `Stop` that takes effect; restarting a stopped adapter would reuse its closed error channel.
- `QueriesAgree`: the wrapped error of a missing parent is not compared.
- `IpfsDag.IpfsDag.GetEvent`: as a method it runs with no other call between its lookup and its caching; `CacheFetched` and the
  histories of `IpfsHistory` cover the calls that may come in between.
- `IpfsDag.IpfsDag.GetParents`: the remote store answers alike for one identifier within a single query; the identifier the
  node itself returns for a stored event is ignored, as the code does.
- `AcceptedEventsFate`, `CloseCanComplete`, `QuietMeansClosed`: the continuations they exhibit draw no further sub-events or
  parents; the sub-events already drawn are asked to occur (`PendingOccur`). `IterationIsNeverStuck`, `IterationIsBounded` and
  `ShutdownIsBounded` are about every draw.
- `AdapterCode.AdapterCode.Stop`: that a callback returns while it waits is part of `AwaitReturn`; `CallbacksDrain` and
  `QuietMeansDrained` are the reason.
- Acyclicity of fetched events among each other: it rests on the remote store being content addressed.
- `MemoryDag.MemoryDag.GetParents`: queries return event values, so later updates through a returned pointer are not captured.
- HTTP, disk, JSON text, logging, configuration checks, tickers and the distribution of random draws.
- Callers that change an event after handing it over, and events that arrive with children.
- A snapshot whose JSON holds a null event, which the code would dereference.
- The drand beacon's own fan-out (`Subscribe`, `Stop`, `run`): the same pattern as the pool's subscriber list with a buffer
  of one; the pool sees its answers as arbitrary rounds.
- Which of several sorting algorithms the library uses; `SortedIsUnique` makes it irrelevant.
- Counters are unbounded; wrap-around is modelled for the encoded lengths, the type byte and drand times only.
- The network layer, the hashpool node, node wiring, commands and examples.
