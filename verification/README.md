# Pinvou: verified models

A Dafny model of the parts of the Pinvou repository that are decided by small, intricate pieces
of code, with proofs of what those parts promise. `dafny verify dfyconfig.toml` checks it all.

Values that the code changes step by step are fields of classes here, and loops are loops. Each
such method is proved equal to a function on values; the protocols and stores are then state
machines over those functions, and the main results are about all their runs. The modules named
`Laws` go through the same runs column by column: when each row, slot or socket comes, changes and
goes, in comparisons of the values themselves and without the functions above.

* **Architecture guard** (`Reachability`, `Components`, `Ratchet`). Tarjan's algorithm with its
  mutable index, low links, stack and on-stack set, proved to report exactly the strongly
  connected components asked for. On top of it the comparison with a recorded baseline, and the
  ratchet between baselines. A baseline lets nothing but the unchanged debt pass exactly if none
  of its cycles lies strictly inside another (`Ratchet.HoldsDebtExactly`). Baselines the guard
  records itself never have one; a hand-written one may, and then a removed cycle goes unnoticed.
* **Remote relay** (`RelayState`, `Revocations`, `Relay`, `RelayServer`, `RelayProtocol`,
  `RelaySafety`, `RelayLaws`, `RateBuckets`). Every handler, close event, heartbeat and write step
  is one step of a state machine, in any order, with failing writes, crashes and restarts. A
  lease, a ticket and the identity of a record are values never used before. A write is split
  where `persistRevocation` awaits.
* **Cleanup of deleted sessions** (`CleanupQueue`, `CleanupHistory`, `CleanupFairness`,
  `CleanupBackoff`, `CleanupWorker`). The queue as it is, a log of what happened to state what is
  owed and how long a failure waits, and the worker loop with its permit and timer against
  concurrent enqueuers. An enqueue is two steps: the insertion under the lock and the notification
  after it.
* **Knowledge store** (`StoreTables`, `Store`, `StoreSafety`, `StoreTrash`, `StoreLaws`;
  `JoinTables`, `JoinStore`, `JoinSafety`, `JoinLaws`; `SignatureBall`, `VectorSearch`,
  `RankFusion`). Tables are maps, a transaction is one method, a new row id is any id not in the
  table. A document is live when its deletion time equals that of its collection: active in an
  active one, or put into the bin with it. Trashing and restoring a collection keep exactly the same documents live. Each method of
  `Store` and `JoinStore` is proved to do what the matching step of `StoreTables.Apply` or
  `JoinTables.Apply` does; the table below names those with more to them than that.
* **Chunker and limiter** (`Chunker`, `AttemptRate`), loops with arithmetic bounds.
* **Directory swaps** (`DirectorySwap`). Every file operation may fail, fail halfway, or be the
  last one before the process stops. A state amounts to one effective version: the one recovery
  will put in place.
* **Configuration overlays** (`MergePatch`), against section 2 of RFC 7396.

`Orders` holds strict total orders and the one sorted listing of a set, to which every sort of the
originals is tied; `Options` the option type.

Where the code does less than it is said to do, the model follows the code:

* `mergeConfig` says it applies JSON Merge Patch. Assigning to the member `__proto__` of an object
  that has no such member sets its prototype instead (`MergePatch.MergeConfig` gives the exact
  condition, `MergePatch.ProtoIsLost` an instance).
* The signature filter is meant to admit the Hamming ball around the query. `id_list` drops the
  signature 0, so rows with it are missed exactly when at most three bits of the query's signature
  are set (`SignatureBall.CompleteExactly`, `SignatureBall.ZeroIsMissed`).
* `replace_document_index` can give a document the content of another active one
  (`StoreSafety.UniqueExactly`, `StoreSafety.ReplaceMayDuplicate`).
* Only a successful completion with a rerun asked for can overtake a waiting first attempt, exactly
  if its clock reading is older than the time the waiting one was ready
  (`CleanupFairness.FinishOvertakesExactly`). That can occur, because the completion reads the
  clock before it takes the lock (`CleanupFairness.OlderReadingOvertakes`); the bound on the wait
  counts such overtakings (`CleanupFairness.StartsWithin`). The attempt limiter reads its clock
  before taking the lock too, and its bound is stated for readings that do not decrease.
* A revocation reported as failed is in the state file exactly if the failure came after the rename
  or the id was there before (`Revocations.FailedLingersExactly`). The next rename for another id
  drops it (`Revocations.RenameKeepsExactly`). A restart before that adopts it, and then the
  revocation reported as failed is in effect for good (`Revocations.RestartAdopts`,
  `Revocations.FailedMayTakeEffect`).

## Model

| member | source | states |
|---|---|---|
| Components.StronglyConnectedComponents | scripts/architecture-guard.py:212-250 | for every finite graph the report lists exactly the maximal mutually reachable node sets with more than one node or a self-edge; each list and the report itself are strictly sorted |
| Components.Finder.Visit | scripts/architecture-guard.py:220-242 | visiting a new node keeps the whole search invariant, leaves the stack of its callers as it was below the node, and reports exactly the reportable components closed so far; the recursion ends |
| Components.Finder.Explore | scripts/architecture-guard.py:229-234 | the loop over sorted targets leaves the low link of the node bounding, and witnessed by, what its explored targets reach on the stack |
| Components.Finder.Look | scripts/architecture-guard.py:229-234 | one target: visited and its low link merged, or its index merged if it is on the stack, or skipped |
| Components.Finder.PopComponent | scripts/architecture-guard.py:235-244 | a node whose low link is its index closes exactly its own component, reported if it is large enough or has a self-edge |
| Components.Finder.TakeSegment | scripts/architecture-guard.py:237-242 | the popping loop takes exactly the stack segment from the node upwards |
| Components.Finder.VisitIfNew | scripts/architecture-guard.py:248-249 | the outer loop adds one root and what it reaches, and leaves an empty stack |
| Components.SearchAll | scripts/architecture-guard.py:245-249 | after the outer loop every node has been visited and popped |
| Components.SegmentIsScc | scripts/architecture-guard.py:235-242 | when index and low link agree, the stack segment is a maximal strongly connected set |
| Components.SegmentClosed | scripts/architecture-guard.py:229-236 | every edge out of such a segment stays in it or leads to a closed component |
| Components.SegmentMutual | scripts/architecture-guard.py:229-236 | the node and any member of its segment reach each other |
| Components.ReportUnique | scripts/architecture-guard.py:250 | the postconditions determine the report: it does not depend on any iteration order |
| Components.ReportDisjoint | scripts/architecture-guard.py:237-244 | no node is reported twice, in one component or in two |
| Reachability.SccsMeetingAreEqual | scripts/architecture-guard.py:212-250 | two strongly connected components that share a node are the same set |
| Ratchet.CompareCounts | scripts/architecture-guard.py:447-458 | failures and updates are exactly the keys above and below their limit, in sorted order |
| Ratchet.CompareRules | scripts/architecture-guard.py:476-481 | the findings of all rules of either side, in sorted order of the rules |
| Ratchet.CurrentCycles | scripts/architecture-guard.py:486-492 | each current cycle is known, has shrunk, or is a failure |
| Ratchet.BaselineCycles | scripts/architecture-guard.py:493-498 | each baseline cycle is still there, has a smaller one inside it, or is an update |
| Ratchet.Compare | scripts/architecture-guard.py:468-500 | the findings of a whole comparison, or the schema mismatch alone |
| Ratchet.FindingsAre | scripts/architecture-guard.py:447-498 | failures are exactly the counts above their limit and the cycles over no recorded node set that do not lie, with more nodes than one, strictly inside one; updates exactly the counts below, the cycles that do, and the recorded cycles that are neither there nor have one strictly inside |
| Ratchet.PassesWhen | scripts/architecture-guard.py:468-504 | the guard passes if and only if no count differs in the sense compared, every current cycle equals a baseline cycle, and every baseline cycle is present or has a current cycle strictly inside it |
| Ratchet.CountsAgreeWhenCounting | scripts/architecture-guard.py:447-458 | for counts that are not negative, agreeing means that every key of every rule counts the same |
| Ratchet.PassesOnlyUnchanged | scripts/architecture-guard.py:468-504 | an unchanged debt passes, and against a baseline without nested cycles nothing else does |
| Ratchet.HoldsDebtExactly | scripts/architecture-guard.py:468-504 | for every baseline: every scan that passes the guard leaves counts and cycles unchanged if and only if no cycle of the baseline lies strictly inside another |
| Ratchet.CyclesHeldExactly | scripts/architecture-guard.py:486-498 | the same of the cycles alone: only the recorded cycles are accepted for every scan if and only if none is nested |
| Ratchet.NestedHidesRemoval | scripts/architecture-guard.py:493-498 | from any baseline the larger of two nested cycles can be removed, and the comparison passes without a finding |
| Ratchet.RecordedBaselineNotNested | scripts/architecture-guard.py:212-250 | a baseline recorded by the guard itself, being strongly connected components, has no nested cycles |
| Ratchet.CompareBaselineRatchet | scripts/architecture-guard.py:507-536 | the schema mismatch alone; or every count above the target branch's, each once, then the cycles it does not allow, in their order |
| Ratchet.RatchetPassesWhen | scripts/architecture-guard.py:461-536 | no failure if and only if no count is above the target branch's, every cycle of more nodes than one lies inside one of its cycles, and every single-node cycle equals one |
| Ratchet.RatchetFindingsAre | scripts/architecture-guard.py:507-536 | the failures are exactly the counts that rise and the cycles that do not lie so |
| Ratchet.RatchetRule | scripts/architecture-guard.py:520-529 | the failures of one rule are exactly its counts above the previous ones, each once |
| Ratchet.RatchetTrans | scripts/architecture-guard.py:507-536 | passing the ratchet is transitive |
| Ratchet.DebtNeverGrows | scripts/architecture-guard.py:507-536 | along any chain of accepted baselines no count of the newest is above the first's, and every cycle lies inside one of the first, a single node in an equal one |
| Ratchet.PassingScanTightens | scripts/architecture-guard.py:468-536 | a scan that passes against a baseline that passed the ratchet has no count above, and no cycle outside, what the target branch allows |
| CleanupQueue.SessionBrowserCleanupQueue.Enqueue | pinvou3-app/src-tauri/src/lib.rs:166-199 | a pending id is coalesced, one in flight is marked for a rerun, any other becomes pending at the next sequence number and stores a permit |
| CleanupQueue.SessionBrowserCleanupQueue.SelectReady | pinvou3-app/src-tauri/src/lib.rs:211-229 | the ready obligation with the least (failed attempts, ready time, sequence, id), or none if none is ready |
| CleanupQueue.SessionBrowserCleanupQueue.ClaimReadyUpTo | pinvou3-app/src-tauri/src/lib.rs:201-249 | the claims are the first `limit` of the ready obligations in that order, and these ids move from pending to in flight |
| CleanupQueue.SessionBrowserCleanupQueue.CompleteAttempt | pinvou3-app/src-tauri/src/lib.rs:251-286 | success forgets the id or, if marked, enqueues it anew; failure puts it back with a doubled, capped delay and one more failed attempt |
| CleanupQueue.SessionBrowserCleanupQueue.NextReadyDelay | pinvou3-app/src-tauri/src/lib.rs:288-296 | the shortest wait until any pending obligation is ready, and none exactly if nothing is pending |
| CleanupHistory.NoObligationLost | pinvou3-app/src-tauri/src/lib.rs:166-286 | in every run, until an attempt claimed after an enqueue succeeds, the id is pending, or in flight under a claim later than the enqueue, or in flight and marked; pending and in flight are disjoint, marks lie in flight |
| CleanupHistory.EnqueueKeepsInv | pinvou3-app/src-tauri/src/lib.rs:166-199 | an enqueue loses no obligation |
| CleanupHistory.ClaimKeepsInv | pinvou3-app/src-tauri/src/lib.rs:201-249 | a claim loses no obligation |
| CleanupHistory.FinishKeepsInv | pinvou3-app/src-tauri/src/lib.rs:251-286 | a completion loses no obligation, whether it succeeds or fails |
| CleanupFairness.EnqueueOvertakesExactly | pinvou3-app/src-tauri/src/lib.rs:166-199 | an enqueue changes what is ahead of a waiting first attempt if and only if it inserts an id with an older clock reading than the wait's; then by one |
| CleanupFairness.FinishOvertakesExactly | pinvou3-app/src-tauri/src/lib.rs:251-286 | a completion does so if and only if it is the success of a running attempt marked for a rerun, with an older clock reading; a failure never does |
| CleanupFairness.ClaimTakesOrAdvances | pinvou3-app/src-tauri/src/lib.rs:201-249 | a claim takes the waiting obligation, or takes its whole limit from what was ahead of it |
| CleanupFairness.StartsWithin | pinvou3-app/src-tauri/src/lib.rs:201-286 | whatever the clocks read, a first attempt starts once claims made since it was ready were allowed to take more than was ahead of it and overtook it |
| CleanupFairness.NoStarvation | pinvou3-app/src-tauri/src/lib.rs:201-286 | with readings that do not decrease, more than was ahead of it when it began to wait is enough |
| CleanupFairness.EnqueueNeverOvertakes | pinvou3-app/src-tauri/src/lib.rs:166-199 | as an enqueue reads the clock under the lock, none does in a run that can occur |
| CleanupFairness.OlderReadingOvertakes | pinvou3-app/src-tauri/src/lib.rs:445-465 | a completion does, in a run from the empty queue in which each reading is one the code can make: the worker reads the clock after its claim and takes the lock after a later enqueue |
| CleanupBackoff.WaitsAfterFailure | pinvou3-app/src-tauri/src/lib.rs:268-286 | after the k-th failure in a row, read at t, the id is pending and ready at t + min(250 * 2^(k-1), 30000) milliseconds |
| CleanupBackoff.NoRetryBefore | pinvou3-app/src-tauri/src/lib.rs:201-286 | no claim with an earlier reading starts it, whatever else happens |
| CleanupBackoff.StartsWhenReady | pinvou3-app/src-tauri/src/lib.rs:201-249 | a claim with room for all starts exactly what is ready by its reading |
| CleanupBackoff.TakesLeast | pinvou3-app/src-tauri/src/lib.rs:211-229 | what a claim takes has fewer failures than what it leaves though ready, or was ready earlier, or put back earlier; and then it has taken all it may |
| CleanupBackoff.FirstAttemptAtOnce | pinvou3-app/src-tauri/src/lib.rs:166-199 | what is enqueued when neither pending nor in flight is ready at that reading, with no failure counted |
| CleanupBackoff.AfterSuccess | pinvou3-app/src-tauri/src/lib.rs:262-277 | after a success the id is pending, ready at once and with no failure counted, if and only if it was enqueued again since its claim |
| CleanupBackoff.OwedExactly | pinvou3-app/src-tauri/src/lib.rs:166-286 | an id is pending or in flight if and only if it is owed: it was enqueued and no attempt claimed since then has succeeded |
| CleanupWorker.NextKeepsInv | pinvou3-app/src-tauri/src/lib.rs:433-474 | every step of the loop, of an enqueuer, a timer or an attempt keeps the worker invariant |
| CleanupWorker.NoWakeupLost | pinvou3-app/src-tauri/src/lib.rs:433-474 | whenever the worker is stopped it is at capacity with running attempts, or each pending id is covered by the timer or by a permit stored or about to be stored; the in-flight set equals the running attempts, at most eight |
| CleanupWorker.NeverStuck | pinvou3-app/src-tauri/src/lib.rs:441-470 | a stopped worker with anything left to do has a step that will wake it |
| CleanupWorker.TimerIsExact | pinvou3-app/src-tauri/src/lib.rs:288-296 | the timer is set for the earliest ready time, at once if that has passed, and for none if and only if nothing is pending |
| CleanupWorker.WorkerLosesNothing | pinvou3-app/src-tauri/src/lib.rs:433-474 | runs of the worker lose no obligation |
| CleanupWorker.WorkerStarts | pinvou3-app/src-tauri/src/lib.rs:433-474 | in every run of the worker a waiting first attempt starts once the free slots offered since it was ready outnumber what was ahead of it and overtook it |
| CleanupWorker.ClaimWithinCapacity | pinvou3-app/src-tauri/src/lib.rs:437-440 | a claim never brings the running attempts above the concurrency bound |
| RelayState.RelayStateContents | remote-control-relay/server.js:406-421 | the document written has version 1 and every revoked id once with its date, in the order of the comparison; or the size error |
| RelayState.LoadRelayState | remote-control-relay/server.js:423-461 | no file loads as an empty map; anything else loads if and only if it is a readable regular file holding a document that meets every condition the reader checks, and then to the map of its entries |
| RelayState.RoundTrip | remote-control-relay/server.js:406-461 | what is written within the limits is readable and reloads to the same map |
| Revocations.NextKeepsInv | remote-control-relay/server.js:479-516 | every step of a write, of its failures, of a crash and of a restart keeps memory within the file and the fulfilled ids within memory |
| Revocations.RevocationIsDurable | remote-control-relay/server.js:501-516 | an id whose revocation was fulfilled is in the state file, under the same date, at every later moment, and the file stays loadable |
| Revocations.MemoryWithinFile | remote-control-relay/server.js:501-516 | while the process runs the map in memory is contained in the file and within its cap |
| Revocations.BeginAnswers | remote-control-relay/server.js:501-516 | a call settles when its turn comes if and only if its id is revoked already, then well, or a limit is reached, then badly; otherwise its write begins |
| Revocations.WriteSucceeds | remote-control-relay/server.js:479-516 | within the limits a begun write, a rename and a commit are possible in turn and leave file and memory equal, with the id added under its date, and its ticket settled well |
| Revocations.NextRetains | remote-control-relay/server.js:479-516 | an id that is in the file and, while the process runs, in memory stays so under its date at every step |
| Revocations.FailedLingersExactly | remote-control-relay/server.js:479-516 | when a revocation fails, its id is in the file if and only if the failure came after the rename or it was there already; it is not in memory |
| Revocations.RenameKeepsExactly | remote-control-relay/server.js:479-499 | a rename leaves in the file exactly the ids in memory and its own, so the next one drops what a failed write of another id left |
| Revocations.OnlyRenameWrites | remote-control-relay/server.js:479-516 | and no other step changes the file |
| Revocations.RestartAdopts | remote-control-relay/server.js:423-461 | a start adopts exactly the ids of the file, and they stay revoked, under their dates, for good |
| Revocations.FailedMayTakeEffect | remote-control-relay/server.js:479-499 | from every state in which a write can fail after its rename, the failure, a crash and a start leave the id revoked |
| RelayServer.Server.ExpireEndpoint | remote-control-relay/server.js:599-620 | drops the record and closes the sockets in its slots, unless it is being revoked |
| RelayServer.Server.PruneExpiredEndpoints | remote-control-relay/server.js:622-630 | removing expired records one after another, each judged in the state its predecessors left, equals removing at once all that were expired at the start |
| RelayServer.Server.RegisterDesktop | remote-control-relay/server.js:771-845 | register, replace or refuse, with every early return in its place; the creation limiter is asked, and counts, only for a new id below the caps |
| RelayServer.Server.EnterEndpoint | remote-control-relay/server.js:782-826 | the part after expiry: what becomes of the slots, the record and the limiter |
| RelayServer.Server.ReplaceDesktop | remote-control-relay/server.js:812-826 | the desktop a registration replaces is closed if it is open and another one |
| RelayServer.Server.JoinWebClient | remote-control-relay/server.js:847-893 | a join takes the web slot under a new lease and closes the socket it replaces |
| RelayServer.Server.RevokeFromSocket | remote-control-relay/server.js:895-919 | what a revocation does up to its await: refuse, or mark record and socket and join the chain |
| RelayServer.Server.RevokeEndpoint | remote-control-relay/server.js:568-597 | removes the record it was given, only if that is still the live one, and closes its sockets |
| RelayServer.Server.ResumeRevocation | remote-control-relay/server.js:920-931 | what it does after its await: undo the marks, or revoke the very record it began with |
| RelayServer.Server.ForwardAuthenticatedMessage | remote-control-relay/server.js:933-1000 | a message is passed on only by a socket in its slot, to the open peer, and not under an old lease |
| RelayServer.Server.Send | remote-control-relay/server.js:164-188 | only an open socket that the relay is not closing receives, and one whose buffer cannot take the frame, or whose send fails, is broken off |
| RelayServer.Server.OnClose | remote-control-relay/server.js:1079-1102 | the close event empties the slot, if the socket still holds it, and a desktop slot keeps the time |
| RelayServer.DropAgain | remote-control-relay/server.js:622-630 | dropping records one by one leaves what dropping them together leaves |
| RelayServer.DropKeepsDesktop | remote-control-relay/server.js:622-630 | dropping other records makes none expire and saves none |
| RelayProtocol.RegisterKeepsInv | remote-control-relay/server.js:771-845 | a registration keeps the protocol invariant |
| RelayProtocol.JoinKeepsInv | remote-control-relay/server.js:847-893 | a join keeps it |
| RelayProtocol.RevokeKeepsInv | remote-control-relay/server.js:895-919 | a revocation up to its await keeps it |
| RelayProtocol.ResumeKeepsInv | remote-control-relay/server.js:920-931 | the rest of a revocation, failed or not, keeps it |
| RelayProtocol.ClosedKeepsInv | remote-control-relay/server.js:1079-1102 | a close event keeps it |
| RelayProtocol.PruneKeepsInv | remote-control-relay/server.js:622-630 | expiry keeps it, and so holds back records under revocation |
| RelayProtocol.ForwardSound | remote-control-relay/server.js:933-1000 | a message is passed on only between the two sockets now held by one live record, under the lease drawn for its web socket |
| RelayProtocol.WriteKeepsInv | remote-control-relay/server.js:479-516 | each step of a state write keeps the protocol invariant |
| RelayProtocol.CrashKeepsInv | remote-control-relay/server.js:423-461 | a crash keeps what the next start relies on |
| RelaySafety.NextKeepsInv | remote-control-relay/server.js:771-1140 | every step of the relay keeps the protocol invariant |
| RelayLaws.DesktopNeedsSecret | remote-control-relay/server.js:810-845 | a socket comes to hold the desktop slot of a record that was there only by a registration with that record's secret and token |
| RelayLaws.SecretRegainsSlot | remote-control-relay/server.js:771-845 | and a roleless socket with that pair, for a valid id that is not revoked and whose record does not time out, holds it afterwards; the desktop it replaces is closed |
| RelayLaws.WrongPairIsShut | remote-control-relay/server.js:810-820 | with any other pair it is closed and the record stays as it was |
| RelayLaws.DesktopOrigin | remote-control-relay/server.js:771-845 | in every run the desktop of a live record registered with its secret and token and has held the slot since |
| RelayLaws.WebNeedsToken | remote-control-relay/server.js:847-893 | a socket comes to hold a web slot only by joining with the token of the record, under the lease drawn |
| RelayLaws.TokenTakesSlot | remote-control-relay/server.js:847-893 | and a roleless socket with it, for a valid id whose record does not time out, holds it afterwards; the client it replaces is closed |
| RelayLaws.RevocationNeedsSecret | remote-control-relay/server.js:895-919 | a record comes under revocation if and only if the message names its secret, or none and comes from a desktop of that id; any other socket that asks is closed |
| RelayLaws.CredentialsStay | remote-control-relay/server.js:771-845 | a record keeps its id, secret and token as long as it lives |
| RelayLaws.IdsAreValid | remote-control-relay/server.js:771-919 | live ids have 4 to 128 characters of the allowed kind; a message with another id changes no record and closes its socket |
| RelayLaws.Records | remote-control-relay/server.js:599-1102 | at every step, exactly when a record comes, with what credentials, when it goes, and what it becomes |
| RelayLaws.Sockets | remote-control-relay/server.js:164-1102 | at every step, exactly which sockets get a role and which are closed |
| RelayLaws.Rest | remote-control-relay/server.js:895-1000 | at every step, exactly which message is delivered, which revocation waits and joins the chain, and which lease is drawn |
| RelaySafety.SlotsExclusive | remote-control-relay/server.js:771-893 | in every reachable state a socket is in at most one slot of one live record; web and lease are both set or both empty and agree; the desktop slot is empty exactly when the offline time is set |
| RelaySafety.CapsHold | remote-control-relay/server.js:787-793 | live records never exceed their cap, and neither do revoked ids |
| RelaySafety.FrameAtSending | remote-control-relay/server.js:933-1000 | every frame passed on in a run went, at that moment, between the two sockets of one live record under its current lease, and its sender was one of them |
| RelaySafety.FrameUnderItsLease | remote-control-relay/server.js:847-1000 | every frame ever passed on carries a lease that was drawn for its web socket, and a tag, if any, that equals it |
| RelaySafety.StepHolds | remote-control-relay/server.js:771-893 | only a socket without a role can come to hold a slot |
| RelaySafety.LosesSlot | remote-control-relay/server.js:771-1140 | a socket that held a slot and holds none after a step is out: it has its role and no slot |
| RelaySafety.OutForever | remote-control-relay/server.js:771-1000 | a socket that is out stays so, and no frame goes from it or to it ever again, even if its id is registered anew |
| RelaySafety.LostForever | remote-control-relay/server.js:771-1140 | so it is with every socket that is replaced or left by an expired or revoked record |
| RelaySafety.StepExpires | remote-control-relay/server.js:599-630 | apart from a restart and its own revocation, a record leaves only by expiry: not under revocation and offline for the TTL |
| RelaySafety.OfflineSinceClose | remote-control-relay/server.js:1096-1101 | an offline time is the time of the close event of its desktop, and the slot has been empty at every step since |
| RelaySafety.ExpiredOnlyAfterTtl | remote-control-relay/server.js:599-630 | whenever a record expires its desktop closed at least a TTL before, and stayed away |
| RelaySafety.BuriedForever | remote-control-relay/server.js:781-785 | an id that is in the file, in memory while the process runs, and not registered stays so |
| RelaySafety.StopMakesFinal | remote-control-relay/server.js:423-461 | when the process stops, whatever the file has is final, the ids of failed revocations included |
| RelaySafety.CompletedRevocationIsFinal | remote-control-relay/server.js:895-931 | once a revocation has completed, its id is in the state file at every later step and never registered again, through any interleaving, write failures and restarts |
| RateBuckets.Limiter.Consume | remote-control-relay/server.js:268-277 | an attempt is refused exactly when the bucket of its address is running and full; for a clock that does not go back the answer depends on accepted attempts alone |
| RateBuckets.FullMeans | remote-control-relay/server.js:268-277 | whoever is refused had as many attempts accepted as the limit allows, in the window ending now |
| RateBuckets.Limiter.Heartbeat | remote-control-relay/server.js:1107-1114 | exactly the buckets whose window is over are deleted, and that changes no later answer |
| RateBuckets.Limiter.TwiceTheLimit | remote-control-relay/server.js:268-277 | no interval of one window length holds more than twice the limit of accepted attempts |
| AttemptRate.Limiter.Check | pinvou-knowledge/src/service.rs:97-126 | an attempt is refused exactly when the named limit is full over the window ending now, the global limit being looked at first; only accepted attempts are recorded |
| AttemptRate.Limiter.RetainRecent | pinvou-knowledge/src/service.rs:110-115 | every deque loses exactly its old times, and no empty deque is kept |
| AttemptRate.PopOld | pinvou-knowledge/src/service.rs:107-109 | the popping loop leaves exactly the times after the cutoff |
| AttemptRate.Limiter.WindowBound | pinvou-knowledge/src/service.rs:97-126 | in every reachable state no interval of one window length holds more than the limits, globally and by source, and the global deque is the merge of the deques of the sources |
| AttemptRate.AnyWindow | pinvou-knowledge/src/service.rs:97-126 | being within the limit at each accepted attempt bounds every interval of that length |
| AttemptRate.Merge | pinvou-knowledge/src/service.rs:97-126 | the recent times of all sources are the recent log, and those of one source its part of it |
| Store.Store.CreateCollection | pinvou-knowledge/src/store.rs:361-376 | a new active collection |
| Store.Store.TrashCollection | pinvou-knowledge/src/store.rs:418-445 | the bumped time marks the collection and its active documents; the bumping loop ends at the first time no document of it has |
| Store.Store.RestoreCollection | pinvou-knowledge/src/store.rs:447-471 | the documents that carry the marker, and no other, become active again |
| Store.Store.InsertDocument | pinvou-knowledge/src/store.rs:526-579 | refused in a collection that is not active; with deduplication the existing document with the least id is returned instead |
| Store.Store.FirstTwin | pinvou-knowledge/src/store.rs:547-553 | the active document of the same content with the least id |
| Store.Store.ReplaceDocumentIndex | pinvou-knowledge/src/store.rs:695-746 | the chunks of the document are replaced by the new ones, numbered from zero, or nothing changes |
| Store.Store.RestoreDocument | pinvou-knowledge/src/store.rs:791-824 | restores only in an active collection, and not beside an active document of the same content |
| Store.Store.PermanentlyDeleteDocument | pinvou-knowledge/src/store.rs:826-847 | removes a trashed document of an active collection with its chunks and returns its path |
| Store.Store.PermanentlyDeleteCollection | pinvou-knowledge/src/store.rs:849-879 | removes a trashed collection with its documents and chunks and returns exactly their paths |
| Store.Store.PurgeExpiredTrash | pinvou-knowledge/src/store.rs:883-915 | exactly the documents go whose own deletion time or whose collection's is set and not after the cutoff, exactly such collections, and the chunks of what goes; all other rows stay as they are; the paths returned are those of the documents removed, each once |
| StoreTables.Unused | pinvou-knowledge/src/store.rs:425-432 | the marker is the first time from now on that no document of the collection has |
| StoreLaws.DocumentGoes | pinvou-knowledge/src/store.rs:826-915 | in every run a document goes if and only if a purge finds its own deletion time or its collection's not after the cutoff, or it is deleted from the bin of an active collection, or its trashed collection is deleted |
| StoreLaws.DocumentComes | pinvou-knowledge/src/store.rs:526-579 | it comes if and only if it is inserted into an active collection which, with deduplication, has no active document of that content; as a pending one without chunks |
| StoreLaws.DocumentBinned | pinvou-knowledge/src/store.rs:418-445 | it goes into the bin exactly by itself, at the time given, or with its collection, at the time that gets |
| StoreLaws.DocumentRestored | pinvou-knowledge/src/store.rs:447-471 | it leaves the bin exactly by itself, into an active collection without an active document of its content, or with its collection if their times agree; else its time stays |
| StoreLaws.DocumentChanges | pinvou-knowledge/src/store.rs:695-778 | otherwise it changes exactly by a new index of an active document, one vector for each chunk, or by a failure |
| StoreLaws.ChunksAre | pinvou-knowledge/src/store.rs:711-727 | the chunks of a document are the texts of its last index, numbered from zero, and go with it |
| StoreLaws.CollectionGoes | pinvou-knowledge/src/store.rs:849-915 | a collection goes if and only if a purge finds its deletion time not after the cutoff, or it is deleted from the bin |
| StoreLaws.CollectionComes | pinvou-knowledge/src/store.rs:361-376 | a collection comes exactly when it is created, active and ready |
| StoreLaws.CollectionBinned | pinvou-knowledge/src/store.rs:418-445 | it goes into the bin exactly when it is trashed, at the first time from then on that no document of it has |
| StoreLaws.CollectionRestored | pinvou-knowledge/src/store.rs:447-471 | it leaves the bin exactly when it is restored |
| StoreLaws.CollectionChanges | pinvou-knowledge/src/store.rs:402-416 | its name changes exactly by an update while it is active, its status by being set or by a new index of a document |
| StoreLaws.ActiveStays | pinvou-knowledge/src/store.rs:418-915 | an active document stays so until it or its collection is put into the bin |
| StoreSafety.StepKeepsIntegrity | pinvou-knowledge/src/store.rs:418-915 | every transaction keeps: no document or chunk orphaned, chunks carry the collection of their document, order numbers are exactly those below its chunk count |
| StoreSafety.RunKeepsIntegrity | pinvou-knowledge/src/store.rs:418-915 | so it holds in every reachable state |
| StoreSafety.TrashKeepsLive | pinvou-knowledge/src/store.rs:418-445 | trashing a collection keeps the same documents live, counting those that went into the bin with it |
| StoreSafety.RestoreKeepsLive | pinvou-knowledge/src/store.rs:447-471 | and so does restoring it |
| StoreSafety.UniqueExactly | pinvou-knowledge/src/store.rs:526-824 | a transaction leads to two live documents of one collection with one content hash if and only if it inserts without deduplication, or replaces an index, while another active document has that hash |
| StoreSafety.CarefulRunUnique | pinvou-knowledge/src/store.rs:526-579 | over runs with deduplicating inserts and no new index with a new hash, no two active documents of a collection share a content hash |
| StoreSafety.ReplaceMayDuplicate | pinvou-knowledge/src/store.rs:695-746 | four transactions that end with two active documents of one content hash |
| StoreTrash.StepKeepsBin | pinvou-knowledge/src/store.rs:418-915 | while a collection is in the bin no transaction but its restoration or removal changes the status of its documents |
| StoreTrash.TrashRestoreRoundTrip | pinvou-knowledge/src/store.rs:418-471 | trash, any other transactions, restore: exactly the documents that were active are active again, and those in the bin are as they were in it |
| StoreTrash.BinnedBeforeStays | pinvou-knowledge/src/store.rs:883-915 | a document that was in the bin before its collection is still there at the end, unless a purge took it by its own age |
| StoreTrash.PurgeTakesBoth | pinvou-knowledge/src/store.rs:883-915 | a purge takes a document that went into the bin with its collection exactly when it takes the collection, that is, when their common time is not after the cutoff |
| JoinStore.Store.CreateJoinRequest | pinvou-knowledge/src/store.rs:1089-1154 | stores a request that is pending or, if it names a share that has not been stopped and has not run out and that approves by itself, approved with its device; or rolls both back |
| JoinStore.Store.StopShare | pinvou-knowledge/src/store.rs:1069-1087 | stops the share of an id, if it is not stopped yet |
| JoinStore.Store.ApproveJoinRequest | pinvou-knowledge/src/store.rs:1202-1253 | approves a pending request that has not run out and adds its device in one transaction |
| JoinStore.Store.RemoveDevice | pinvou-knowledge/src/store.rs:1470-1498 | removes a device that is not an owner's and rejects every pending request in the same transaction |
| JoinStore.Store.AuthorizeToken | pinvou-knowledge/src/store.rs:1360-1387 | a token authorizes if and only if a device has it that is not revoked |
| JoinSafety.StepKeepsInv | pinvou-knowledge/src/store.rs:1089-1545 | every transaction keeps the origin of each device, the ids held back for pending requests and the host owner's device |
| JoinSafety.SettledOnce | pinvou-knowledge/src/store.rs:1156-1298 | a request never goes; it leaves Pending at most once and nothing about it changes afterwards |
| JoinLaws.ApprovalOrigin | pinvou-knowledge/src/store.rs:1089-1253 | every approved request was let in, by the host in time and for the scope named, or by a share that was open and approves by itself, for reading; it carries that scope, and its device was added with it, under its name and token, not revoked |
| JoinLaws.OwnerOrigin | pinvou-knowledge/src/store.rs:1202-1545 | every owner's device was made one by the host path, an approval naming Owner, an update naming Owner or an owner role, and has been one since |
| JoinLaws.RevokedStays | pinvou-knowledge/src/store.rs:1432-1468 | a revoked device stays revoked until an update or the recovery of the host says otherwise |
| JoinLaws.RemovedTokenIsDead | pinvou-knowledge/src/store.rs:1360-1498 | once a member that joined by a request has been removed its token authorizes nobody, unless a host owner's device is given that token |
| JoinLaws.RequestComes | pinvou-knowledge/src/store.rs:1089-1154 | a request comes if and only if what it brings is new and the share it names, if any, is neither stopped nor run out; pending, or approved for reading if that share approves by itself |
| JoinLaws.RequestSettles | pinvou-knowledge/src/store.rs:1156-1298 | what becomes of a pending request at every step: approved in time, expired, cancelled by its claim, rejected by the host or by the removal of a member, or still pending |
| JoinLaws.DeviceComes | pinvou-knowledge/src/store.rs:1089-1358 | a device comes exactly by an approval, a share that approves by itself or the host path, each with a token no device has, and with the scope of that path |
| JoinLaws.DeviceGoes | pinvou-knowledge/src/store.rs:1470-1498 | it goes exactly by its removal, and not if it is an owner's |
| JoinLaws.DeviceChanges | pinvou-knowledge/src/store.rs:1334-1545 | it changes exactly by an update, if it is not an owner's; by the recovery of the host; or by an owner role, if it is neither the host's nor revoked |
| JoinLaws.HostChanges | pinvou-knowledge/src/store.rs:1314-1358 | the host owner's device is the last one added or recovered as such |
| JoinLaws.ShareComes | pinvou-knowledge/src/store.rs:1025-1056 | a share comes if and only if its secret and its id are new, not stopped |
| JoinLaws.ShareChanges | pinvou-knowledge/src/store.rs:1069-1087 | a share changes only by being stopped |
| JoinSafety.StoppedForGood | pinvou-knowledge/src/store.rs:1069-1087 | a stopped share stays stopped, and so never approves a request again |
| JoinSafety.DeviceOrigin | pinvou-knowledge/src/store.rs:1089-1358 | every device was drawn for a host owner or comes from an approved request, with the token of that request |
| JoinSafety.HostStays | pinvou-knowledge/src/store.rs:1432-1545 | the host owner's device is always there, an owner and not revoked |
| JoinSafety.DeletedForGood | pinvou-knowledge/src/store.rs:1470-1498 | the id of a removed device never comes back |
| JoinSafety.NoLateDevice | pinvou-knowledge/src/store.rs:1470-1498 | no request submitted before a removal is pending after it, and none ever brings a device that was not there already |
| SignatureBall.Neighbors | pinvou-knowledge/src/store.rs:1741-1761 | for any bit width the list has no duplicates, is exactly the signatures within Hamming distance three, and has 1+N+C(N,2)+C(N,3) entries |
| SignatureBall.NeighborValues | pinvou-knowledge/src/store.rs:1741-1761 | as integers: ascending, the values of that ball, and as many |
| SignatureBall.IdList | pinvou-knowledge/src/store.rs:1909-1916 | the list keeps exactly the positive numbers |
| SignatureBall.AdmittedExactly | pinvou-knowledge/src/store.rs:1608-1619 | the filtered scan admits exactly the rows without a signature and those in the ball with a signature other than zero |
| SignatureBall.CompleteExactly | pinvou-knowledge/src/store.rs:1608-1619 | it finds every row in the ball if and only if the query's signature has more than three bits set |
| SignatureBall.ZeroIsMissed | pinvou-knowledge/src/store.rs:1909-1916 | with the signature 1 it misses the rows with signature 0, at distance one |
| VectorSearch.BestCandidates | pinvou-knowledge/src/store.rs:1597-1649 | of the scored rows, as many as asked for and at most 200: scores fall, or are equal and ids rise, and no row left out beats one of them; the first of the full sort |
| VectorSearch.SearchVectors | pinvou-knowledge/src/store.rs:978-991 | nothing for an empty query; else the rows of those winners that can be fetched, with their scores, in their order |
| VectorSearch.NoWinnerLost | pinvou-knowledge/src/store.rs:1650-1694 | where every winner has a positive id and can be fetched, each is in the result, at its place |
| VectorSearch.RankOrder | pinvou-knowledge/src/store.rs:237-245 | floats without the sign bit are above those with it; the former compare as their bits, the latter the other way |
| VectorSearch.RankInjective | pinvou-knowledge/src/store.rs:237-245 | floats that `total_cmp` calls equal are the same 32 bits |
| VectorSearch.TopIsPrefix | pinvou-knowledge/src/store.rs:1632-1649 | the best k, sorted, are the first k of everything sorted |
| VectorSearch.BetterTotal | pinvou-knowledge/src/store.rs:237-245 | the candidate order is a strict total order on ids and floats, NaN and both zeros included |
| RankFusion.AddRanks | pinvou-knowledge/src/store.rs:944-953 | a pass over one list adds, in its order, what each place is worth to the entry of the hit's key and keeps the first hit of a key, in whatever arithmetic |
| RankFusion.Search | pinvou-knowledge/src/store.rs:929-970 | nothing without a collection or for a blank query; else min(limit clamped to 1..50, number of keys) entries, each with the first hit of its key and the whole score; each leads the next and all left out by a higher score, or with an equal one by document and then order, whatever the hash map order and the rounding |
| RankFusion.ScoreAt | pinvou-knowledge/src/store.rs:944-953 | without rounding a hit at places i and j of the two lists scores 1/(61+i) + 1/(61+j), in one list only its part |
| RankFusion.AheadInBoth | pinvou-knowledge/src/store.rs:944-970 | in exact arithmetic a hit that both lists put ahead of another comes before it |
| Chunker.ChunkText | pinvou-knowledge/src/lib.rs:253-282 | the loop produces exactly the non-blank chunks of the interval sequence, and nothing for a blank text or size zero |
| Chunker.FindEnd | pinvou-knowledge/src/lib.rs:261-269 | the latest sentence end in the last two fifths, or the full length |
| Chunker.EndIs | pinvou-knowledge/src/lib.rs:261-269 | a chunk that is not the last ends as late as possible after a boundary past three fifths, or is of full length because there is none |
| Chunker.IntervalsCover | pinvou-knowledge/src/lib.rs:257-280 | the intervals start at the start, end at the end, leave no gap, never run back, and are not empty or longer than the size |
| Chunker.EndsIncrease | pinvou-knowledge/src/lib.rs:278-279 | for an overlap up to three fifths of the size, ends strictly increase and neighbours share exactly the overlap |
| Chunker.CountBound | pinvou-knowledge/src/lib.rs:257-280 | at most 1+(n-1)/max(1, 3m/5+1-o) chunks |
| Chunker.Rebuilds | pinvou-knowledge/src/lib.rs:257-280 | dropping each overlap and joining the chunks gives the text back |
| Chunker.NothingLost | pinvou-knowledge/src/lib.rs:270-273 | every visible character is in a chunk that is kept |
| Chunker.KeptExactly | pinvou-knowledge/src/lib.rs:270-273 | what is kept are exactly the intervals that are not blank, in their order |
| DirectorySwap.FileSystem.ReplaceDataDir | pinvou-knowledge/src/backup.rs:475-494 | wherever it stops and whatever fails, the effective version is the old or the new one; success means the new one in place and no rollback copy; an error, that the new one is in place and only cleaning up failed, or that the old one is effective and the new one still waits, and if nothing else failed everything is as before |
| DirectorySwap.FileSystem.RecoverInterruptedRestore | pinvou-knowledge/src/backup.rs:55-72 | keeps the effective version wherever it stops; when it ends well that version is in place whole and the rollback copy is gone |
| DirectorySwap.FileSystem.RecoverModelDirectory | pinvou-knowledge/src/model_download.rs:151-212 | the same for the model directory, with backups of earlier releases: the only one is put in place, several are refused |
| DirectorySwap.FileSystem.RecoverBackup | pinvou-knowledge/src/model_download.rs:152-167 | the part about the current backup |
| DirectorySwap.FileSystem.RemoveLegacy | pinvou-knowledge/src/model_download.rs:200-211 | cleaning up earlier backups touches nothing else, and failures do not stop it |
| DirectorySwap.FileSystem.InstallModelCandidate | pinvou-knowledge/src/model_download.rs:216-250 | success means the candidate is in place; an error that the old version is effective and the candidate still waits, and if nothing else failed the old directory is in its place at once; stopping anywhere leaves one of the two |
| DirectorySwap.SwapAndRecover | pinvou-knowledge/src/backup.rs:55-72 | a swap stopped anywhere, then recoveries each stopped anywhere, then one that ends well: the target is whole, old or new, and no rollback copy is left |
| DirectorySwap.InstallAndRecover | pinvou-knowledge/src/model_download.rs:151-250 | an installation stopped anywhere, then recoveries: once one ends well, the version before or the candidate is in place whole, and no backup is left |
| MergePatch.MergeConfig | pinvou3-app/scripts/tauri/effective-config.js:20-31 | for every order of members, the own properties computed are the merge of section 2 of RFC 7396 if and only if no member `__proto__` is assigned that the target lacks there; if one is, they are not the merge into any target |
| MergePatch.ComposeEffectiveConfig | pinvou3-app/scripts/tauri/effective-config.js:56-59 | after each overlay the reduction has the fold of the merge if and only if the overlay assigns no such member to what it had before and repairs every difference from the fold; without any collision it has the fold |
| MergePatch.RepairsExactly | pinvou3-app/scripts/tauri/effective-config.js:18-31 | an overlay takes two targets to the same result if and only if it removes or replaces every member in which they differ |
| MergePatch.Idempotent | pinvou3-app/scripts/tauri/effective-config.js:18-31 | applying an overlay twice equals applying it once |
| MergePatch.KeepsUntouched | pinvou3-app/scripts/tauri/effective-config.js:18-31 | every path an overlay does not mention keeps its value |
| MergePatch.SetsItsLeaves | pinvou3-app/scripts/tauri/effective-config.js:18-31 | every leaf of an overlay is in the result |
| MergePatch.RemovesItsNulls | pinvou3-app/scripts/tauri/effective-config.js:24-25 | every null of an overlay removes its path |
| MergePatch.MakesObjects | pinvou3-app/scripts/tauri/effective-config.js:18-31 | where an overlay has an object there is one |
| MergePatch.NothingBelow | pinvou3-app/scripts/tauri/effective-config.js:18-31 | below a leaf or a null of an overlay there is nothing |
| MergePatch.LastDecides | pinvou3-app/scripts/tauri/effective-config.js:56-59 | the last overlay that sets a leaf decides it |
| MergePatch.LastRemoves | pinvou3-app/scripts/tauri/effective-config.js:56-59 | and if the last one that mentions it removes it, it is gone |
| MergePatch.StillFaithful | pinvou3-app/scripts/tauri/effective-config.js:20-31 | where an overlay can be applied faithfully, it can be so again |
| MergePatch.ProtoIsLost | pinvou3-app/scripts/tauri/effective-config.js:27 | an overlay that sets `__proto__` on the empty object is such a case, while RFC 7396 keeps it |

## Left out

- Architecture guard: scanning sources with regular expressions, reading baselines from git, and Python's recursion limit.
- RelayState.RoundTrip: the text encoding of JSON and its size are parameters, and the locale comparison that sorts ids is any strict total order.
- Revocations.RevocationIsDurable: a rename that has happened stays; loss of power before the disk has it, which the directory synchronisation guards against, is not modelled.
- Revocations: `persistRevocation` and the worker loop in CleanupWorker are state machines on values, because every await splits a call into steps that others come between; their updates in place are not shown.
- RelayServer.Server.Send: contents of messages, audit records and notifications of the relay itself; whether the buffer has room and the send succeeds is one parameter, and a notification that fails, or an error that a send reports later, is a socket that breaks.
- Relay: hashes of tokens and secrets are injective, so the model compares what is hashed; timers for authentication and the ingress limits are sockets rejected at any time.
- Relay: HTTP routing, static files, origins, proxies and addresses.
- CleanupWorker.NoWakeupLost: the timer may start as late as the time between reading the clock and arming it, and an enqueuer between insertion and notification counts as a permit about to be stored.
- CleanupQueue: saturation of counters and durations, cancelled attempts and panics; what an attempt does is its success or failure.
- Store: creation and update times, sizes, extensions and descriptions of rows; reading and listing; the full-text index and its triggers.
- Store: failures of SQLite itself; a transaction is one atomic step.
- Store: filling in missing signatures, which changes no row but its signature.
- JoinStore: invites, names of shares, the last-seen time, and hashing and drawing of secrets; a device id is one never drawn before. `add_device` is only used by the repository's tests.
- SignatureBall: how a vector gets its signature, and the 64-bit width of the stored integer, which bounds the bit width that can occur to 62.
- VectorSearch.BestCandidates: the cosine is computed elsewhere, a row comes with its float; the heap is a set of candidates whose worst can be found.
- RankFusion.Search: addition and weights are any functions on the scores, so rounding may be anything; the two lists are any lists of hits.
- RankFusion.AheadInBoth: stated without rounding, which could make the two scores tie.
- Chunker.ChunkText: saturation of the machine word in the arithmetic on sizes near its maximum.
- AttemptRate.Limiter.Check: a clock within one window of its origin, and readings that go back in lock order.
- DirectorySwap: durability of renames against loss of power, removing the manifest from the new data directory, a model directory without a parent, and the text of warnings.
- DirectorySwap: a rename onto an existing directory fails in the model even if that directory is empty.
- MergePatch: numbers and strings are known by their text, and other members inherited from the ordinary prototype are functions, which count as no object.
- The state machine that loads the embedding model: it adds only easy members.
- Embedding, document parsing, downloading, encryption, TLS, MCP, the packaging scripts and the user interface.
