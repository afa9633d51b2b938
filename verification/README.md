# Quarterdeck protocols and process ownership, in Dafny

This project models the parts of Quarterdeck whose correctness spans processes, crashes and time, and proves what they promise.

- **The durable hook outbox.** `OutboxRecords`, `DeliveryOrder` and `OutboxDirectory` model records, capture ordinals and the record directory. `OutboxQueues`, `OutboxReplay`, `OutboxReplayer` and `OutboxSingleFlight` model a replay pass. `OutboxProtocol` is the race of writers, replayer and crashes as a step machine over all runs, `OutboxDuplicates` counts what the runtime accepts in it, and `HookDelivery` is the time budget of one writer.
- **The update handoff.** `UpdateHandoff` is the two-process commit protocol over a FIFO channel, two files and the parent's liveness, under every interleaving, and `UpdateCancellation` what cancelling it does, and what its early return does not. `UpdateChannel` is its framing, `UpdateController` the transaction in the app around it, `QuitCoordinator` the lease under which it commits.
- **Process ownership.** `BrowserOwnership` and `BrowserTermination` are the ownership fixpoint and the signal passes on top of it; `DesktopProcesses` is the desktop app's fallback clean-up.
- **The runtime supervisor** (`RuntimeSupervisor`, and `RuntimeHistory`, which says what its answers mean by the messages alone) and **the notification policy** (`NotificationPolicy`, with its promises over whole runs in `NotificationRuns` and `NotificationDeltas`).
- **The helper environment** (`LaunchEnvironment`), over the record texts of `TextRecords`.

Protocols with several parties are step machines whose events are the steps of every party and of the environment; an event that does not apply changes nothing, so every sequence of events is a run. Objects that change state are classes whose methods are proved against specification functions or against the log of what they asked and did. The rest of the system (process lists, signals, timers, dialogs, files, the network) appears as answers that may be anything; each is a function of its place in the log, and what an object logged is tied to these answers.

## What the proofs found

- A second `cancel()` of an update handoff returns at once because another call owns the revocation. It is therefore no promise: with the files still untouched npm can start after it exactly if the commit is delivered, or the authorization or its acknowledgement is on its way on an open channel (`EarlyReturnIff`); runs that get there exist (`EarlyReturnMayPrecedeNpm`). The second case exists because a successful `authorize()` sets the state to armed even if a cancellation came meanwhile. The update controller itself never commits after it was disposed of (`QuitMeansCommitted`).
- The quit lease looks at the seal after the finalizer only if the renderer gave it (`SealFollowsFinalizerIff`); a seal taken while no frontend was needed is trusted from then on, also when a frontend is back (`UnsealedRequest`). If a held seal has lapsed by then and the sealing preflight throws, the lease ends without giving the frontend back; that is the only way out of it by an exception (`Transition`, `EscapingRequest`).
- A due, wanted and new notification is lost exactly if its task was lowered after it was armed (`LostIffLowered`), and runs do that (`LoweringHappens`).
- A record can be replayed and accepted any number of times: each time the reply is lost, the removal fails or the replayer crashes, one more (`AcceptedWithoutBound`). Without these it is accepted no more often than it was renamed into place, at most twice (`AcceptedAreBounded`).
- One replay pass empties the outbox exactly when time order and capture order agree (`OnePassDrainsIff`).
- The age fence that keeps periodic replay from a record in delivery does not hold when the clock runs backwards: a record enqueued in the future counts as abandoned (`FenceIsExact`).
- Cleaning the helper environment is idempotent for colon-free directories (`CleaningIsIdempotent`). With a colon in the Node directory it is so exactly if the usable pieces of that directory are how the cleaned PATH goes on behind it (`ColonIdempotentIff`): not for `/a:/b` and an empty PATH (`ColonLeaksFromEmptyPath`), but whenever PATH is that very text (`ColonHarmlessInPath`).

## Model

| member | source | states |
|---|---|---|
| `OutboxRecords.NormalizeIdempotent` | src/hook-transition-outbox-core.ts:60-103 | normalising what was normalised changes nothing, including the trim, the 500-character cut with its ellipsis and the transcript flag |
| `OutboxRecords.NormalizeKeepsClassification` | src/hook-transition-outbox-core.ts:60-103 | normalising keeps every field that decides whether a hook is a foreground completion, and so the decision |
| `OutboxRecords.BoundedIsStable` | src/hook-transition-outbox-core.ts:85-92 | a trimmed text cut to 500 characters plus ellipsis is left alone by a second trim and cut only where it already fits or was cut before |
| `OutboxRecords.NormalizeBoundsContent` | src/hook-transition-outbox-core.ts:60-103 | of all content fields at most one reply survives, bounded, and only on completion hooks |
| `OutboxRecords.StripThenNormalize` | src/hook-transition-outbox-core.ts:171-202 | dropping the text when the directory is not private and then normalising equals normalising and then dropping it |
| `OutboxRecords.PersistLoadRoundTrip` | src/hook-transition-outbox.ts:136-155 | loading what enqueue or a rewrite stored gives the record back up to the text strip, with a missing enqueue time recovered as the expiry minus the TTL |
| `OutboxRecords.ReplayCarriesPublishedRequest` | src/hook-transition-outbox-core.ts:105-141 | identity, event and ordering fields of a replayed request are those of the published one |
| `OutboxRecords.PublishedIff` | src/hook-transition-outbox-core.ts:105-141 | which requests are published, by provider: claude and pi with a session instance, codex also with a turn, or without one at the start of a session; they expire ten minutes later |
| `OutboxRecords.ReplySurvives` | src/hook-transition-outbox-core.ts:60-103 | the reply of a completion hook is kept, the final message before the summary, cut after 500 characters; no other hook keeps one |
| `OutboxRecords.ReplayCarriesCapturedRequest` | src/hook-transition-outbox-core.ts:105-141 | a replayed request names the captured project, task, event, delivery, source, sessions, turn, prompt, tool and agent |
| `OutboxRecords.SessionStartSurvives` | src/hook-transition-outbox-core.ts:60-103 | whether a codex session started with a transcript survives the replay, its path never does |
| `DeliveryOrder.IdGenerator.Next` | src/hook-delivery-order.ts:10-19 | the generator yields the id of its producer and next ordinal until all 2^40 are used, then refuses and never wraps |
| `DeliveryOrder.OrderedIdParses` | src/hook-delivery-order.ts:6-24 | every generated id is a valid version 8 UUID and parses back to its producer and ordinal |
| `DeliveryOrder.GeneratorOrder` | src/hook-delivery-order.ts:27-39 | two ids of one generator compare as their ordinals do |
| `DeliveryOrder.TextOrder` | src/hook-delivery-order.ts:14-34 | and that order is the lexicographic order of the texts |
| `DeliveryOrder.ForeignProducersAreUnordered` | src/hook-delivery-order.ts:27-34 | ids of different producers, or unrecognised ids, have no known order |
| `DeliveryOrder.PaddedDigits` | src/hook-delivery-order.ts:17-17 | ten padded digits hold any ordinal and read back as it |
| `OutboxDirectory.Directory.WriteRecord` | src/hook-transition-outbox-core.ts:171-223 | one record file is replaced atomically, with the text dropped where it may not be kept; no other file changes |
| `OutboxDirectory.Directory.Enqueue` | src/hook-transition-outbox-core.ts:225-232 | publishes exactly the eligible requests |
| `OutboxDirectory.Directory.Acknowledge` | src/hook-transition-outbox-core.ts:234-236 | deletes one record and nothing else |
| `OutboxDirectory.Directory.Abandon` | src/hook-transition-outbox-core.ts:262-283 | marks an existing own record and never creates one |
| `OutboxDirectory.Directory.LoadPending` | src/hook-transition-outbox.ts:90-164 | returns exactly the live listed records, by time and among equals by id, and removes invalid and expired files only |
| `OutboxDirectory.LoadedAreListed` | src/hook-transition-outbox.ts:90-164 | each loaded record comes from a listed, unexpired file of its own id, and each such file is loaded |
| `OutboxDirectory.OrderedByTime` | src/hook-transition-outbox.ts:158-164 | sorting gives the records by occurrence time, and by the ranking of ids where the times are equal |
| `OutboxQueues.QueueByOrdinal` | src/hook-transition-outbox.ts:262-278 | the queue of a producer is its pending records by capture ordinal |
| `OutboxQueues.QueueLists` | src/hook-transition-outbox.ts:262-278 | a queue holds each pending record of its key once and no other |
| `OutboxQueues.KeyedItems` | src/hook-transition-outbox.ts:72-83 | a record is in a producer's queue exactly if it is a pi hook with an ordered id of that producer and has its project, task and session |
| `OutboxReplay.PerProducerOrder` | src/hook-transition-outbox.ts:262-316 | the attempts of one pass for one producer are, in order, a prefix of its pending records by ordinal, all but possibly the last acknowledged |
| `OutboxReplay.Accounting` | src/hook-transition-outbox.ts:260-325 | a completed pass splits the loaded records exactly into acknowledged and pending, and reports the tasks of the latter |
| `OutboxReplay.CompletePassProgress` | src/hook-transition-outbox.ts:279-316 | when everything is accepted, a complete pass removes every unkeyed record and the head of every queue |
| `OutboxReplay.FinitelyManyPassesDrain` | src/hook-transition-outbox.ts:254-325 | then as many passes as the longest queue empty the outbox |
| `OutboxReplay.OnePassDrainsIff` | src/hook-transition-outbox.ts:262-316 | and one pass suffices exactly when time order and ordinal order agree for every producer |
| `OutboxReplay.HeadIsAttempted` | src/hook-transition-outbox.ts:279-316 | whatever the answers, every pass attempts the head of every queue unless it is too young |
| `OutboxReplay.AttemptsAreAnswered` | src/hook-transition-outbox.ts:290-315 | an attempt counts as acknowledged exactly if the runtime accepted that record and its file could be removed |
| `OutboxReplay.TasksKeepOrder` | src/hook-transition-outbox.ts:317-325 | the pending tasks are reported in the order of their first pending record |
| `OutboxReplayer.BuildQueues` | src/hook-transition-outbox.ts:265-278 | the loops that collect and sort the queues compute the specified queues |
| `OutboxReplayer.CollectIds` | src/hook-transition-outbox.ts:265-275 | the first loop collects the ids of each producer in load order |
| `OutboxReplayer.SortQueues` | src/hook-transition-outbox.ts:276-278 | the second sorts each list by capture ordinal |
| `OutboxReplayer.Replayer.ReplayRecord` | src/hook-transition-outbox.ts:279-316 | one record: skipped behind its queue head or too young, else attempted, and acknowledged or deferred |
| `OutboxReplayer.Replayer.ReplayAll` | src/hook-transition-outbox.ts:279-316 | the loop over the records performs the specified pass and deletes exactly the acknowledged files |
| `OutboxReplayer.Replayer.ReplayPass` | src/hook-transition-outbox.ts:254-325 | load, queue and replay together perform the specified pass over the loaded records |
| `OutboxSingleFlight.OnePassAtATime` | src/hook-transition-outbox.ts:247-258 | no two passes run at once, for any arrival, waking and ending of calls |
| `OutboxSingleFlight.CompleteCallsRunTheirOwn` | src/hook-transition-outbox.ts:243-258 | the pass of a complete call began no earlier than the call, and no other complete call shares it |
| `OutboxSingleFlight.WaitingCallGetsAPass` | src/hook-transition-outbox.ts:247-258 | a waiting call that wakes after the end of the pass in progress gets a new pass of its own |
| `OutboxSingleFlight.PeriodicCallsNeverWait` | src/hook-transition-outbox.ts:247-250 | a periodic call joins or starts a pass at once |
| `OutboxSingleFlight.ArrivingCall` | src/hook-transition-outbox.ts:243-258 | in every run an arriving call begins a pass if none is running; else a periodic one joins and a complete one waits |
| `OutboxProtocol.Conservation` | src/hook-transition-outbox-core.ts:225-283 | in every interleaving of writers, replayer and crashes a published record is absent only if its id was accepted or its expiry passed |
| `OutboxProtocol.OnlyAbandonmentRestores` | src/hook-transition-outbox-core.ts:255-283 | a record that is absent reappears only through the rewrite of an abandoning writer that read it before |
| `OutboxProtocol.AtMostOneDuplicate` | src/hook-transition-outbox-core.ts:255-283 | a record is renamed into place at most twice, and the replayer removes it after an accepted replay at most as often; after two such removals nothing of it is left |
| `OutboxProtocol.PublicationIsOnDisk` | src/hook-transition-outbox-core.ts:225-232 | in every run a publication that succeeds is on disk at once, with the record's transition |
| `OutboxProtocol.WriterEnds` | src/hook-reliable-delivery.ts:198-246 | the ways a writer ends in any run: deleted only after an acceptance, marked abandoned, nothing left to mark, a failed rename or a crash that leave the files alone |
| `OutboxProtocol.DeletionWasHeard` | src/hook-reliable-delivery.ts:230-246 | in every run a writer goes to delete its record only after it heard itself that the runtime accepted it |
| `OutboxProtocol.RemovalWasHeard` | src/hook-transition-outbox.ts:290-315 | in every run the replayer removes a record only after it heard that of the replay of this very record |
| `OutboxProtocol.RemovalTakesTheRecord` | src/hook-transition-outbox.ts:290-315 | a removal takes exactly the replayed or the expired record away, the one only accepted and the other only past its expiry |
| `OutboxDuplicates.AcceptedIsAccountedFor` | src/hook-transition-outbox.ts:290-315 | in every run each accepted replay of a record was followed by its removal, was interrupted (the reply was lost, the removal failed or the replayer crashed), or is about to be followed by its removal |
| `OutboxDuplicates.AcceptedAreBounded` | src/hook-transition-outbox.ts:290-315 | accepted replays never exceed renames plus interruptions, with at most two renames; there are at most two exactly while the interruptions stay within what is left of two |
| `OutboxDuplicates.AcceptedWithoutBound` | src/hook-transition-outbox.ts:290-315 | for every n a published record has a run with n accepted replays, each with a removal that failed |
| `OutboxProtocol.ReplaysWhatWasPublished` | src/hook-reliable-delivery.ts:198-246 | whatever the replayer holds is the published transition of that id |
| `OutboxProtocol.InvHolds` | src/hook-transition-outbox.ts:90-164 | the invariant behind these holds after every possible run |
| `HookDelivery.Sender.Ingest` | src/hook-reliable-delivery.ts:147-180 | an ingest is one attempt, or a failed one, the delay and a second in what is left of the budget; it succeeds exactly if the runtime accepted one of them in time, and only an abort or the exhausted budget keeps a failure from being retried |
| `HookDelivery.Sender.Deliver` | src/hook-reliable-delivery.ts:230-246 | deletion is tried exactly if the runtime accepted an attempt in time; the record is acknowledged only if that deletion succeeds, and in every other case marked abandoned |
| `HookDelivery.Sender.Attempt` | src/hook-reliable-delivery.ts:52-82 | an attempt succeeds exactly if the runtime's own answer to that call accepts within the timeout, and ends with the answer or the timeout, whichever is first |
| `HookDelivery.IngestSucceedsIff` | src/hook-reliable-delivery.ts:147-180 | by the answers of the system alone: accepted at once in time, or else not aborted, waited for and accepted within what the first attempt and the wait left |
| `HookDelivery.BudgetByProvider` | src/hook-reliable-delivery.ts:17-50 | a codex interrupt gets attempts of 1500 ms within 2400 ms, every other hook 2250 ms within 3250 ms |
| `HookDelivery.ReliableBudgetHolds` | src/hook-reliable-delivery.ts:17-50 | with timers on time both reliable policies end within their total, hence within 3250 ms |
| `HookDelivery.NoReplayDuringDelivery` | src/hook-transition-outbox.ts:50-70 | if publication took under 2750 ms, periodic replay never adopts an unmarked record before its delivery ended, with a clock that does not run backwards |
| `UpdateHandoff.NpmNeedsTheWholeHandoff` | desktop/src/npm-update-worker.ts:431-504 | npm runs only after the worker acknowledged, the parent read that and queued the commit, and the worker then found, with the parent dead, the request with its token and after that no marker |
| `UpdateHandoff.StagesAreDecisive` | desktop/src/npm-update-worker.ts:461-503 | each worker stage on the way to npm is entered only from the one before and only on its own evidence: commit frame, dead parent, original request, no marker, checked tools |
| `UpdateHandoff.CrashBeforeCommit` | desktop/src/npm-update-worker.ts:458-477 | a parent that dies before it queued the commit never leads to npm |
| `UpdateHandoff.ResolvedCancelIsFinal` | desktop/src/npm-update-runner.ts:267-310 | after a cancel() that owned the revocation resolved having removed the directory or the request, npm never starts in any continuation |
| `UpdateHandoff.RemovedRequestIsFinal` | desktop/src/npm-update-runner.ts:296-301 | once the request is gone while the parent lives npm never starts |
| `UpdateHandoff.MarkerAtExitIsFinal` | desktop/src/npm-update-worker.ts:497-502 | once a marker is there when the parent exits npm never starts |
| `UpdateCancellation.MarkedCancelIsFinal` | desktop/src/npm-update-runner.ts:267-310 | in every run a cancellation whose marker is written while the parent lives leaves it there until a clean-up deletes it, and npm never starts after the parent exits before that |
| `UpdateCancellation.MarkerStaysInRun` | desktop/src/npm-update-runner.ts:271-310 | nothing but the deletion by a clean-up takes a marker away |
| `UpdateCancellation.UndisturbedCancelRemovesAll` | desktop/src/npm-update-runner.ts:271-310 | the steps of a cancellation that nothing disturbs mark, tell the worker if it may have been ready, unlink, close and clean up, and resolve with the directory gone |
| `UpdateCancellation.ReadCancelIsFinal` | desktop/src/npm-update-worker.ts:444-492 | a worker that reads the cancel frame finishes and acknowledges it once it is ready, and npm never starts |
| `UpdateCancellation.ResolvedMeansRevoked` | desktop/src/npm-update-runner.ts:271-310 | a cancellation goes on to the clean-up exactly if it wrote its marker, its frame was acknowledged or it unlinked the request, and is rejected otherwise |
| `UpdateCancellation.ResolvesOnlyThen` | desktop/src/npm-update-runner.ts:304-310 | it resolves only with the directory removed or with a listed file found gone |
| `UpdateCancellation.AuthorizeEnds` | desktop/src/npm-update-runner.ts:331-352 | authorize() ends armed exactly with the acknowledgement read, and in every other way begins a cancellation |
| `UpdateCancellation.FailedWorkerIsFinal` | desktop/src/npm-update-worker.ts:431-504 | a worker that fails before npm closes its channel and npm never starts |
| `UpdateCancellation.LateWorkerNeverConnects` | desktop/src/npm-update-worker.ts:408-431 | a worker that starts after its request is gone or replaced never sends anything, in any continuation |
| `UpdateCancellation.DirectoryGoesEmpty` | desktop/src/npm-update-runner.ts:304-310 | in every run the directory goes only when request and marker are gone |
| `UpdateHandoff.EarlyReturnSafe` | desktop/src/npm-update-runner.ts:267-268 | a further cancel() that returns at once is final if nothing was committed and no authorize() is under way |
| `UpdateCancellation.EarlyReturnIff` | desktop/src/npm-update-runner.ts:267-359 | with the files untouched npm can still start after it exactly if the worker has the commit or reads it next, or the authorization or its acknowledgement is on its way on an open channel with nothing before it |
| `UpdateCancellation.HopelessNeverStartsNpm` | desktop/src/npm-update-runner.ts:267-359 | in every other decided world npm never starts, whatever happens to the files |
| `UpdateCancellation.RunKeepsOrder` | desktop/src/npm-update-worker.ts:431-480 | what the parent has not read is the end of what the worker sent, and behind the readiness it read only the acknowledgement can come |
| `UpdateHandoff.EarlyReturnMayPrecedeNpm` | desktop/src/npm-update-runner.ts:267-359 | outside that condition runs exist in which the further cancel() resolves and npm still starts |
| `UpdateHandoff.DeliveredCommitReachesNpm` | desktop/src/npm-update-worker.ts:481-504 | from every world with the commit delivered and the files untouched some continuation starts npm |
| `UpdateHandoff.AcknowledgedAuthorizeReachesNpm` | desktop/src/npm-update-runner.ts:331-359 | an acknowledgement on its way overrides a cancellation: authorize() ends armed, and the commit can follow |
| `UpdateHandoff.BlockedNeverStartsNpm` | desktop/src/npm-update-worker.ts:404-504 | a handoff that is dead stays dead in every continuation |
| `UpdateHandoff.RunKeepsInv` | desktop/src/npm-update-runner.ts:231-369 | the invariant that ties messages, states, files and history together holds in every run |
| `UpdateChannel.NpmUpdateChannel.OnData` | desktop/src/npm-update-worker.ts:190-217 | a chunk yields its complete lines in order; the channel fails exactly on too much text, an unreadable line or more messages than fit |
| `UpdateChannel.NpmUpdateChannel.TakeLines` | desktop/src/npm-update-worker.ts:196-216 | the loop takes every complete line and leaves what follows the last newline |
| `UpdateChannel.NpmUpdateChannel.TakeLine` | desktop/src/npm-update-worker.ts:197-214 | one line goes to the waiting reader or into the queue, or fails the channel |
| `UpdateChannel.NpmUpdateChannel.Next` | desktop/src/npm-update-worker.ts:238-245 | queued messages first, then the failure, then one waiting reader at most |
| `UpdateChannel.WholeChannelYieldsTheFrames` | desktop/src/npm-update-worker.ts:183-246 | however the bytes were cut, a whole channel that received some frames has yielded exactly these in order, with an empty buffer |
| `UpdateChannel.BufferHoldsNoNewline` | desktop/src/npm-update-worker.ts:196-216 | the residual buffer holds no newline |
| `UpdateChannel.FailedChannelYieldsAPrefix` | desktop/src/npm-update-worker.ts:221-226 | a failed channel has yielded a prefix of the frames |
| `TextRecords.ReadOn` | desktop/src/npm-update-worker.ts:190-216 | cutting a text into chunks changes neither its records nor what is left over |
| `TextRecords.FramesComeBack` | desktop/src/npm-update-worker.ts:227-232 | frames without a raw separator come back exactly |
| `TextRecords.NoSeparatorInside` | desktop/src/npm-update-worker.ts:196-216 | no record and no residue contains the separator |
| `UpdateController.Controller.Update` | desktop/src/update-controller.ts:193-280 | for every outcome, exception and disposal a prepared handoff ends committed or cancelled but not both, and a requested quit ends in the quit or is reported back; a failed validation prepares nothing and is warned of unless disposed; if nothing fails and nobody disposes, the update commits |
| `UpdateController.Controller.QuitAndCommit` | desktop/src/update-controller.ts:235-251 | commits only behind a clean quit and an authorization of this transaction, undisposed |
| `UpdateController.Controller.Commit` | desktop/src/update-controller.ts:248-251 | the commit is followed by the quit call and nothing else |
| `UpdateController.Controller.Decide` | desktop/src/update-controller.ts:244-251 | commits exactly on a clean quit, armed and undisposed, if the handoff can commit, and then calls for the quit at once |
| `UpdateController.Controller.Authorize` | desktop/src/update-controller.ts:239-243 | authorizes exactly if undisposed, of this transaction, and the handoff itself answers so |
| `UpdateController.Controller.Begin` | desktop/src/update-controller.ts:208-234 | validates, prepares and launches in this order, each only on the answer of the one before, and stops at a disposal after any await |
| `UpdateController.Controller.Prepare` | desktop/src/update-controller.ts:208-232 | asks for the preparation only if this call's validation answered that nothing changed, and fails if it did not; what is prepared is what the handoff answered |
| `UpdateController.Controller.CleanUp` | desktop/src/update-controller.ts:269-279 | every exit cancels a prepared handoff that is not committed |
| `UpdateController.Controller.Dispose` | desktop/src/update-controller.ts:92-98 | disposing revokes a prepared handoff unless it is committed, once |
| `UpdateController.CommitIsFinal` | desktop/src/update-controller.ts:252-279 | after the commit no failure path cancels, warns or reopens |
| `UpdateController.QuitMeansCommitted` | desktop/src/update-controller.ts:244-251 | quit is called directly after the commit, that a clean quit result and an authorization preceded, without disposal or cancellation |
| `UpdateController.CommitIsAnswered` | desktop/src/update-controller.ts:214-252 | behind every commit stand the world's own answers: validated unchanged, prepared, launched, authorized, a clean quit and a commit that went through |
| `UpdateController.CommitFollowsCleanQuit` | desktop/src/update-controller.ts:244-251 | a commit directly follows the clean quit, behind an authorization, with nothing disposed or cancelled |
| `UpdateController.InvalidPreparesNothing` | desktop/src/update-controller.ts:214-279 | a transaction whose installation does not validate prepares, quits and commits nothing, and warns unless disposed of |
| `UpdateController.LawfulIsStaged` | desktop/src/update-controller.ts:208-252 | in every log each stage stands on the success of the one before |
| `UpdateController.SeenMeans` | desktop/src/update-controller.ts:193-280 | the summary of a log that the rules look at says exactly which acts the log contains |
| `BrowserOwnership.Ownership.Inspect` | scripts/agent-lab/browser-process-ownership.ts:103-173 | terminates; its matches are justified, every visible owned process is a match or in doubt, and children and groups of matches are accounted for |
| `BrowserOwnership.Ownership.MatchOwned` | scripts/agent-lab/browser-process-ownership.ts:111-116 | an owned process that is visible is a match if unchanged with a known birth, and else in doubt |
| `BrowserOwnership.Ownership.Adopt` | scripts/agent-lab/browser-process-ownership.ts:123-133 | adopts a row and registers the group it leads, unless that contradicts a recorded one |
| `BrowserOwnership.Ownership.CanAdopt` | scripts/agent-lab/browser-process-ownership.ts:117-121 | a child may be adopted if it is no older; an unknown birth puts it in doubt |
| `BrowserOwnership.Ownership.ExpandGroups` | scripts/agent-lab/browser-process-ownership.ts:139-164 | walks the groups while they change: each one kept is trusted, has members and has them accounted for |
| `BrowserOwnership.Ownership.VisitGroup` | scripts/agent-lab/browser-process-ownership.ts:140-163 | drops a group whose leader changed, that emptied or has an older member, and else offers each member for adoption |
| `BrowserOwnership.Ownership.ExpandMember` | scripts/agent-lab/browser-process-ownership.ts:157-163 | a member is adopted if it is no older than the leader and its visible parent |
| `BrowserOwnership.Ownership.ExpandChildren` | scripts/agent-lab/browser-process-ownership.ts:165-170 | offers every child of a match for adoption |
| `BrowserOwnership.Ownership.RegisterOwnedGroup` | scripts/agent-lab/browser-process-ownership.ts:71-85 | records a leader unless it is none or contradicts the recorded one, which puts it in doubt |
| `BrowserOwnership.Ownership.RegisterGroups` | scripts/agent-lab/browser-process-ownership.ts:87-100 | the boundaries of a tree are undoubted leaders of it |
| `BrowserOwnership.Ownership.Claim` | scripts/agent-lab/browser-processes.ts:331-336 | one claimed identity is owned, any other claim is in doubt |
| `BrowserOwnership.ReturnedAreVerified` | scripts/agent-lab/browser-process-ownership.ts:103-173 | every returned pid is in the snapshot with the identity stored for it and a known birth |
| `BrowserOwnership.LastIsPresent` | scripts/agent-lab/browser-process-ownership.ts:103-110 | of several rows with one pid the last counts |
| `BrowserOwnership.ChildrenAreAccountedFor` | scripts/agent-lab/browser-process-ownership.ts:165-170 | each child of a returned process is owned, in doubt or born before its parent |
| `BrowserOwnership.NothingOlderThanItsOrigin` | scripts/agent-lab/browser-process-ownership.ts:117-172 | every match descends, without going back in time, from something trusted before the inspection |
| `BrowserOwnership.BoundariesAreKept` | scripts/agent-lab/browser-process-ownership.ts:139-164 | no boundary is lost but to a doubt or the end of its group, and every adopted group leader becomes one |
| `BrowserOwnership.ProgressGrows` | scripts/agent-lab/browser-process-ownership.ts:123-133 | adopting a linked row keeps the chain of justifications |
| `BrowserOwnership.AfterVisit` | scripts/agent-lab/browser-process-ownership.ts:140-163 | visiting a group keeps it and settles the group |
| `BrowserOwnership.FollowSweeps` | scripts/agent-lab/browser-process-ownership.ts:165-170 | following a row keeps it and settles the row |
| `BrowserTermination.Termination.Terminate` | scripts/agent-lab/browser-processes.ts:320-373 | at most one polite signal and five kills per process; a normal return has no doubts and returns exactly the tree's processes that the last snapshot shows |
| `BrowserTermination.Termination.SignalMatching` | scripts/agent-lab/browser-processes.ts:341-351 | inspects, then signals exactly if the process is still returned |
| `BrowserTermination.Termination.SignalAll` | scripts/agent-lab/browser-processes.ts:353-353 | every listed process is inspected and signalled in turn |
| `BrowserTermination.Termination.Wait` | scripts/agent-lab/browser-processes.ts:354-359 | only inspects, until nothing is left or the grace period is over |
| `BrowserTermination.Termination.Escalate` | scripts/agent-lab/browser-processes.ts:360-366 | rounds of kills in reverse order and inspections, at most five |
| `BrowserTermination.Termination.KillRound` | scripts/agent-lab/browser-processes.ts:360-366 | one round kills each remaining process, the last found first, and then inspects |
| `BrowserTermination.Termination.Conclude` | scripts/agent-lab/browser-processes.ts:367-372 | the last inspection decides between return, doubt and new descendants |
| `BrowserTermination.Termination.InspectOwned` | scripts/agent-lab/browser-processes.ts:339-340 | lists and inspects; claims are never lost |
| `BrowserTermination.SignalsAreFenced` | scripts/agent-lab/browser-processes.ts:341-351 | the process of every signal was verified in the snapshot immediately before it |
| `BrowserTermination.NormalReturnAccounts` | scripts/agent-lab/browser-processes.ts:367-372 | with no doubts the last snapshot shows of the tree exactly the returned processes |
| `BrowserTermination.ClaimIff` | scripts/agent-lab/browser-processes.ts:331-336 | a recorded pid is claimed exactly if one identity alone is listed for it, with a start time |
| `BrowserTermination.LeadersAmongIff` | scripts/agent-lab/browser-process-ownership.ts:87-100 | the owned leaders are the identities of the tree that lead their own group |
| `DesktopProcesses.CollectOwned` | scripts/agent-lab/desktop-processes.ts:61-87 | exactly the processes that parent edges connect to an unchanged retained identity or an unretained root, in snapshot order |
| `DesktopProcesses.Grow` | scripts/agent-lab/desktop-processes.ts:76-85 | the sweeps end in the least closed set |
| `DesktopProcesses.ClosureIsLeast` | scripts/agent-lab/desktop-processes.ts:74-86 | reachable processes lie in every closed set with the seeds |
| `DesktopProcesses.ClosureIsClosed` | scripts/agent-lab/desktop-processes.ts:74-86 | the reachable processes contain the seeds and are closed |
| `DesktopProcesses.MergeRetains` | scripts/agent-lab/desktop-processes.ts:108-108 | merging what was found keeps one identity per pid, the latest |
| `DesktopProcesses.Cleanup.Stop` | scripts/agent-lab/desktop-processes.ts:95-125 | a polite round, a round of kills and a last scan, each scan looking for everything known or found by the earlier ones; the answer is what the last scan found, and none only after a missing list or a refused signal |
| `DesktopProcesses.Cleanup.RunRound` | scripts/agent-lab/desktop-processes.ts:106-123 | one round: scan, one signal to each found process in reverse, at most twenty scans; what the round hands on retains everything known or found so far, each pid with its latest identity |
| `DesktopProcesses.Cleanup.SignalEach` | scripts/agent-lab/desktop-processes.ts:109-116 | a missing process is ignored, any other refusal ends the clean-up |
| `DesktopProcesses.SignalsAreOwned` | scripts/agent-lab/desktop-processes.ts:95-125 | every signalled pid was reachable, in the latest scan before the signal, from an identity that was known or found earlier |
| `DesktopProcesses.NothingFoundMeansGone` | scripts/agent-lab/desktop-processes.ts:95-125 | a scan that finds nothing shows no process with the latest identity under which its pid was known or found by any earlier scan |
| `DesktopProcesses.MergeRetainsAll` | scripts/agent-lab/desktop-processes.ts:108-120 | merging a scan keeps everything known or found so far, each pid with its latest identity |
| `DesktopProcesses.SeedIsUnchanged` | scripts/agent-lab/desktop-processes.ts:61-73 | a seed of the clean-up is a retained process with its pid, start time and command unchanged |
| `DesktopProcesses.LastIsRetained` | scripts/agent-lab/desktop-processes.ts:61-66 | of several processes with one pid the last is retained |
| `QuitCoordinator.Coordinator.Transition` | desktop/src/quit-coordinator.ts:56-100 | how a request ends: granted in the required order; cancelled by a refusal and given back; or, exactly if a granted run and the finalizer are followed by a lapsed seal and a sealing preflight that throws, by that exception. The frontend is given back exactly if the request is cancelled, and a commit only ever stands behind all it needs |
| `QuitCoordinator.EndingsAreDistinct` | desktop/src/quit-coordinator.ts:63-99 | what a request did shows how it ended: it escaped exactly in that one form, and gave the frontend back exactly if cancelled |
| `QuitCoordinator.EscapingRequest` | desktop/src/quit-coordinator.ts:67-99 | a request that does escape: clean stop, finalizer, lapsed seal, and the frontend never given back |
| `QuitCoordinator.UnsealedRequest` | desktop/src/quit-coordinator.ts:73-79 | a granted request whose seal was taken without a frontend, and that asks nobody between the finalizer and its end although one is back |
| `QuitCoordinator.Coordinator.Perform` | desktop/src/quit-coordinator.ts:103-149 | clean only after opening, sessions, seal and a clean stop; forced only for a quit; cancelled only after a refusal |
| `QuitCoordinator.Coordinator.ForceQuit` | desktop/src/quit-coordinator.ts:155-159 | forcing is possible, confirmed, sealed and still possible |
| `QuitCoordinator.Coordinator.SealFrontend` | desktop/src/quit-coordinator.ts:169-177 | a seal is a ready answer that checks valid, or no frontend |
| `QuitCoordinator.Coordinator.EnsureSeal` | desktop/src/quit-coordinator.ts:161-167 | a held seal is checked and renewed if it lapsed |
| `QuitCoordinator.Coordinator.Settle` | desktop/src/quit-coordinator.ts:71-83 | the finalizer runs and the seal must have survived it |
| `QuitCoordinator.Coordinator.CommitUpdate` | desktop/src/quit-coordinator.ts:84-95 | a fresh seal directly before the commit and a holding one after |
| `QuitCoordinator.Coordinator.StopRuntime` | desktop/src/quit-coordinator.ts:117-134 | sessions and seal come before the stop |
| `QuitCoordinator.Coordinator.ClearSessions` | desktop/src/quit-coordinator.ts:117-130 | live app-owned sessions need a confirmation |
| `QuitCoordinator.Coordinator.OpenFrontend` | desktop/src/quit-coordinator.ts:105-112 | the opening preflight is ready or not needed |
| `QuitCoordinator.Coordinator.Request` | desktop/src/quit-coordinator.ts:47-56 | a request starts, joins or is declined; an update never shares |
| `QuitCoordinator.CommitIsGuarded` | desktop/src/quit-coordinator.ts:84-95 | wherever a commit stands, a clean run, the finalizer and a seal taken just before precede it, and it is the only one |
| `QuitCoordinator.CleanMeansStopped` | desktop/src/quit-coordinator.ts:103-141 | a clean request stopped clean in that request and nothing had refused before the stop |
| `QuitCoordinator.ForcedMeansConfirmed` | desktop/src/quit-coordinator.ts:144-159 | a forced request is a quit the user confirmed while forcing was possible, as it still was at the end |
| `QuitCoordinator.SealFollowsFinalizerIff` | desktop/src/quit-coordinator.ts:71-83 | a passing seal check follows the finalizer exactly if the renderer gave the seal |
| `QuitCoordinator.UpdateResultIsNeverShared` | desktop/src/quit-coordinator.ts:47-56 | in every run of arrivals and ends, requests that share a result are no updates |
| `QuitCoordinator.ArrivingRequestGets` | desktop/src/quit-coordinator.ts:47-56 | in every run an arriving request gets its own result if none is in progress, the one in progress if neither is an update, and else none |
| `RuntimeHistory.CleanStopMeans` | desktop/src/runtime-supervisor.ts:246-262 | a clean answer in any run: nothing of ours was left (never spawned, or became ready as attached), or the latest request was reported clean and code 0 followed |
| `RuntimeHistory.ForceQuitMeans` | desktop/src/runtime-supervisor.ts:274-284 | a live child may be abandoned only if it became ready as ours, and the latest report behind the latest request says that persistence is settled |
| `RuntimeSupervisor.InFlightBlocksForce` | desktop/src/runtime-supervisor.ts:251-261 | while a request is in flight no earlier receipt authorizes anything |
| `RuntimeSupervisor.OldMessagesAreIgnored` | desktop/src/runtime-supervisor.ts:398-410 | reports for other requests, and anything after a clean end, change nothing |
| `RuntimeSupervisor.RunKeepsInv` | desktop/src/runtime-supervisor.ts:246-262 | the shutdown state is determined by the latest request and report, in every run |
| `RuntimeHistory.RunIsHistory` | desktop/src/runtime-supervisor.ts:164-262 | in every run what the child is taken to be is its reference history: requests, reports for the request then in flight, expiry and exit |
| `RuntimeHistory.ReadyIff` | desktop/src/runtime-supervisor.ts:189-235 | the recorded ownership is that of the message that ended the wait, exactly if no stop was remembered then |
| `RuntimeHistory.StopAnswerIs` | desktop/src/runtime-supervisor.ts:246-262 | what stop() answers at once, both ways: nothing for a live child; for one that went under a pending request clean exactly after a clean report and code 0, else clean exactly if nothing of ours was left |
| `RuntimeHistory.ForceQuitIff` | desktop/src/runtime-supervisor.ts:274-284 | when a child may be abandoned, both ways: live, ready as ours, its latest request over and reported settled; or gone, ours, and not after a clean report and code 0 |
| `RuntimeSupervisor.Generation.OnShutdownResult` | desktop/src/runtime-supervisor.ts:398-410 | only a report for the request in flight counts; an incomplete one ends it |
| `RuntimeSupervisor.Generation.OnExit` | desktop/src/runtime-supervisor.ts:164-169 | exit settles the request in flight: clean only with a clean report and code 0 |
| `RuntimeSupervisor.Generation.Ask` | desktop/src/runtime-supervisor.ts:251-261 | a new request forgets the earlier receipt |
| `RuntimeSupervisor.Generation.FinishShutdown` | desktop/src/runtime-supervisor.ts:256-260 | an incomplete outcome of a live child allows another request |
| `RuntimeSupervisor.Generation.OnReady` | desktop/src/runtime-supervisor.ts:189-235 | readiness is accepted once, while awaited and with no shutdown under way, with the ownership of the message |
| `RuntimeSupervisor.Generation.OnStartupFailure` | desktop/src/runtime-supervisor.ts:227-231 | a failed start asks a live child to stop |
| `RuntimeSupervisor.Supervisor.Start` | desktop/src/runtime-supervisor.ts:112-113 | a new child replaces an exited one only |
| `RuntimeSupervisor.Supervisor.Stop` | desktop/src/runtime-supervisor.ts:246-262 | answers at once or asks the child, as specified (`StopAnswerIs` says what the answer is) |
| `RuntimeHistory.ExitStateMeans` | desktop/src/runtime-supervisor.ts:264-271 | in every run a live child counts as stopping exactly once a request began; a gone one as clean exactly if it was never spawned, was only attached, or the last heard of it is a clean report and then exit code 0, and else as unconfirmed |
| `RuntimeSupervisor.Supervisor.MayForceQuit` | desktop/src/runtime-supervisor.ts:274-284 | whether the child may be abandoned |
| `NotificationRuns.PendingIsArmed` | desktop/src/notification-policy.ts:38-110 | in every run nothing is pending without ownership, and each pending key names once a session that notifies, no more urgently than the entry |
| `NotificationRuns.RecordArms` | desktop/src/notification-policy.ts:87-108 | what one summary does to the pending entry of every key: it arms a task that newly notifies, raises an armed one to the more urgent event with its deadline unchanged, disarms one that stopped notifying, and touches no other |
| `NotificationRuns.ArmsWhat` | desktop/src/notification-policy.ts:87-108 | where nothing was pending, a summary arms exactly if owned, stopped with an event, and its known task was active, showed no event or a less urgent one; an armed entry takes the more urgent of the two events |
| `NotificationRuns.PresentedIff` | desktop/src/notification-policy.ts:112-144 | in every run a due entry is presented exactly if its task still shows that event, its id is not in the window in its turn, notifications are on for that event, the window may be visible or is not focused, and the project on screen does not suppress it |
| `NotificationRuns.LostIffLowered` | desktop/src/notification-policy.ts:95-123 | a due, wanted and new notification is lost exactly if its task shows something less urgent by then |
| `NotificationRuns.LoweringHappens` | desktop/src/notification-policy.ts:95-123 | every raised and then lowered task gives a run from the start in which the notification is armed and no flush presents anything |
| `NotificationRuns.EventsAreHonest` | desktop/src/notification-policy.ts:118-142 | what is presented is what its task shows, under its id |
| `NotificationRuns.FlushKeepsTheRest` | desktop/src/notification-policy.ts:112-117 | a flush keeps exactly what is not due, in order |
| `NotificationRuns.FlushShows` | desktop/src/notification-policy.ts:124-142 | the ids a flush emits are, in order, those it newly records as presented |
| `NotificationRuns.EmissionsAreRecordings` | desktop/src/notification-policy.ts:124-142 | over a whole run the emissions are the recordings that were presented, in order |
| `NotificationRuns.EmissionsAreFarApart` | desktop/src/notification-policy.ts:124-131 | between two emissions of one event id lie at least 2048 recordings of other ids, all distinct |
| `NotificationRuns.RunKeepsInv` | desktop/src/notification-policy.ts:31-144 | pending entries and the window of ids stay in order in every run |
| `NotificationRuns.RememberKeepsWindow` | desktop/src/notification-policy.ts:125-130 | a new id extends the window without a repeat inside it |
| `NotificationPolicy.Policy.ApplyOne` | desktop/src/notification-policy.ts:70-110 | one delta performs the specified change (`StaleDeltaChangesNothing`, `DeltaLeaves` and `DeltaKeepsOthers` say what that leaves) |
| `NotificationDeltas.RevisionIsNewest` | desktop/src/notification-policy.ts:43-85 | in every run the policy knows the newest revision of each project since it was last seeded or pruned |
| `NotificationDeltas.StaleDeltaChangesNothing` | desktop/src/notification-policy.ts:70-85 | in every run a delta older than that changes nothing, and any other becomes the newest of its project |
| `NotificationDeltas.DeltaLeaves` | desktop/src/notification-policy.ts:70-110 | an accepted delta leaves of its project the last summary of each task it tells of and the others it neither removes nor replaces, and no other project changes |
| `NotificationDeltas.TakenAwayIsNotPending` | desktop/src/notification-policy.ts:73-86 | in every run a task that an accepted delta takes away has no session and nothing pending |
| `NotificationDeltas.DeltaKeepsOthers` | desktop/src/notification-policy.ts:70-110 | in every run a delta leaves pending what it does not tell of |
| `NotificationDeltas.PruneKeepsOthers` | desktop/src/notification-policy.ts:60-68 | in every run pruning leaves pending exactly what belongs to the projects that stay |
| `NotificationPolicy.Policy.FlushDue` | desktop/src/notification-policy.ts:112-144 | the loop over the pending entries performs the specified flush |
| `NotificationPolicy.Policy.Present` | desktop/src/notification-policy.ts:117-142 | one due entry: recorded if its id is fresh, presented if it is wanted |
| `NotificationPolicy.Policy.SeedAll` | desktop/src/notification-policy.ts:43-58 | seeding replaces sessions and revisions and disarms everything |
| `NotificationPolicy.Policy.PruneProjects` | desktop/src/notification-policy.ts:60-68 | pruning removes a project with its revision and pending entries |
| `NotificationPolicy.Policy.Own` | desktop/src/notification-policy.ts:38-41 | a change of ownership disarms everything |
| `NotificationPolicy.Policy.NextDeadline` | desktop/src/notification-policy.ts:146-151 | the least deadline of all pending entries |
| `LaunchEnvironment.ParseEnvironment` | desktop/src/launch-environment.ts:104-124 | reads exactly the texts that a non-empty list of distinct valid names with NUL-free values prints to, and returns that list |
| `LaunchEnvironment.PrintIsInjective` | desktop/src/launch-environment.ts:104-124 | equal printed text means equal entries |
| `LaunchEnvironment.SanitizeHelperEnvironment` | desktop/src/launch-environment.ts:79-102 | refuses an unusable Node path, else computes the cleaned environment |
| `LaunchEnvironment.CleaningIsIdempotent` | desktop/src/launch-environment.ts:87-101 | cleaning twice is cleaning once, for colon-free directories |
| `LaunchEnvironment.ColonIdempotentIff` | desktop/src/launch-environment.ts:87-101 | with a colon in the Node directory cleaning twice is cleaning once exactly if the usable pieces of that directory, without repeats, are how the first cleaned PATH goes on behind it |
| `LaunchEnvironment.ColonHarmlessInPath` | desktop/src/launch-environment.ts:99-100 | so it is where PATH is the Node directory's own text |
| `LaunchEnvironment.ColonLeaksFromEmptyPath` | desktop/src/launch-environment.ts:99-100 | and it is not for the directory /a:/b and an empty PATH |
| `LaunchEnvironment.ColonDirectoryLeaks` | desktop/src/launch-environment.ts:99-100 | whatever was discovered, the first piece of a Node directory with a colon joins the PATH in the second cleaning |
| `LaunchEnvironment.DirectoriesAreSound` | desktop/src/launch-environment.ts:99-100 | PATH holds distinct absolute directories, the bundled Node's first, and all usable ones that were given |
| `LaunchEnvironment.DirectoriesKeepOrder` | desktop/src/launch-environment.ts:99-100 | in the order of their first occurrence in what was given |
| `LaunchEnvironment.PathReadsBack` | desktop/src/launch-environment.ts:99-100 | splitting the PATH gives back exactly the directories put into it |
| `LaunchEnvironment.CleanedIsSafe` | desktop/src/launch-environment.ts:87-98 | no variable that can inject code, no invalid name and no NUL is left |
| `LaunchEnvironment.CleanedKeeps` | desktop/src/launch-environment.ts:87-98 | besides PATH exactly the variables with a valid name that is no injecting one in any case, and no NUL in the value, are kept with their values |
| `LaunchEnvironment.HomeIsKept` | desktop/src/launch-environment.ts:87-98 | HOME is kept as it was |
| `LaunchEnvironment.ListedIff` | desktop/src/launch-environment.ts:99-100 | a given directory is in PATH exactly if it is absolute and free of line breaks and NUL |

## Left out

- UpdateHandoff: the closures of `prepareNpmUpdate` and the steps of `runNpmUpdateWorker` are one step machine on values, not objects; each message handler, file operation and await is its own step, so that every interleaving is a run.
- OutboxSingleFlight: the shared variable and its waiting callers are a step machine on values for the same reason.
- OutboxReplayer.Replayer.ReplayPass: one replayer per directory; other writers are in `OutboxProtocol`, not in the pass itself.
- OutboxDirectory.Directory.LoadPending: `localeCompare` of ids is an arbitrary ranking, listed names are distinct, and temporary files are not part of the directory.
- OutboxRecords.NormalizeIdempotent: texts are sequences of characters without surrogate halves, so a cut never splits a pair.
- HookDelivery.ReliableBudgetHolds: a timer that fires late delays the end by as much (`BudgetHolds`); the claim on the total assumes timers on time.
- UpdateHandoff.ResolvedCancelIsFinal: assumes that the deletions of the clean-up, or that of the request, succeed, as the listed condition says.
- QuitCoordinator.Coordinator.Transition: requests that arrive while one is in progress are the lease model (`LeaseRun`) and the `Request` method; predicates that throw synchronously are not modelled.
- UpdateController.Controller.Update: discovery, dialogs and snapshots shown to listeners; a disposal may come in at every await.
- RuntimeSupervisor.Supervisor.Start: launch arguments, environment, evidence callbacks and the recovery helper.
- RuntimeSupervisor.Generation.OnExit: the promise callbacks that follow an event run as part of it; request ids are a counter.
- BrowserOwnership.Ownership.Inspect: parsing of start times is a parameter; the process list is given.
- BrowserOwnership.NothingOlderThanItsOrigin: needs one row per pid, as `ps` lists them.
- BrowserTermination.Termination.Terminate: the grace period is a number of polls.
- UpdateChannel.NpmUpdateChannel.OnData: `JSON.parse` and the byte length are parameters; a destroyed socket emits no data.
- LaunchEnvironment.ParseEnvironment: UTF-8 decoding is done before.
- LaunchEnvironment.SanitizeHelperEnvironment: `dirname` is a parameter.
- LaunchEnvironment.ColonIdempotentIff: colons in the Node directory only; colons in discovered directories are not covered by the exact condition, because different lists of such directories can make the same PATH text.
- NotificationPolicy.Policy.FlushDue: the indicator of a session and the identity of an event are parameters.
- Diagnostics (outbox snapshots, the supervisor's diagnostics queue, logging): no hard property beyond their bounds.
- Preflights and seals of `renderer-commands.ts`, host effects, executable discovery, window geometry: smaller cores whose properties would be easier members.
- Agent Lab scenarios, browser session orchestration, menus, windows and startup pages: orchestration and user interface.
- Tool checks, signatures, hashing, permissions and `flock` in the update worker: one answer each.
