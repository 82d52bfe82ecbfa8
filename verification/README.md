# The private-access service and its evidence pipeline: models and proofs

These modules model the parts of the repository in which order, interleaving or a budget matters, and prove
what the code promises about them.

- **The durable session protocol.** `SessionStore` keeps a revision-fenced access state for each entity,
  `DelegationStore.sync` publishes it through an ordered queue, `HeldSessions` reloads what is stored after a
  restart, and the POST and DELETE handlers drive all three. `SessionStore.dfy` and `DelegationStore.dfy` hold
  the two stores as classes over the specification of one entity's slot and one key's lane; `HeldRecord.dfy` is
  the stored record; `SessionProtocol.dfy` is the state machine of one entity, with any number of POSTs,
  DELETEs, retries and writes, one reload, and crashes; `SessionInvariant.dfy` is its inductive invariant,
  `SessionTheorems.dfy` what it keeps and `SessionProgress.dfy` what it achieves.
  `HeldSessions.dfy` is the scheduler of the reloads.
- **The serialized worker, the write lane and the client session** (`Worker.dfy`, `WriteLane.dfy`, `Session.dfy`).
- **Fenced caches and registries** (`SwrCache.dfy`, `EntityRegistry.dfy`, `TranscriptRegistry.dfy`): late
  asynchronous work must not install anything after an invalidation or a replacement.
- **Evidence under a budget** (`MeetingEvidence.dfy`, `EvidenceLedger.dfy`, `EvidencePack.dfy`,
  `MeetingFormat.dfy`, `BroadPassages.dfy`) and **the streaming tool-call filter** (`StreamFilter.dfy`).

An object whose methods update its fields is a class whose methods are proved to do what a function on the
abstract state does; what runs between two awaits is one such method, and the results are lemmas over runs of
those functions. Loops of the source are loops here. Clocks, timer callbacks, the outcomes of network calls and
the callbacks a caller passes in are parameters of the steps. `dafny verify dfyconfig.toml` checks everything.

## Findings

- A comment in packages/eliza-service/src/handlers/sessions.ts:391-393 says that a restart never undoes a
  Disconnect. The code does not keep that promise when a POST reserves the entity after the DELETE and before the
  DELETE's write reads the state: the write then keeps the old record, sync() resolves true, the DELETE answers
  200, and a crash brings the old connection back. `ConfirmedDisconnectCanBeUndone` is such a run;
  `ConfirmedDisconnectStays` and `ConfirmedDeleteLeavesNothingIff` say exactly when the promise is kept.
- `SwrCache.set` does not fence a load in flight (`SetCanBeOverwritten`). A caller can rely on it exactly when no
  load of the key is in flight at the call (`SetIsSafeIff`).
- `maxClients` of the entity registry and `maxEntries` of the transcript registry are not invariants:
  `EntityRegistries.BoundIsBroken`, `TranscriptRegistries.BoundIsBrokenAtZero` and `BoundIsBrokenByEmptyId` are
  runs from fresh registries that exceed them. `BoundBreaksIff` is the exact condition of a turn in each registry,
  and `EntriesStayBounded` says over which runs the bound holds.
- Merging an outcome twice is not always merging it once (`MergeTwiceCanReorder`); `MergeTwiceIff` is the exact
  condition on the outcome and the ledger before the merge.

## Model

| member | source | states |
|---|---|---|
| `SessionTheorems.ConfirmedConnectionSurvives` | packages/eliza-service/src/handlers/sessions.ts:258-268 | In every interleaving of POSTs, DELETEs, reloads, retries, slow or ambiguous writes, crashes and restarts: when a POST answers 200 the stored record is exactly the one under the revision it returned, and so it stays until the connection ends; PostConfirmsIff says when it does answer 200 |
| `SessionProgress.PostConfirmsIff` | packages/eliza-service/src/handlers/sessions.ts:250-268 | In every interleaving within a process, a POST that has reserved the entity and whose write answers true is answered 200 under the revision it reserved exactly when no other ceremony and no Disconnect came between, and 409 otherwise |
| `SessionProgress.ConfirmedIff` | packages/eliza-service/src/handlers/sessions.ts:264-268 | Of all steps, a POST gets to 200 exactly in the one in which its write has answered true and its lease is current; the entity is then active and the record stored under the revision answered |
| `SessionProgress.StaleIff` | packages/eliza-service/src/handlers/sessions.ts:251-267 | It gets to 409 exactly when the revision it was told is not the present one, or when it looks at its lease again and that is current no more |
| `SessionProgress.FailedIff` | packages/eliza-service/src/handlers/sessions.ts:265-279 | It turns to 503 exactly when its activation threw or its write answered false under a lease that is current; the removal is then owed |
| `SessionProgress.UnavailableIff` | packages/eliza-service/src/handlers/sessions.ts:276-279 | ... and answers it once its candidates are detached |
| `SessionProgress.ReservedIff` | packages/eliza-service/src/handlers/sessions.ts:250-253 | It holds a lease exactly when it was told the present revision; the entity is then activating under that lease and its pending reload forgotten |
| `SessionProgress.StagedIff` | packages/eliza-service/src/handlers/sessions.ts:262-263 | It waits for a write exactly when its activation succeeded and its lease is still current; that write has not read the state yet, and will put the record |
| `SessionProgress.ActivatedIff` | packages/eliza-service/src/handlers/sessions.ts:256-256 | It goes on from its activation exactly when that succeeds |
| `SessionProgress.PostCanConfirm` | packages/eliza-service/src/handlers/sessions.ts:230-268 | From every reachable state a POST that names the present revision can be carried to its 200: the writes before its own can be finished, and it then needs only its own activation and write |
| `SessionProgress.SomeWriteGoesOn` | packages/eliza-service/src/delegation-store.ts:284-301 | Writes never wait for each other in a circle: while one is unfinished, one can go on, and there is less left to do |
| `SessionTheorems.ReloadRestoresTheConnection` | packages/eliza-service/src/held-sessions.ts:298-384 | After a POST has answered 200 and the process has restarted, with nobody else touching the entity and its record passing the checks, the first reload that completes makes the entity active under the very revision that the POST returned, with its record, and it stays so |
| `SessionTheorems.ReloadIsNotLost` | packages/eliza-service/src/held-sessions.ts:261-296 | Until then, through failed reads and failed activations, the entity stays pending: once the index is loaded its reload is in progress or can begin, and it reports nothing but "restoring" |
| `SessionTheorems.AcceptedReactivates` | packages/eliza-service/src/held-sessions.ts:306-355 | A stored record that passes its checks is reactivated under its own revision and with its own grant; an expired one is active at once |
| `SessionTheorems.ActivationRestores` | packages/eliza-service/src/held-sessions.ts:357-384 | An activation that succeeds under a lease that is still current makes the entity active under the stored revision |
| `SessionTheorems.HeldUnderItsRevision` | packages/eliza-service/src/held-sessions.ts:298-384 | As long as a confirmed connection has not ended, a process that holds it or reloads it does so under its revision, and no write asks for anything else |
| `SessionTheorems.ConfirmedDisconnectStays` | packages/eliza-service/src/handlers/sessions.ts:388-407 | After a DELETE answers 200, if no POST has reserved the entity since the DELETE began, nothing is stored, nothing in flight can store anything and the process grants nothing; no write, retry, reload or crash and restart changes that until a POST reserves the entity |
| `SessionProgress.DeleteAnswersIff` | packages/eliza-service/src/handlers/sessions.ts:396-407 | A DELETE answers 200 exactly when its write answered true and the candidates were detached, and 503 exactly when either is not so |
| `SessionTheorems.DeleteIsDecidedAtTheRead` | packages/eliza-service/src/held-sessions.ts:119-144 | The write that answers a confirmed DELETE begins after the DELETE and writes what it reads at that instant; it is a delete exactly when the entity is then disconnected or without access; and if nobody reserved it before that read it was disconnected |
| `SessionTheorems.ConfirmedDeleteLeavesNothingIff` | packages/eliza-service/src/handlers/sessions.ts:388-407 | A DELETE that answers 200 has left no stored record when its write settled exactly when, at the instant that write read the state, the entity was disconnected or without access, or the write was told to keep and nothing was stored; so always when no POST reserved the entity before that read |
| `SessionTheorems.ConfirmedDisconnectCanBeUndone` | packages/eliza-service/src/handlers/sessions.ts:391-395 | A concrete run: a POST reserves between a DELETE and its write, the write keeps the old record and resolves true, the DELETE answers 200, the process crashes, and the restart makes the old connection active again |
| `SessionTheorems.OrphanKeepsIff` | packages/eliza-service/src/delegation-store.ts:284-292 | A write of a former process that lands after the restart leaves a confirmed connection as it was exactly when it keeps or puts that very record |
| `SessionTheorems.OrphanRemovesIff` | packages/eliza-service/src/delegation-store.ts:284-292 | Such a write leaves a confirmed Disconnect standing exactly when it is not a put |
| `SessionTheorems.OrphanUndoesDisconnect` | packages/eliza-service/src/handlers/sessions.ts:391-395 | A put of a former process that lands after a confirmed Disconnect makes the old connection active at the next restart |
| `SessionTheorems.RemovalIsNeverForgotten` | packages/eliza-service/src/delegation-store.ts:293-296 | From a DELETE, from a POST that answers 503, or from a reload that finds the record kept for too long, the removal stays queued, in flight, armed or done through any number of failed writes; when the lane is quiet nothing is stored |
| `SessionTheorems.LocalStateWins` | packages/eliza-service/src/held-sessions.ts:301-315 | Once the entity has a state of this process other than restoring, no step of a reload changes its access state or asks for a write |
| `SessionTheorems.NothingToReload` | packages/eliza-service/src/held-sessions.ts:305-308 | With nothing stored, no reload step changes an unknown entity |
| `SessionProgress.RevocationComesBack` | packages/eliza-service/src/held-sessions.ts:119-144 | What a write of a revoked entity leaves in the space comes back at the next restart as that revocation, under its revision and with its marks |
| `SessionProgress.ConnectionComesBack` | packages/eliza-service/src/held-sessions.ts:119-144 | What a write of an active entity leaves comes back as that connection |
| `SessionProgress.RevocationIsRecorded` | packages/eliza-service/src/held-sessions.ts:362-368 | When the node reports the grant revoked, the entity is revoked at once and a write of its tombstone is waiting |
| `SessionProgress.RevocationIsWritten` | packages/eliza-service/src/held-sessions.ts:129-135 | Whatever write begins while the entity is revoked puts its tombstone |
| `SessionProgress.RevocationStays` | packages/eliza-service/src/held-sessions.ts:362-368 | It stays revoked under that revision until a ceremony or a Disconnect |
| `SessionProgress.RefusedIsGivenUp` | packages/eliza-service/src/held-sessions.ts:345-355 | A record that the policy refuses loses its access in this process, while the stored record is left alone |
| `SessionProgress.FailureIsRetried` | packages/eliza-service/src/held-sessions.ts:379-381 | After a failed read or an unreachable node the reload can begin again, with everything else as it was |
| `SessionProgress.StoppedIsNotRetried` | packages/eliza-service/src/held-sessions.ts:261-267 | After stop() neither is tried again |
| `SessionProgress.ExpiredIsLoaded` | packages/eliza-service/src/held-sessions.ts:369-374 | A grant found expired at its activation is loaded under its revision |
| `SessionTheorems.LeaseStaysDead` | packages/eliza-service/src/session-store.ts:69-78 | Within one process a lease that has stopped being current never becomes current again, whatever steps follow |
| `SessionTheorems.StepsPerform` | packages/eliza-service/src/session-store.ts:80-162 | What any step of the protocol does to the entity is a sequence of the store's own operations |
| `SessionTheorems.LaneFrame` | packages/eliza-service/src/delegation-store.ts:284-303 | A write of the lane changes only in steps about that very write |
| `SessionInvariant.StepKeepsInv` | packages/eliza-service/src/handlers/sessions.ts:250-268 | Every step of every handler, reload, write, timer and crash keeps the inductive invariant over state, queue, stored record and all program counters |
| `SessionInvariant.BootInv` | packages/eliza-service/src/held-sessions.ts:149-153 | A process that starts over any stored value of older processes satisfies the invariant |
| `SessionInvariant.StartPostKeepsInv` | packages/eliza-service/src/handlers/sessions.ts:250-253 | The reservation of a POST, with the reload it supersedes, keeps the invariant |
| `SessionInvariant.StagePostKeepsInv` | packages/eliza-service/src/handlers/sessions.ts:262-263 | Staging a record and asking for its write keeps the invariant |
| `SessionInvariant.ResumePostKeepsInv` | packages/eliza-service/src/handlers/sessions.ts:264-279 | What a POST does when its write has answered keeps the invariant; which answer it gives is ConfirmedIff, StaleIff and FailedIff |
| `SessionInvariant.StartDeleteKeepsInv` | packages/eliza-service/src/handlers/sessions.ts:390-395 | Disconnecting, forgetting the reload and asking for the removal keep the invariant |
| `SessionInvariant.DecideKeepsInv` | packages/eliza-service/src/held-sessions.ts:306-355 | What a reload decides about the record it has read keeps the invariant |
| `SessionInvariant.ActivateReloadKeepsInv` | packages/eliza-service/src/held-sessions.ts:357-384 | The end of a reload's activation keeps the invariant |
| `SessionInvariant.DetachReloadKeepsInv` | packages/eliza-service/src/held-sessions.ts:359-379 | The end of a failed reload's cleanup keeps the invariant |
| `SessionInvariant.FinishKeepsInv` | packages/eliza-service/src/delegation-store.ts:286-298 | A write that settles, with success or an ambiguous failure, keeps the invariant |
| `SessionInvariant.FireKeepsInv` | packages/eliza-service/src/delegation-store.ts:325-332 | A retry timer that fires keeps the invariant |
| `DelegationStores.SyncedTrueIsDurable` | packages/eliza-service/src/delegation-store.ts:272-303 | A call of sync() that resolved true was settled by a write that read the desired state after the call; when it settled the stored value was what that read asked for; every older write was over before it began |
| `DelegationStores.OneWriteAtATime` | packages/eliza-service/src/delegation-store.ts:243-245 | At every moment at most one write of a key is in flight |
| `DelegationStores.OrderKept` | packages/eliza-service/src/delegation-store.ts:277-303 | Any event keeps the order of the lane: older runs over, the queue present while a run is queued or running, the armed retry timer its own |
| `DelegationStores.SettledForGood` | packages/eliza-service/src/delegation-store.ts:290-297 | An answer to a caller never changes |
| `DelegationStores.SyncIff` | packages/eliza-service/src/delegation-store.ts:277-303 | A call joins a write that has not read the state yet exactly when there is one, and otherwise adds one |
| `DelegationStores.RetriesIff` | packages/eliza-service/src/delegation-store.ts:287-297 | A retry is armed exactly when a delete has failed and the store has not been stopped |
| `DelegationStores.DroppedIff` | packages/eliza-service/src/delegation-store.ts:301-301 | The queue of a key is dropped exactly when its last write has settled and no retry is kept |
| `DelegationStores.DelegationStore.constructor` | packages/eliza-service/src/delegation-store.ts:253-256 | A new store has an ordered, empty lane for every key |
| `DelegationStores.DelegationStore.Sync` | packages/eliza-service/src/delegation-store.ts:277-303 | Joins the waiting run of the key or queues one behind the tail, and leaves every other key alone; an invalid key changes nothing |
| `DelegationStores.DelegationStore.Begin` | packages/eliza-service/src/delegation-store.ts:284-286 | A run starts after its predecessor has settled and reads the desired state then |
| `DelegationStores.DelegationStore.Finish` | packages/eliza-service/src/delegation-store.ts:287-297 | A run settles; a failed delete arms a retry unless the store has stopped |
| `DelegationStores.DelegationStore.Clean` | packages/eliza-service/src/delegation-store.ts:301-301 | An idle key without a retry is dropped from the map, and no other |
| `DelegationStores.DelegationStore.Fire` | packages/eliza-service/src/delegation-store.ts:328-331 | A retry timer clears itself and calls sync() |
| `DelegationStores.DelegationStore.Stop` | packages/eliza-service/src/delegation-store.ts:320-323 | Every retry timer the store still knows of is disarmed |
| `SessionStores.LeaseNeverReturns` | packages/eliza-service/src/session-store.ts:69-78 | After any operations of the store a lease that was passed over is not current |
| `SessionStores.CoversForever` | packages/eliza-service/src/session-store.ts:69-176 | No operation of the store makes an old revision current again |
| `SessionStores.SessionStore.Reserve` | packages/eliza-service/src/session-store.ts:80-84 | Reserves the entity under a fresh revision, or refuses a stale expectation; no other entity changes |
| `SessionStores.SessionStore.Commit` | packages/eliza-service/src/session-store.ts:86-91 | Makes the lease's activation active, exactly when it is current and activating |
| `SessionStores.SessionStore.Stage` | packages/eliza-service/src/session-store.ts:97-101 | Marks the record to be persisted, exactly when the lease is current and activating |
| `SessionStores.SessionStore.BeginRestore` | packages/eliza-service/src/session-store.ts:126-130 | Takes the persisted revision only for an entity without state |
| `SessionStores.SessionStore.Restore` | packages/eliza-service/src/session-store.ts:136-140 | Completes a reload under its own revision, exactly while it is restoring |
| `SessionStores.SessionStore.Tombstone` | packages/eliza-service/src/session-store.ts:143-148 | Records a revocation, exactly while restoring or already revoked |
| `SessionStores.SessionStore.AbandonRestore` | packages/eliza-service/src/session-store.ts:151-153 | Ends a reload that is still current and restoring, and nothing else |
| `SessionStores.SessionStore.Fail` | packages/eliza-service/src/session-store.ts:155-157 | Replaces a current lease's state by "none" under a fresh revision |
| `SessionStores.SessionStore.Disconnect` | packages/eliza-service/src/session-store.ts:159-162 | Replaces any state by "disconnected" under a fresh revision |
| `HeldRecords.ReadBack` | packages/eliza-service/src/delegation-store.ts:76-94 | A session is read back from storage unchanged exactly when its revision is bounded, an active one has both grants, and it is read under its own scope and entity |
| `HeldRecords.AcceptedIsStorable` | packages/eliza-service/src/delegation-store.ts:76-94 | Whatever the space returns, a session that is accepted can be stored and read back unchanged |
| `HeldRecords.RestartReadsBack` | packages/eliza-service/src/held-sessions.ts:335-342 | Publishing a bundled record and reloading it gives the record and the revision back |
| `HeldRecords.EarliestIs` | packages/eliza-service/src/handlers/sessions.ts:205-214 | A bundle expires when the first of its grants that expire does |
| `HeldRecords.RevisionTextInjective` | packages/eliza-service/src/session-store.ts:176-176 | Two revisions have the same text only when process and number agree |
| `HeldSessionsScheduler.PumpedIsValid` | packages/eliza-service/src/held-sessions.ts:240-248 | After pump() nothing stays queued while a slot is free, and every wanted pending entity is queued, in flight or has its own armed timer |
| `HeldSessionsScheduler.PumpStartsTheOldest` | packages/eliza-service/src/held-sessions.ts:240-248 | pump() takes the queue from its head until no slot is free, and starts exactly those it takes that are pending and not waiting for a timer |
| `HeldSessionsScheduler.EndedIff` | packages/eliza-service/src/held-sessions.ts:261-267 | A reload is tried again, under a timer of its own, exactly when it asked for that while the schedule is ready and it is pending; otherwise nothing of it is left |
| `HeldSessionsScheduler.RequestedIff` | packages/eliza-service/src/held-sessions.ts:230-238 | A request starts the reload exactly when the entity is pending and its backoff is over |
| `HeldSessionsScheduler.FiredStarts` | packages/eliza-service/src/held-sessions.ts:277-281 | When an entity's own timer fires and a slot is free its reload starts |
| `HeldSessionsScheduler.HeldSessions.DelayDoubles` | packages/eliza-service/src/held-sessions.ts:272-276 | The delays start at the base and double up to the maximum, for sixteen retries |
| `HeldSessionsScheduler.FiredIsConsistent` | packages/eliza-service/src/held-sessions.ts:277-281 | A backoff timer that fires loses no wakeup |
| `HeldSessionsScheduler.EndedIsConsistent` | packages/eliza-service/src/held-sessions.ts:261-267 | The end of a reload loses no wakeup, whether it settles or backs off |
| `HeldSessionsScheduler.RequestedIsValid` | packages/eliza-service/src/held-sessions.ts:230-238 | A request for one entity keeps the schedule valid, though it may exceed the concurrency |
| `HeldSessionsScheduler.IndexedIsConsistent` | packages/eliza-service/src/held-sessions.ts:218-225 | Exactly the listed entities without local state become pending, and as many of them as are eager are queued |
| `HeldSessionsScheduler.HeldSessions.IndexLoaded` | packages/eliza-service/src/held-sessions.ts:217-227 | Collects the listed entities in order without repetition, queues the first eager ones and pumps; a list that arrives too late changes nothing |
| `HeldSessionsScheduler.HeldSessions.Prioritize` | packages/eliza-service/src/held-sessions.ts:230-238 | Takes the entity out of the queue and runs it unless it backs off |
| `HeldSessionsScheduler.HeldSessions.Pump` | packages/eliza-service/src/held-sessions.ts:240-248 | Starts queued entities until the slots are taken |
| `HeldSessionsScheduler.HeldSessions.RetryLater` | packages/eliza-service/src/held-sessions.ts:272-284 | Arms the next backoff timer |
| `HeldSessionsScheduler.HeldSessions.Settle` | packages/eliza-service/src/held-sessions.ts:286-296 | Forgets the entity with its timer |
| `HeldSessionsScheduler.HeldSessions.Finish` | packages/eliza-service/src/held-sessions.ts:261-267 | Ends a reload: back off or settle, free the slot, pump |
| `HeldSessionsScheduler.HeldSessions.TimerFires` | packages/eliza-service/src/held-sessions.ts:277-281 | Ends a backoff and puts the entity at the head of the queue |
| `HeldSessionsScheduler.HeldSessions.Stop` | packages/eliza-service/src/held-sessions.ts:198-203 | Disarms the timers |
| `Workers.HistoryIsValid` | packages/agent-client/src/worker.ts:190-221 | Over any history: jobs leave each lane in the order they were accepted, each call sent settles at most once, at most one is unsettled, an idle worker has empty queues, the write queue is bounded, and the breaker is not closed exactly when the trailing run of failures has reached the threshold |
| `Workers.JobsAreDealt` | packages/agent-client/src/worker.ts:185-221 | Over any history the jobs taken from the lanes are, as a multiset, the jobs sent and the jobs refused: none is lost, doubled or mistaken for another |
| `Workers.PumpTakesReadsFirst` | packages/agent-client/src/worker.ts:182-196 | A pump takes reads before writes, oldest first |
| `Workers.NothingSentWhileOpen` | packages/agent-client/src/worker.ts:274-283 | An event sends at most one call, and after the threshold of failures not before the window that the last of them opened has ended |
| `Workers.SentIff` | packages/agent-client/src/worker.ts:190-208 | Over any history, whenever an event leaves the slot free with jobs waiting, the oldest, reads first, is sent at once exactly when fewer failures than the threshold have followed the last success or openMs have passed since the last failure; exactly otherwise the waiting jobs are refused |
| `Workers.SuccessReopens` | packages/agent-client/src/worker.ts:285-289 | A recorded success lets the next job be sent at once |
| `Workers.RefusedOnlyWhileOpen` | packages/agent-client/src/worker.ts:206-210 | A job is refused only while enough failures trail and the window since the last one is not over |
| `Workers.HistoryRecords` | packages/agent-client/src/worker.ts:135-145 | The recorded outcomes, the last failure and the accepted jobs are exactly those of the events; a write is accepted exactly while its queue is below its limit |
| `Workers.ProbesAreBounded` | packages/agent-client/src/worker.ts:274-306 | In an outage of length T since the breaker opened, with a clock that does not run back, the number of calls sent times the window is at most T |
| `Workers.Worker.SubmitRead` | packages/agent-client/src/worker.ts:126-128 | Queues a read and pumps |
| `Workers.Worker.SubmitWrite` | packages/agent-client/src/worker.ts:135-145 | Queues a write and pumps, or rejects it when the queue is full |
| `Workers.Worker.Pump` | packages/agent-client/src/worker.ts:190-196 | Fills the single slot; jobs that an open breaker refuses free it at once |
| `Workers.Worker.Settle` | packages/agent-client/src/worker.ts:205-221 | Records the outcome, frees the slot and pumps |
| `Workers.Worker.BreakerGate` | packages/agent-client/src/worker.ts:274-283 | Lets a job run exactly when the breaker is not open or its window has ended, which turns it half-open |
| `Workers.Worker.RecordFailure` | packages/agent-client/src/worker.ts:291-301 | Counts a failure, or reopens at once after a probe |
| `WriteLanes.WriteLane.RunWrite` | packages/eliza-plugin-memory/src/write-lane.ts:53-66 | Starts, queues or rejects a job; jobs start in the order they were admitted, each once; a job waits only while every slot is taken; the queue is bounded |
| `WriteLanes.WriteLane.Finish` | packages/eliza-plugin-memory/src/write-lane.ts:78-81 | A settled job's slot goes to the oldest waiting job |
| `WriteLanes.WriteLane.Pump` | packages/eliza-plugin-memory/src/write-lane.ts:84-90 | Free slots go to the oldest waiting jobs |
| `Sessions.LifecycleBounds` | packages/agent-client/src/session.ts:136-220 | Over all interleavings: at most one transport sign-in in flight; each operation invoked at most twice; rejection notices at most one more than successful sign-ins; at most one refresh timer, and none after stop() |
| `Sessions.StopIsFinal` | packages/agent-client/src/session.ts:173-193 | After stop() no sign-in and no operation starts |
| `Sessions.SignInStartsIff` | packages/agent-client/src/session.ts:136-155 | A transport sign-in starts exactly when none is in flight, the session has not stopped, and a run finds it not established, a first attempt failed to authenticate, or the refresh timer fired |
| `Sessions.EstablishedIff` | packages/agent-client/src/session.ts:146-155 | The session becomes established exactly when the owner of a successful sign-in resumes, and stops being so at an auth failure or a refresh |
| `Sessions.FlightIff` | packages/agent-client/src/session.ts:141-155 | The sign-in that others join is the one started last, until the caller that started it resumes, however it ended |
| `Sessions.SubmittedIff` | packages/agent-client/src/session.ts:197-205 | A job is submitted exactly when the sign-in its caller awaits succeeded and the session has not stopped |
| `Sessions.InvokedIff` | packages/agent-client/src/session.ts:247-250 | An operation is invoked exactly when the worker runs its job and the session has not stopped |
| `Sessions.RetriesIff` | packages/agent-client/src/session.ts:205-219 | It is tried again after a new sign-in exactly when its first attempt failed to authenticate and the session has not stopped |
| `Sessions.ArmsIff` | packages/agent-client/src/session.ts:319-347 | The refresh timer is armed anew exactly when a sign-in succeeded or a refresh failed for another reason than its delegation, in a proactive session that has not stopped |
| `Sessions.NotifiesIff` | packages/agent-client/src/session.ts:296-312 | The host is told exactly when a delegation is rejected that it has not been told of since the last success |
| `Sessions.EventKeepsValid` | packages/agent-client/src/session.ts:264-347 | Every stretch between two awaits keeps the flights, budgets and timers valid |
| `Sessions.Session.EnsureSignedIn` | packages/agent-client/src/session.ts:136-155 | Refuses, reuses, joins or starts the one sign-in |
| `Sessions.Session.SignInSettles` | packages/agent-client/src/session.ts:277-292 | Ends a sign-in; one that ends after stop() counts for nothing |
| `Sessions.Session.HandleDelegationRejected` | packages/agent-client/src/session.ts:296-312 | Stops the cadence and tells the host once |
| `Sessions.Session.ScheduleRefresh` | packages/agent-client/src/session.ts:319-328 | Replaces the armed timer, unless stopped |
| `Sessions.Session.AttemptEnds` | packages/agent-client/src/session.ts:205-219 | Retries once, and only after an auth failure |
| `Sessions.Session.RefreshFires` | packages/agent-client/src/session.ts:330-340 | Forces a new sign-in, unless stopped |
| `Sessions.Session.RefreshEnds` | packages/agent-client/src/session.ts:333-347 | Goes on with the cadence unless the delegation was rejected |
| `Sessions.Session.Stop` | packages/agent-client/src/session.ts:173-178 | Disarms the refresh timer for good |
| `SwrCaches.StoreIsCurrent` | packages/eliza-plugin-memory/src/caches.ts:75-90 | Every value the cache holds was set, or its load started, after the last invalidation of its key, even one that matched the key when it was neither stored nor loading |
| `SwrCaches.OneLiveLoad` | packages/eliza-plugin-memory/src/caches.ts:149-158 | Each key has at most one unfinished load that can still store its value |
| `SwrCaches.LoadLandsIff` | packages/eliza-plugin-memory/src/caches.ts:158-171 | A load stores what its loader returned exactly when nothing has invalidated its key since it started |
| `SwrCaches.ColdReadIff` | packages/eliza-plugin-memory/src/caches.ts:116-120 | A cold read whose load resolved in time returns its value exactly when nothing has invalidated the key since the read began, and the fallback otherwise |
| `SwrCaches.ColdReadIsCurrent` | packages/eliza-plugin-memory/src/caches.ts:116-126 | Whatever a cold read returns, in time, late or after an error, is its fallback or a current value |
| `SwrCaches.ReadIff` | packages/eliza-plugin-memory/src/caches.ts:102-116 | A read is answered at once exactly when the key is stored, with what is stored; it starts a load exactly when none is in flight and the key is missing or stale |
| `SwrCaches.LateReadIs` | packages/eliza-plugin-memory/src/caches.ts:121-125 | A read that is late or whose load failed, with nothing invalidated since it began, returns what is stored, else its fallback |
| `SwrCaches.DroppedIff` | packages/eliza-plugin-memory/src/caches.ts:74-90 | An invalidation drops its key, with its loads fenced off, and no other; one by predicate drops exactly the stored or loading keys that match |
| `SwrCaches.SetCanBeOverwritten` | packages/eliza-plugin-memory/src/caches.ts:69-72 | A concrete run in which an older load replaces the value that set() wrote |
| `SwrCaches.SetStaysIff` | packages/eliza-plugin-memory/src/caches.ts:69-72 | Until the next set, invalidation or later load of the key, what a set wrote is still stored exactly when every load that was in flight at the set and has landed brought the same entry |
| `SwrCaches.SetIsSafeIff` | packages/eliza-plugin-memory/src/caches.ts:69-72 | What a set writes stays in every such continuation exactly when no load of the key is in flight at the call |
| `SwrCaches.AfterSet` | packages/eliza-plugin-memory/src/caches.ts:149-171 | At most one load that was in flight at a set lands after it, and then its value is what is stored |
| `SwrCaches.DropKeepsInv` | packages/eliza-plugin-memory/src/caches.ts:74-90 | An invalidation fences every load and every waiting reader of the keys it means |
| `SwrCaches.SwrCache.Set` | packages/eliza-plugin-memory/src/caches.ts:70-72 | Stores the value without touching loads or revisions |
| `SwrCaches.SwrCache.Invalidate` | packages/eliza-plugin-memory/src/caches.ts:75-79 | Drops the value and the load, under a new revision |
| `SwrCaches.SwrCache.InvalidateWhere` | packages/eliza-plugin-memory/src/caches.ts:86-90 | Invalidates each stored or loading key that matches, and no other |
| `SwrCaches.SwrCache.Revalidate` | packages/eliza-plugin-memory/src/caches.ts:149-157 | Joins the load in flight or starts one under the present revision |
| `SwrCaches.SwrCache.Read` | packages/eliza-plugin-memory/src/caches.ts:102-119 | Answers from the store, refreshing a stale value, or waits for a load |
| `SwrCaches.SwrCache.LoadEnds` | packages/eliza-plugin-memory/src/caches.ts:158-171 | Stores the value or rejects, and clears its own load only |
| `SwrCaches.SwrCache.ReadEnds` | packages/eliza-plugin-memory/src/caches.ts:119-125 | Answers a cold read |
| `SwrCaches.SwrCache.Turn` | packages/eliza-plugin-memory/src/caches.ts:48-173 | The cache takes each turn as the specification does |
| `EntityRegistries.NoClientIsLost` | packages/eliza-plugin-memory/src/entity-registry.ts:368-391 | Over any run every client created is being built, installed or has been told to stop; an installed one has not been told to; one still being built has been told to exactly when its registration was overtaken |
| `EntityRegistries.NoGivenClientIsLost` | packages/eliza-plugin-memory/src/entity-registry.ts:168-177 | A client the registry was given is installed or has been told to stop |
| `EntityRegistries.DisconnectHolds` | packages/eliza-plugin-memory/src/entity-registry.ts:318-330 | After disconnectEntity(e) whatever client is installed for e belongs to a registration begun since, and a room maps to e only if there has been one |
| `EntityRegistries.OvertakenInstallsNothing` | packages/eliza-plugin-memory/src/entity-registry.ts:211-231 | A registration begun before a disconnect, a coalesced one included, changes no entry and no room after it |
| `EntityRegistries.GoesOnIff` | packages/eliza-plugin-memory/src/entity-registry.ts:368-391 | A registration goes on from each await exactly while it owns its entity and nothing failed; otherwise its client is told to stop |
| `EntityRegistries.InstallsIff` | packages/eliza-plugin-memory/src/entity-registry.ts:383-391 | A client is installed exactly when its registration holds and there is room or room has been made |
| `EntityRegistries.AskedIsMapped` | packages/eliza-plugin-memory/src/entity-registry.ts:205-231 | Every turn that may map a room does, to the entity that asked |
| `EntityRegistries.UseIff` | packages/eliza-plugin-memory/src/entity-registry.ts:250-265 | A use evicts the entry exactly when its grant was rejected or has expired, and otherwise only touches it |
| `EntityRegistries.RejectIff` | packages/eliza-plugin-memory/src/entity-registry.ts:368-374 | Once the session of an installed client has rejected its grant the next use evicts it |
| `EntityRegistries.RegisterIff` | packages/eliza-plugin-memory/src/entity-registry.ts:193-228 | A registration joins the one under way exactly when that has the same grant and owns the entity; else it overtakes what there is |
| `EntityRegistries.BoundBreaksIff` | packages/eliza-plugin-memory/src/entity-registry.ts:383-386 | A turn takes the registry beyond maxClients exactly when it installs after the await of an eviction while the freed slot has been filled |
| `EntityRegistries.BoundCanBreak` | packages/eliza-plugin-memory/src/entity-registry.ts:383-386 | From any full registry, two registrations that end their schema writes together both install, and maxClients is exceeded |
| `EntityRegistries.BoundIsBroken` | packages/eliza-plugin-memory/src/entity-registry.ts:376-391 | A concrete run of 16 turns from an empty registry with maxClients 1 that ends with two clients installed |
| `EntityRegistries.EntriesStayBounded` | packages/eliza-plugin-memory/src/entity-registry.ts:376-391 | With maxClients at least one and clients given within it, entries never exceed it over any run in which no schema write ends well while another registration awaits an eviction |
| `EntityRegistries.EventKeepsInv` | packages/eliza-plugin-memory/src/entity-registry.ts:193-417 | Every turn keeps registrations, entries, pending entries and stopped clients consistent |
| `EntityRegistries.EntityClientRegistry.Register` | packages/eliza-plugin-memory/src/entity-registry.ts:193-238 | Refuses, touches a given client, joins an identical pending grant, or fences the entity and starts |
| `EntityRegistries.EntityClientRegistry.Disconnect` | packages/eliza-plugin-memory/src/entity-registry.ts:318-330 | Detaches the entity with its rooms, and tells its client and its candidate to stop |
| `EntityRegistries.EntityClientRegistry.Evict` | packages/eliza-plugin-memory/src/entity-registry.ts:394-403 | Removes an entry with its rooms and tells its client to stop |
| `EntityRegistries.EntityClientRegistry.LeastRecentlyUsed` | packages/eliza-plugin-memory/src/entity-registry.ts:405-416 | Finds an entry that no other was used before |
| `EntityRegistries.EntityClientRegistry.Migrated` | packages/eliza-plugin-memory/src/entity-registry.ts:379-386 | Installs, or evicts the least recently used entry and waits, or gives up its client |
| `EntityRegistries.EntityClientRegistry.Evicted` | packages/eliza-plugin-memory/src/entity-registry.ts:384-391 | Installs only if the registration still owns its entity |
| `EntityRegistries.EntityClientRegistry.Bind` | packages/eliza-plugin-memory/src/entity-registry.ts:230-231 | Maps the room only if the registration still owns its entity |
| `EntityRegistries.EntityClientRegistry.Join` | packages/eliza-plugin-memory/src/entity-registry.ts:212-216 | Maps a coalesced caller's room only if the joined registration succeeded and is still current |
| `EntityRegistries.EntityClientRegistry.ClientFor` | packages/eliza-plugin-memory/src/entity-registry.ts:250-265 | Answers a usable, unspent entry's client, and evicts a spent one |
| `EntityRegistries.EntityClientRegistry.BindRoom` | packages/eliza-plugin-memory/src/entity-registry.ts:288-291 | Maps a room only to an entity with a usable client |
| `TranscriptRegistries.RoomsAreIsolated` | packages/eliza-service/src/transcript-registry.ts:166-193 | Over all runs a mapped room's owner has a live entry, a room's selection was made by its present owner, and an entity is only ever answered its own selection |
| `TranscriptRegistries.RevokeHolds` | packages/eliza-service/src/transcript-registry.ts:94-117 | After a revoke, a stop or a replacement, the entity's entry and the entry behind its rooms belong to no earlier activation |
| `TranscriptRegistries.OvertakenDoesNothing` | packages/eliza-service/src/transcript-registry.ts:88-112 | A late activation neither installs anything nor drops what has replaced it |
| `TranscriptRegistries.ActivatesIff` | packages/eliza-service/src/transcript-registry.ts:211-226 | An activation installs its entry and takes its room, without a selection, exactly when it succeeded and still owns its entity; only a full registry loses another entry for it |
| `TranscriptRegistries.CatchIff` | packages/eliza-service/src/transcript-registry.ts:106-111 | A failed activation takes every trace of its entity with it exactly when it still owns it |
| `TranscriptRegistries.ReadIff` | packages/eliza-service/src/transcript-registry.ts:119-134 | A read is allowed exactly with an unexpired grant and a room that is not another's; it drops an expired grant and otherwise changes nothing |
| `TranscriptRegistries.SelectedIff` | packages/eliza-service/src/transcript-registry.ts:173-193 | A meeting is selected, and is then the answer for that entity and room, exactly when the grant allows a read at both checks |
| `TranscriptRegistries.ClearedIff` | packages/eliza-service/src/transcript-registry.ts:184-189 | Selecting nothing clears the room's selection exactly when the entity may read |
| `TranscriptRegistries.RegisterIff` | packages/eliza-service/src/transcript-registry.ts:94-103 | A registration joins the one under way exactly when that has the same grant and room; else it fences what there is and starts |
| `TranscriptRegistries.EntriesStayBounded` | packages/eliza-service/src/transcript-registry.ts:220-221 | With maxEntries at least one and no empty entity id, there are never more entries |
| `TranscriptRegistries.BoundBreaksIff` | packages/eliza-service/src/transcript-registry.ts:251-254 | A turn exceeds the bound exactly when it installs at the bound and the bound is zero or the least recently used id is empty |
| `TranscriptRegistries.BoundIsBrokenAtZero` | packages/eliza-service/src/transcript-registry.ts:218-226 | A concrete run from a fresh registry with maxEntries 0 that installs an entry |
| `TranscriptRegistries.BoundIsBrokenByEmptyId` | packages/eliza-service/src/transcript-registry.ts:220-221 | A concrete run from a fresh registry with maxEntries 1 in which an entity with an empty id is not evicted for the next one |
| `TranscriptRegistries.EventKeepsInv` | packages/eliza-service/src/transcript-registry.ts:94-254 | Every turn keeps generations, entries, rooms and selections consistent |
| `TranscriptRegistries.TranscriptAccessRegistry.Register` | packages/eliza-service/src/transcript-registry.ts:94-103 | Joins the identical pending registration, or drops the entity and starts |
| `TranscriptRegistries.TranscriptAccessRegistry.Drop` | packages/eliza-service/src/transcript-registry.ts:240-249 | Removes every trace of the entity, its rooms and their selections |
| `TranscriptRegistries.TranscriptAccessRegistry.Activate` | packages/eliza-service/src/transcript-registry.ts:218-226 | Installs the current activation and gives its room to the entity with the selection cleared |
| `TranscriptRegistries.TranscriptAccessRegistry.Catch` | packages/eliza-service/src/transcript-registry.ts:106-111 | Drops the entity only if the failed activation still owns it |
| `TranscriptRegistries.TranscriptAccessRegistry.ReaderFor` | packages/eliza-service/src/transcript-registry.ts:119-134 | Refuses another entity's room, and drops an expired grant |
| `TranscriptRegistries.TranscriptAccessRegistry.SetSelection` | packages/eliza-service/src/transcript-registry.ts:184-193 | Stores a selection only for an entity that may read the room, twice checked |
| `TranscriptRegistries.TranscriptAccessRegistry.SelectMeeting` | packages/eliza-service/src/transcript-registry.ts:173-182 | Takes the room before the second check, which undoes it if the grant has expired |
| `TranscriptRegistries.TranscriptAccessRegistry.Stop` | packages/eliza-service/src/transcript-registry.ts:203-209 | Forgets everything |
| `StreamFilters.StreamIsBatch` | packages/eliza-service/src/tasks/runner.ts:102-125 | For every cutting of the text into deltas, a completed round in which no delta and not the text calls a private tool, and no tool call comes beside the text, has emitted exactly the text before the first marker |
| `StreamFilters.StreamIsSeen` | packages/eliza-service/src/tasks/runner.ts:102-152 | With tool calls beside the text, and no event that calls a private tool, each stretch of text between them is shown as far as is safe, the last one to its marker |
| `StreamFilters.SelectedIff` | packages/eliza-service/src/tasks/runner.ts:96-123 | A round counts as private exactly when it followed a private one or an event of it called a private tool, beside its text or in it together with what was held back |
| `StreamFilters.PlainSelectedIff` | packages/eliza-service/src/tasks/runner.ts:110-123 | Without tool calls beside the text: exactly when some event calls a private tool, or its content behind what is kept of the text before it does |
| `StreamFilters.PrivateHasReason` | packages/eliza-service/src/tasks/runner.ts:96-123 | No false alarm: then some delta, or the text as a whole, calls a private tool |
| `StreamFilters.SafeLags` | packages/eliza-service/src/tasks/runner.ts:114-120 | What is shown is always a prefix of what any continuation shows, at most nine characters behind the text in front of the marker |
| `StreamFilters.PrivateFreezes` | packages/eliza-service/src/tasks/runner.ts:62-70 | Nothing is emitted once a private call has been seen |
| `StreamFilters.PrivateShowsPreamble` | packages/eliza-service/src/tasks/runner.ts:110-112 | When event k is the first to call a private tool, the round emits exactly what was safe to show before it |
| `StreamFilters.PrivateCallIsSeen` | packages/eliza-service/src/tasks/runner.ts:112-123 | However the text is cut, a private call written after the first marker is seen |
| `StreamFilters.FailsIff` | packages/eliza-service/src/tasks/runner.ts:104-105 | A round is cut off for its length exactly when its whole text is longer than the limit |
| `StreamFilters.RecheckIsRedundant` | packages/eliza-service/src/tasks/runner.ts:123-123 | The second look for a private call finds nothing that the first did not |
| `StreamFilters.Round.Emit` | packages/eliza-service/src/tasks/runner.ts:62-70 | Emits the text in slices of at most 16000 that make it up, or nothing after a private call |
| `StreamFilters.Round.HeldBack` | packages/eliza-service/src/tasks/runner.ts:117-118 | Finds the longest end that may begin a marker |
| `StreamFilters.Round.IndexOfMarker` | packages/eliza-service/src/tasks/runner.ts:114-114 | Finds the first marker |
| `StreamFilters.Round.Deliver` | packages/eliza-service/src/tasks/runner.ts:102-125 | Handles one event as the specification does, whose flag SelectedIff and whose output StreamIsSeen pin |
| `StreamFilters.Round.Finish` | packages/eliza-service/src/tasks/runner.ts:132-152 | Emits what was held back unless a marker was seen |
| `EvidenceLedgers.NamesAreForever` | packages/eliza-service/src/tasks/evidence.ts:225-251 | Over any merges, whatever evidence is dropped and returns, an M-alias and an E-number once given stay given |
| `EvidenceLedgers.NamesAreUnique` | packages/eliza-service/src/tasks/evidence.ts:231-243 | No alias is given to two identities |
| `EvidenceLedgers.EvidenceIsNamed` | packages/eliza-service/src/tasks/evidence.ts:238-244 | Every piece of evidence in a ledger carries the alias of its identity |
| `EvidenceLedgers.MergeTwiceIff` | packages/eliza-service/src/tasks/evidence.ts:226-251 | Merging an outcome a second time changes nothing exactly when, of its pieces that are new (the first of their identity in the outcome, and not among what the ledger retains of the meeting under it), none that the outcome's own state drops comes before one that it keeps |
| `EvidenceLedgers.AddedAreNews` | packages/eliza-service/src/tasks/evidence.ts:238-244 | What a merge adds are exactly the new pieces of the outcome, in their order |
| `EvidenceLedgers.GoodOutcomeMergesOnce` | packages/eliza-service/src/tasks/evidence.ts:235-236 | An outcome that was read, with a body present or not requested, merged twice is merged once |
| `EvidenceLedgers.MergeTwiceReorders` | packages/eliza-service/src/tasks/evidence.ts:235-244 | A second merge never loses or doubles evidence |
| `EvidenceLedgers.MergeTwiceCanReorder` | packages/eliza-service/src/tasks/evidence.ts:235-244 | A failed outcome that brings a summary before its metadata is reordered by a second merge |
| `EvidenceLedgers.MetadataNeverDowngrades` | packages/eliza-service/src/tasks/evidence.ts:245-247 | A metadata outcome leaves the state, body, search and coverage of a meeting that was read as they are |
| `EvidenceLedgers.MergeTakesOver` | packages/eliza-service/src/tasks/evidence.ts:245-247 | After a merge the meeting reports the outcome's state, body, search and coverage, unless that is metadata over more than metadata, when it reports what it did |
| `EvidenceLedgers.LastOutcomeDecides` | packages/eliza-service/src/tasks/evidence.ts:226-251 | After any merges a meeting reports the last of its outcomes that is more than metadata, whatever came before and whatever metadata came after |
| `EvidenceLedgers.PriorOutcomeStays` | packages/eliza-service/src/tasks/evidence.ts:226-251 | If there is none, an outcome the ledger had that is more than metadata stays |
| `EvidenceLedgers.LastMetadataDecides` | packages/eliza-service/src/tasks/evidence.ts:226-251 | Where there was never more than metadata, the last metadata is reported |
| `EvidenceLedgers.UntouchedStays` | packages/eliza-service/src/tasks/evidence.ts:226-251 | A meeting that no outcome is about is left as it is |
| `EvidenceLedgers.EvidenceAfter` | packages/eliza-service/src/tasks/evidence.ts:235-244 | After a merge a meeting has exactly the pieces the outcome brings and those it had, less all but metadata after a failure, less what quotes the body when that could not be read |
| `EvidenceLedgers.MergeMetadata` | packages/eliza-service/src/tasks/evidence.ts:235-244 | Metadata is never dropped and stays in the order of its numbers |
| `EvidenceLedgers.MergeKeepsValid` | packages/eliza-service/src/tasks/evidence.ts:226-251 | Merging keeps one numbered meeting for each identity and distinct numbers for its evidence |
| `EvidenceLedgers.MergeCounts` | packages/eliza-service/src/tasks/evidence.ts:366-368 | A ledger has exactly one meeting for each identity it was given |
| `EvidenceLedgers.AdmissionBounds` | packages/eliza-service/src/tasks/evidence.ts:361-378 | Over any results a run keeps at most 12 meetings and 16 results, and a valid ledger |
| `EvidenceLedgers.AdmittedIff` | packages/eliza-service/src/tasks/evidence.ts:361-378 | A result is admitted exactly when it is well formed, fewer than 16 were, and the merged ledger has at most 12 meetings |
| `EvidenceLedgers.RunNamesAreForever` | packages/eliza-service/src/tasks/evidence.ts:361-378 | An alias given in a run stays given whatever is admitted later |
| `EvidenceLedgers.MergeMeetingOutcomes` | packages/eliza-service/src/tasks/evidence.ts:226-251 | The loop over outcomes computes the merge that LastOutcomeDecides, EvidenceAfter and the naming lemmas describe |
| `EvidenceLedgers.AddItems` | packages/eliza-service/src/tasks/evidence.ts:238-244 | The inner loop numbers and adds what is not there yet |
| `EvidencePacks.PackMeetingEvidence` | packages/eliza-service/src/tasks/evidence.ts:264-348 | The package never exceeds its characters; it is the limited one, without meetings, exactly when the identities alone do not fit; otherwise every piece is in it in the form chosen at its turn, whole exactly when that was affordable |
| `EvidencePacks.LimitIff` | packages/eliza-service/src/tasks/evidence.ts:319-321 | What would bring the package to c characters in a meeting's turn fits exactly when all meetings with evidence in the tier could grow by as much within the room the tier began with |
| `EvidencePacks.WholeIff` | packages/eliza-service/src/tasks/evidence.ts:322-325 | A piece is in the package whole exactly when, at its turn, the number of sharing meetings times the growth it causes is within the room its tier began with |
| `EvidencePacks.RetainedIff` | packages/eliza-service/src/tasks/evidence.ts:322-339 | Of a piece that is not metadata something is retained exactly when the whole or a cut of 80 characters is so affordable, if longer cuts never make a shorter package |
| `EvidencePacks.RetainedFits` | packages/eliza-service/src/tasks/evidence.ts:322-339 | Whatever is retained of a piece was affordable at its turn |
| `EvidencePacks.TierIsWhole` | packages/eliza-service/src/tasks/evidence.ts:319-325 | A meeting that can afford all of its evidence in a tier keeps all of it |
| `EvidencePacks.TiersInOrder` | packages/eliza-service/src/tasks/evidence.ts:316-318 | Metadata of all meetings is packed before anything else, and quotations of bodies after everything else |
| `EvidencePacks.CutIsMarked` | packages/eliza-service/src/tasks/evidence.ts:330-331 | A cut is marked as truncated and its offsets span no more than what is left of the text |
| `Strings.TrimIs` | packages/eliza-service/src/tasks/evidence.ts:339-339 | Trimming takes away the white space at both ends of a text and nothing else |
| `EvidencePacks.MaxCharsIff` | packages/eliza-service/src/tasks/evidence.ts:267-269 | A length is allowed exactly when it is within 48000, within what is wanted, and its tokens fit beside the context |
| `EvidencePacks.SupportTells` | packages/eliza-service/src/tasks/evidence.ts:274-286 | A meeting's support is none exactly when it was or no retained piece serves its purpose, and sufficient exactly when it was, one does and nothing was cut; the budget is then given as the reason |
| `EvidencePacks.CountsTell` | packages/eliza-service/src/tasks/evidence.ts:274-286 | Pieces left out or shortened count as omitted, and retained pieces that serve the purpose as matches |
| `EvidencePacks.CoverageTells` | packages/eliza-service/src/tasks/evidence.ts:296-306 | The package's counts are those of the meetings in it |
| `EvidencePacks.TokensFit` | packages/eliza-service/src/tasks/evidence.ts:267-269 | The token estimate is within the budget exactly when the context alone is, and always for a package with meetings |
| `EvidencePacks.PackageTells` | packages/eliza-service/src/tasks/evidence.ts:272-308 | Every meeting's identity, state and body are in the package, and its counts of retained, removed and shortened evidence are exact |
| `EvidencePacks.RetainedIsCited` | packages/eliza-service/src/tasks/evidence.ts:288-294 | Every retained piece is cited under its alias and under its bracketed form; [M1] stands for the meeting's last metadata item |
| `EvidencePacks.CitedIsRetained` | packages/eliza-service/src/tasks/evidence.ts:288-292 | Only retained evidence is cited |
| `EvidencePacks.SuppliedIsRetained` | packages/eliza-service/src/tasks/evidence.ts:293-294 | Only bracketed forms of retained evidence are supplied |
| `EvidencePacks.SortKeepsLength` | packages/eliza-service/src/tasks/evidence.ts:343-346 | Restoring the order of the evidence does not change the length of the package |
| `EvidencePacks.PackMeeting` | packages/eliza-service/src/tasks/evidence.ts:320-340 | One meeting's turn in a tier grows the package by at most its share |
| `EvidencePacks.LongestCut` | packages/eliza-service/src/tasks/evidence.ts:327-338 | The binary search returns a length that fits, and the longest one if shorter cuts fit wherever longer ones do |
| `EvidencePacks.ChooseForm` | packages/eliza-service/src/tasks/evidence.ts:322-339 | A piece is kept whole exactly when it fits; metadata is never cut; a cut keeps at least 80 characters between its white space; where shorter cuts fit whenever longer ones do, a fitting cut of 80 characters is never given up and no longer one fits |
| `EvidencePacks.FormIsLongest` | packages/eliza-service/src/tasks/evidence.ts:327-338 | If some cut with 80 characters between its white space fits, and shorter cuts fit whenever longer ones do, a cut at least that long is retained |
| `EvidencePacks.PackTier` | packages/eliza-service/src/tasks/evidence.ts:317-341 | A tier gives each meeting with evidence in it one turn, in order, within the share that LimitIff describes |
| `EvidencePacks.GrowthIsShared` | packages/eliza-service/src/tasks/evidence.ts:319-321 | In every tier the number of sharing meetings times what one meeting's turn adds is within the room the tier began with, and a meeting without evidence in it adds nothing |
| `EvidencePacks.RetainedAtItsTurn` | packages/eliza-service/src/tasks/evidence.ts:322-339 | Whatever is retained of a piece of evidence in the end is the form chosen at its own turn; turns of other pieces, meetings and tiers neither add nor remove it |
| `EvidencePacks.RunCanBePacked` | packages/eliza-service/src/tasks/evidence.ts:380-382 | Whatever a run has admitted meets what packing needs |
| `MeetingFormats.FormatMeetingResult` | packages/eliza-service/src/meeting-evidence.ts:383-429 | Terminates; returns a result of at most 16000 characters or fails with everything given up; every round follows on a result that was too long; what is returned keeps every outcome's identity and says truly what is left; outcomes that fit are returned unchanged |
| `MeetingFormats.FittedIsAccepted` | packages/eliza-service/src/tasks/evidence.ts:157-184 | parseMeetingToolData accepts what it would have accepted before fitting: evidence counts and offsets stay right |
| `MeetingFormats.RoundWeighsLess` | packages/eliza-service/src/meeting-evidence.ts:403-427 | Every round strictly decreases content text, evidence, participants, organizers and title excess together |
| `MeetingFormats.RoundFits` | packages/eliza-service/src/meeting-evidence.ts:406-425 | A round keeps every identity, state and body, and of the evidence prefixes of the originals in their order |
| `MeetingFormats.ReduceIsRound` | packages/eliza-service/src/meeting-evidence.ts:405-419 | A round cuts content while any outcome has some, and takes an outcome's last content only when no outcome has two; only then it cuts metadata; it fails exactly when nothing is left |
| `MeetingFormats.Choose` | packages/eliza-service/src/meeting-evidence.ts:409-411 | Cut first are quotations of the body, from the last; then for action lists the first overview, then the last action, then the first content |
| `MeetingFormats.ContentCutIs` | packages/eliza-service/src/meeting-evidence.ts:412-418 | A cut leaves six tenths of a long piece, with its offsets, and removes a short one; no other piece changes |
| `MeetingFormats.MetadataCutIs` | packages/eliza-service/src/meeting-evidence.ts:419-425 | Fitting gives up the last attendee, else the organizer, else all but 40 characters of the title |
| `MeetingFormats.CoveredTells` | packages/eliza-service/src/meeting-evidence.ts:219-231 | After updateCoverage support is none exactly when no piece serves the purpose, and sufficient exactly when one does and nothing is missing or cut; matches are the pieces that serve |
| `MeetingFormats.Largest` | packages/eliza-service/src/meeting-evidence.ts:405-407 | The outcome reduced is the longest of those considered, the first of equals |
| `MeetingFormats.ReserveMetadata` | packages/eliza-service/src/meeting-evidence.ts:391-399 | Metadata is given up in order, attendees, title, organizer, until it fits its share or nothing is left, and no further |
| `MeetingFormats.LimitEvidence` | packages/eliza-service/src/meeting-evidence.ts:400-400 | Evidence is removed from the end until its text is at most 12000 characters, and no further |
| `BroadPassages.BroadFits` | packages/eliza-service/src/meeting-evidence.ts:178-207 | At most 12 passages, together no longer than available, in order and apart from each other, each exactly the text at its offsets inside one segment with that segment's attribution |
| `BroadPassages.BroadHasEnds` | packages/eliza-service/src/meeting-evidence.ts:187-204 | The first passage starts at the beginning of the text and the last one ends at its end |
| `BroadPassages.BroadIsWhole` | packages/eliza-service/src/meeting-evidence.ts:187-205 | A body that fits in at most 12 segments is given whole, with nothing omitted |
| `BroadPassages.BroadIsThreeWindows` | packages/eliza-service/src/meeting-evidence.ts:187-205 | A body that does not fit is shown through three windows of a third of the room: from its start, around its middle to within one character, and up to its end; each has at most four passages, and the rest of the segments that reach into it are counted as omitted |
| `BroadPassages.BroadIsOneWindow` | packages/eliza-service/src/meeting-evidence.ts:187-205 | A body that fits is one window of at most twelve passages |
| `BroadPassages.WindowCovers` | packages/eliza-service/src/meeting-evidence.ts:195-203 | A window with no more segments than it may have passages shows its part of every segment that reaches into it |
| `BroadPassages.PlainIsMerged` | packages/eliza-service/src/meeting-evidence.ts:180-186 | All plain text between two attributed items is one segment |
| `BroadPassages.SampleIsNearest` | packages/eliza-service/src/meeting-evidence.ts:197-198 | Each sample is the segment nearest to its even share of the way |
| `BroadPassages.AttributionKept` | packages/eliza-service/src/meeting-evidence.ts:180-186 | Every attributed sentence is a segment of its own, and every attributed segment a sentence |
| `BroadPassages.SegmentsTile` | packages/eliza-service/src/meeting-evidence.ts:180-186 | Segments are in order and cover the text but for the breaks between them |
| `BroadPassages.SamplesIncrease` | packages/eliza-service/src/meeting-evidence.ts:197-198 | The rounded sample indices are strictly increasing |
| `BroadPassages.SampleEnds` | packages/eliza-service/src/meeting-evidence.ts:197-198 | The samples include the first and the last candidate |
| `BroadPassages.JoinedAt` | packages/eliza-service/src/meeting-evidence.ts:168-179 | The joined text has every item at its offsets |
| `BroadPassages.BodySentences` | packages/eliza-service/src/meeting-evidence.ts:168-177 | Items are laid out one after the other, a line break apart |
| `BroadPassages.BroadBodyPassages` | packages/eliza-service/src/meeting-evidence.ts:178-207 | The loops over sentences, windows and samples compute the passages that the lemmas are about |

## Left out

- SessionTheorems.ConfirmedDisconnectStays: the hypothesis that nobody reserves the entity since the DELETE began is not in the source's comment; without it the promise is false.
- SessionTheorems.ConfirmedConnectionSurvives: assumes, as the store's callers do, that nothing lands in the space after a write has settled, that one process writes at a time, and that a process's id is new.
- Workers.ProbesAreBounded: assumes a clock that does not run backwards; a call abandoned after its timeout may still be running at the node, so the bound is on dispatches.
- EvidencePacks.PackMeetingEvidence: the package found is not claimed to be the largest that fits; only the single cut is, when lengths are monotone.
- EvidencePacks.RetainedIff: assumes that longer cuts of the piece never make a shorter package, which a size given as a parameter does not promise and the source's binary search relies on; WholeIff and RetainedFits need no such assumption.
- SessionProgress.FailedIff: an activation that fails a policy check is answered 400 in place of 503; the two are not told apart.
- EvidencePacks.RetainedIsCited: two metadata items of one meeting share the form [M1], which stands for the last of them, as in the source.
- SwrCaches.SwrCache.InvalidateWhere: all keys dropped in one call get the same new revision; only comparisons within one key matter.
- EntityRegistries.EntityClientRegistry.LeastRecentlyUsed: among equally old entries the source takes the first inserted, the model any.
- The configuration without persistence, applications other than TinyChat in the session handlers, and GET /sessions.
- Bounded waits (`settled`, `whenIdle`, `flush`), health reports, logs, counters and listeners.
- In the protocol, the time stamp of a stored record and the expiries, which are functions of the delegations; they are part of the record in HeldRecord.
- A write that is in flight when the process crashes has, in the protocol's runs, either landed before the crash or never lands. One that lands later is outside them; OrphanKeepsIff, OrphanRemovesIff and OrphanUndoesDisconnect say what it does to the two main results.
- Renewal of a transcript entry's delegated access, which replaces only a field of the entry it was started for.
- stop() of the entity registry, which is disconnectEntity for every entity.
- The meeting object that metadata evidence shares is modelled by a mark on the item, not by a reference.
- The fractions 0.7 (token budget, a parameter) and 0.6 (six tenths, rounded down) as floating point numbers; JSON texts, whose lengths are parameters.
- Validation of delegations, policy checks, sign-in, key handling, SQL text, regular expressions for recaps, redaction and prose checks, and prompt text.
- The parsing of inline tool calls after a round, TaskUsage, and the attempt limits of runTask: small counters.
- HTTP routing, server-sent events, configuration and argument validation.
