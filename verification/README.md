# Verified model of the K3 support control plane

K3 support is a control plane over one SQLite database: workers mirror entities to a remote table,
a broker runs one coding task at a time, commands go to a remote host one by one, and operators
approve, clean up and erase. Its hard parts are protocols that must stay correct while workers crash,
leases run out and messages arrive late or twice.

Each `with transaction(conn)` block is one atomic step on tables modelled as maps. A state is a value,
a step is a function, and a run is any finite sequence of steps by any number of participants: external
calls happen between steps, their answers are arbitrary, and a crashed participant takes no further
steps. Histories of dispatched writes, executed commands and effects are part of the state, so the main
theorems speak about whole runs. Digests and keyed hashes are injective: a digest is modelled by what it
covers. Beside each protocol stands a class whose methods rewrite the tables the way the source does,
each proved against the step functions, so the run theorems hold of the tables they leave behind. The `*_laws.dfy`
files say of each step function, in rows, clocks and answers alone, exactly when it takes effect and what it leaves.
Preconditions of these methods are what the schema guarantees (primary keys), what the preceding SELECT
selected, the point a call has reached, or what the caller has already checked
(`calendar.py:43-45` for a meeting that ends after it starts). Algorithms that loop over rows, bytes or intervals are methods with loops, proved against recursive or
set-theoretic definitions.

| files | content |
|---|---|
| `base_sync*.dfy` | the Base mirror protocol: model, invariant, theorems over runs, laws of the transactions, tables |
| `broker*.dfy` | dispatch, claim, grant, start, renewal, settlement, reclaim, recovery |
| `remote*.dfy` | the remote action queue, its laws, its consumer, paging of results |
| `reference_graph.dfy` | budgeted foreign-key closure |
| `json_scan.dfy`, `retention*.dfy` | JSON dependency scan and body retention |
| `availability.dfy` | free-slot search |
| `agent_session*.dfy`, `framing*.dfy` | agent connection: session state, newline framing, reply buffer |
| `board*.dfy` | approvals and the board lease |
| `options.dfy`, `traces.dfy` | the optional value; sequences of transactions |

Three properties are false of the code as one might first state them, and are settled exactly:

- A search that answers with an empty record id makes the Base protocol create twice, because
  `base_sync_protocol.py:206` tests truthiness where line 210 tests for `None`.
  `BaseSyncTheorems.EmptyIdCreatesTwice` is the run; `BaseSyncTheorems.OneCreateIffSearchesNonEmpty` says
  that nothing else breaks the rule.
- A remote command can be sent for an attempt that is over, because the heartbeat of
  `broker_remote_runner.py:125` commits before line 126 sends. `BrokerRace.DeadAtTheSend` is the run;
  `BrokerTheorems.DeadAtTheSendIff` says exactly when: if that job was moved from outside (an operator stop,
  the Case lifecycle) after the check, and nothing else. `BrokerTheorems.CommandsRunUnderTheHeldLaunch` says
  what still holds at every send.
- Read boundaries can decide whether a connection fails, because replies wait in a bounded buffer that only
  writes between reads can empty (`coding_acp.py:138-142`). `FramingReplies.BoundariesCanMatter` is the run;
  `FramingReplies.BoundariesMatterIff` says exactly for which streams they do not matter.

`dafny verify dfyconfig.toml` checks the whole project.

## Model

| member | source | states |
|---|---|---|
| BaseSyncInvariants.StepKeeps | src/k3_support/base_sync_protocol.py:68-248 | every transaction of every worker, the job queue and the outside world keeps the protocol invariant: one active row per remote key, rows consistent with the histories of dispatched writes and published mappings, one record id per key |
| BaseSyncInvariants.RunKeeps | src/k3_support/base_sync_protocol.py:68-248 | the invariant holds after every interleaving from empty tables |
| BaseSyncTheorems.OneActivePerKey | src/k3_support/base_sync_protocol.py:82-99 | in every reachable state at most one operation of a remote key is reserved, prepared, dispatched or unknown |
| BaseSyncTheorems.DispatchedLeavesThroughItsWorker | src/k3_support/base_sync_protocol.py:217-224 | a dispatched operation changes only in the finish or the exception handler of its own call: to settled or to unknown |
| BaseSyncTheorems.UnknownBlocksItsKey | src/k3_support/base_sync_protocol.py:82-93 | after an unknown outcome the row never changes and nothing is ever dispatched to its key again, in any continuation of the run |
| BaseSyncTheorems.LaterWriteFollowsSettlement | src/k3_support/base_sync_protocol.py:103-143 | of two writes dispatched to one key the earlier is settled, and the later addresses the record the earlier settled with |
| BaseSyncTheorems.OneRecordPerKey | src/k3_support/base_sync_protocol.py:113-126 | all settled operations of a key, and the mapping whenever it points at that key, carry the same record id, however late stale workers finish and wherever the destination moves in between |
| BaseSyncTheorems.OneCreateWhenSearchesAreNonEmpty | src/k3_support/base_sync_protocol.py:197-216 | when no search answers with an empty id, at most one create request is dispatched per key in any run |
| BaseSyncTheorems.EmptyIdCreatesTwice | src/k3_support/base_sync_protocol.py:206-210 | a concrete run in which a search answers with the empty id and two creates are dispatched to one key |
| BaseSyncTheorems.OneCreateIffSearchesNonEmpty | src/k3_support/base_sync_protocol.py:206-210 | for every set of ids a search may answer with: at most one create per key holds of all runs if and only if the empty string is not among them |
| BaseSyncTheorems.DispatchedVersionsNeverDecrease | src/k3_support/base_sync_protocol.py:130-143 | if entity versions never decrease, the versions dispatched to one key never decrease |
| BaseSyncTheorems.DispatchedBodyIsCurrent | src/k3_support/base_sync_protocol.py:138-143 | the body appended to the history of writes is the entity's snapshot in the very step that dispatches it |
| BaseSyncTheorems.MappingVersionNeverDecreases | src/k3_support/base_sync_protocol.py:157-163 | the version published in the mapping of one key never goes backwards, even when the mapping pointed elsewhere in between |
| BaseSyncTheorems.SuccessPublishesItsInput | src/k3_support/base_sync_protocol.py:109-112 | a job becomes succeeded only in the step that settles its own operation and publishes a mapping whose digest is the one its input digest was computed from |
| BaseSyncTheorems.StaleFinishPublishesNothing | src/k3_support/base_sync_protocol.py:146-184 | a finish by an attempt that lost its lease settles its operation and leaves every job row and every mapping unchanged |
| BaseSyncStore.Database.Reserve | src/k3_support/base_sync_protocol.py:68-100 | the outcome and the whole new state of a reservation; when it inserts a row and which rows it may cancel is BaseSyncLaws.ReservesIff and BaseSyncLaws.HeldRowIsKept |
| BaseSyncStore.Database.Prepare | src/k3_support/base_sync_protocol.py:103-127 | the outcome and the whole new state: snapshot, known record from the mapping or the last settled row, unchanged flag |
| BaseSyncStore.Database.Dispatch | src/k3_support/base_sync_protocol.py:130-143 | the outcome and the whole new state; any failed recheck leaves the row as it was |
| BaseSyncStore.Database.Finish | src/k3_support/base_sync_protocol.py:146-184 | the outcome and the whole new state: job, attempt, mapping and operation change together or, for a stale attempt, only the operation |
| BaseSyncStore.Database.HandleException | src/k3_support/base_sync_protocol.py:217-224 | dispatched becomes unknown, reserved or prepared becomes cancelled, nothing else changes |
| BaseSyncStore.Database.ResumeUnblocked | src/k3_support/base_sync_protocol.py:227-248 | the loop over waiters computes the fold of the single-row step |
| BaseSyncStore.ResumeAllOnlyRequeues | src/k3_support/base_sync_protocol.py:227-248 | recovery requeues only waiting, busy jobs whose key is free and touches no operation, mapping or history |
| BaseSyncStore.Database.OpenAttempt | src/k3_support/base_sync.py:538-550 | opens the attempt row exactly for a current attempt |
| BaseSyncStore.Database.IsUncertain | src/k3_support/base_sync.py:565-567 | true exactly when an operation of this attempt is dispatched or unknown |
| BaseSyncStore.Database.FailJob | src/k3_support/base_sync.py:555-585 | a superseded attempt changes nothing; an attempt with an uncertain write always waits and is never retried |
| BaseSyncStore.Database.EnqueueOne | src/k3_support/base_sync.py:465-519 | one entity: afterwards it is mirrored as it is or has a job for its present content, no other job's input changed, and it counts as queued exactly when something changed |
| BaseSyncStore.Database.EnqueueDirty | src/k3_support/base_sync.py:450-527 | after the opening recovery of waiters, one transaction per entity in order, the number reported is how many changed anything, and unless it stops at the limit every entity ends up mirrored as it is or with a job for its present content |
| BaseSyncStore.Database.EnqueueAll | src/k3_support/base_sync.py:463-521 | the scan takes the entities in order, one transaction each, and ends early exactly when an insertion reaches the limit |
| BaseSyncLaws.HeldRowIsKept | src/k3_support/base_sync_protocol.py:82-93 | over runs, a reserved or prepared row whose worker may still act (its attempt is current or, without one, its reservation lasts) is changed by no reservation and by no event but those of its own call |
| BaseSyncLaws.ReservesIff | src/k3_support/base_sync_protocol.py:68-100 | over runs, a reservation inserts a row if and only if it is enabled, its own attempt is current, the entity is not held and every active row of the key is reserved or prepared by a worker that may no longer act; it cancels those rows and changes nothing else |
| BaseSyncLaws.ReserveTells | src/k3_support/base_sync_protocol.py:68-93 | which refusal a caller gets, said in rows and clocks alone |
| BaseSyncLaws.TransactionsTell | src/k3_support/base_sync_protocol.py:103-143 | which refusal preparation and dispatch give, said in rows and clocks alone |
| BaseSyncLaws.PreparesIff | src/k3_support/base_sync_protocol.py:103-127 | over runs, a reserved call is prepared if and only if its worker may act, the entity exists and the job's input is that of its present content; the row then holds that snapshot and the one record known for the key |
| BaseSyncLaws.SearchesExactly | src/k3_support/base_sync_protocol.py:197-204 | a search is made only without a known record and yields the one found, none, or an error when there are several |
| BaseSyncLaws.DispatchesIff | src/k3_support/base_sync_protocol.py:130-143 | a located call writes if and only if all rechecks hold, and then exactly the row's snapshot to the row's key and the located record |
| BaseSyncLaws.AnswersExactly | src/k3_support/base_sync_protocol.py:209-216 | an update is answered by its own record, a create by exactly one id that is not empty |
| BaseSyncLaws.FinishesIff | src/k3_support/base_sync_protocol.py:146-184 | over runs, a finish settles if and only if its row is still in the expected state and a current job's attempt row is open; row, mapping, publication, job and attempt afterwards are spelled out, for publishing and for stale workers |
| BaseSyncLaws.HandlesExactly | src/k3_support/base_sync_protocol.py:217-224 | after an exception a dispatched row is unknown, an open one cancelled, and any other as it was |
| BaseSyncLaws.OpensIff | src/k3_support/base_sync.py:538-550 | the attempt row is added once and only while the attempt is current |
| BaseSyncLaws.FailsExactly | src/k3_support/base_sync.py:555-585 | how a job fails, by error kind, possible remote write and remaining attempts: unchanged, waiting, cancelled, queued or failed, with its lease given up and its attempt row closed |
| BaseSyncLaws.ResumesIff | src/k3_support/base_sync_protocol.py:227-248 | a waiter is queued again if and only if it waits for a busy key, has attempts left, is not held and no row of its key is active |
| BaseSyncLaws.EnqueuesExactly | src/k3_support/base_sync.py:465-519 | a dirty entity gets a new job if and only if none has its present content for input; a spent one is queued again while attempts remain |
| BaseSyncStore.TraceIsRun | src/k3_support/base_sync_protocol.py:68-248 | states reached by sequences of these transactions are states of runs, so the run theorems apply to the stored tables |
| RemoteQueue.RunKeeps | src/k3_support/broker_remote_runner.py:85-161 | result rows, runner phases, the history of executed commands and cleanup records stay consistent in every interleaving with crashes |
| RemoteQueue.ExecutedAtMostOnce | src/k3_support/broker_remote_runner.py:85-161 | each accepted request is handed to the transport at most once in any run, and only accepted requests are |
| RemoteQueue.OneUnsettled | src/k3_support/broker_remote_runner.py:85-104 | at most one remote action is unsettled globally in every reachable state |
| RemoteQueue.UnsettledExactly | src/k3_support/broker_remote_state.py:7-17 | in reachable states the SQL predicate holds exactly for actions that are running, or unknown without a cleanup record, and every cleanup record matches its action |
| RemoteQueue.CancelledNeverRan | src/k3_support/broker_remote_runner.py:112-126 | an action that is cancelled was never handed to the transport |
| RemoteQueue.UncertaintyBlocksExecution | src/k3_support/broker_remote_runner.py:85-91 | while some outcome is unknown and not cleaned up, no step executes a command |
| RemoteQueue.ActionStep | src/k3_support/broker_remote_runner.py:85-161 | identity, plan and digest of an accepted action are fixed, terminal rows never change, and nothing is queued again |
| RemoteQueue.SubmissionReplay | src/k3_support/broker_remote.py:63-69 | however much later, a repeated submission has no effect and is answered from the stored action when its content is the same, and rejected when it differs |
| RemoteStore.Consumer.FindBusy | src/k3_support/broker_remote.py:70-73 | true exactly when some action of the grant, or of any, is unsettled, or queued where that counts |
| RemoteStore.Consumer.OldestQueued | src/k3_support/broker_remote_runner.py:92-96 | a queued action with the least creation time, or none only when nothing is queued |
| RemoteStore.Consumer.Submit | src/k3_support/broker_remote.py:53-73 | the answer and the whole new state of a submission, replay and refusal included |
| RemoteStore.Consumer.Begin | src/k3_support/broker_remote_runner.py:85-104 | starts the oldest queued action only when nothing is unsettled, and cancels it when its task is no longer live |
| RemoteStore.Consumer.Execute | src/k3_support/broker_remote_runner.py:112-156 | the body of the try block, cut at its transactions into check, send and record: what is executed and recorded, and the local state it leaves for the finalizer |
| RemoteStore.Consumer.SendAndRecord | src/k3_support/broker_remote_runner.py:126-156 | from the send on, exactly one command is executed and its result is recorded, or the outcome is unknown |
| RemoteStore.Consumer.Finish | src/k3_support/broker_remote_runner.py:157-161 | the finalizer rewrites running and cancelled rows only |
| RemoteStore.Consumer.RunOne | src/k3_support/broker_remote_runner.py:85-162 | one pass runs the oldest queued action only when nothing is unsettled, as exactly the sequence of transactions that the world's answers call for, sends at most one command, changes no other action and never leaves its action running |
| RemoteStore.Consumer.BeginObservation | src/k3_support/broker_remote_observation.py:29-38 | records the intent with the snapshot it was formed under |
| RemoteStore.Consumer.EndObservation | src/k3_support/broker_remote_observation.py:45-57 | observed exactly when the probe answered and the snapshot is unchanged |
| RemoteStore.Consumer.ApplyCleanup | src/k3_support/broker_remote_cleanup.py:72-97 | a cleanup record is added exactly when the observation, snapshot, service exit and exit codes agree |
| RemoteLaws.SubmitsIff | src/k3_support/broker_remote.py:53-73 | over runs, an action is queued if and only if it is admitted, new and its grant has nothing queued or unresolved; the row holds exactly the submitted grant, digest and plan, and the answer says which |
| RemoteLaws.ContentIsFixed | src/k3_support/broker_remote.py:53-73 | in every continuation an accepted action holds the same grant, digest, plan and creation time |
| RemoteLaws.StartsIff | src/k3_support/broker_remote_runner.py:85-104 | over runs, an action is started if and only if nothing is unresolved, it is the oldest queued one and its task is live; the oldest one of a dead task is cancelled |
| RemoteLaws.RunSteps | src/k3_support/broker_remote_runner.py:106-128 | the steps of a run in order: preflight, check, one send after the check, and what a fault leaves |
| RemoteLaws.RecordsIff | src/k3_support/broker_remote_runner.py:137-156 | over runs, a result is stored if and only if the command was sent, the task is live and the answer well formed; the action then has that code and the state it means, and otherwise the outcome is unknown |
| RemoteLaws.ClosesExactly | src/k3_support/broker_remote_runner.py:157-161 | over runs, the end of a run moves exactly an action that is still running, to the state the run ended with |
| RemoteLaws.CancelsExactly | src/k3_support/broker_resources.py:92-98 | an observed exit cancels exactly the queued actions of its grant |
| RemoteLaws.ObservesExactly | src/k3_support/broker_remote_observation.py:29-57 | a probe is recorded with the action as it was and counts if and only if it answered and nothing changed |
| RemoteLaws.CleansIff | src/k3_support/broker_remote_cleanup.py:72-97 | a cleanup is recorded if and only if the outcome is unknown, confirmed, observed unchanged and the codes agree, and what it records |
| RemoteRead.ReadsExactly | src/k3_support/broker_remote.py:37-50 | an offset behind both streams is refused; any other yields the at most 4096 characters of each from there on, and a next offset exactly when a stream goes on |
| RemoteRead.PagesSpellTheOutput | src/k3_support/broker_remote.py:37-50 | following next_offset from any admitted offset yields exactly the rest of both streams |
| RemoteRead.WholeOutput | src/k3_support/broker_remote.py:37-50 | from offset zero the pages spell stdout and stderr exactly |
| BrokerInvariants.StepKeeps | src/k3_support/broker_dispatch.py:33-143 | every transaction of dispatch, claim, start, renewal, budget block, observation, settlement, reclaim, recovery and the remote queue keeps the broker invariant |
| BrokerInvariants.RunKeeps | src/k3_support/broker_dispatch.py:33-143 | the invariant holds after every interleaving from empty tables, with clocks that need not agree or advance |
| BrokerTheorems.OneUnfinishedLaunch | src/k3_support/broker_dispatch.py:38-60 | at most one launch is unfinished in every reachable state |
| BrokerTheorems.StartedUnsettledHoldsItsLaunch | src/k3_support/broker_dispatch.py:76-100 | a started grant without settled resources still has its launch unfinished and is the latest attempt of its job |
| BrokerTheorems.OneUnsettledExecution | src/k3_support/broker_catalog.py:91-108 | so at most one authorized execution is unsettled |
| BrokerTheorems.OneLiveGrant | src/k3_support/broker_recovery.py:50-62 | at most one unsettled grant is live at all, started or not |
| BrokerTheorems.GrantsOverRuns | src/k3_support/broker_grants.py:46-48 | over any continuation of a run a grant keeps its token and claim time, a dead attempt stays dead and settled resources stay settled |
| BrokerTheorems.Fencing | src/k3_support/broker_grants.py:52-79 | once an attempt is over, no start, renewal, budget block, report, remote or board submission or claim bearing its token changes any state, however late it arrives and whatever job it names |
| BrokerTheorems.SettlementIsFinal | src/k3_support/broker_resources.py:83-111 | settled resources stay settled; in every later state no remote action of the grant is queued, running or unsettled, and no request bearing its token has any effect, except that a report may still be stored while the job runs and then moves nothing else |
| BrokerTheorems.SettledRefuses | src/k3_support/broker_budget.py:45-60 | under a settled grant every start, renewal and submission is refused |
| BrokerTheorems.ActionsAreStarted | src/k3_support/broker_remote.py:61-62 | in every run each remote action belongs to a grant whose start was authorized |
| BrokerTheorems.CommandsRunUnderTheHeldLaunch | src/k3_support/broker_remote_runner.py:125-128 | whatever happened since the last check, a command is handed to the transport only while its action is running and its grant is started, unsettled, the latest attempt of its job and holder of the one unfinished launch |
| BrokerTheorems.EverySendWasChecked | src/k3_support/broker_remote_runner.py:106-126 | before every send, a check of the same action in its own transaction found the attempt current, started, unexpired and without observed exit |
| BrokerTheorems.DeadAtTheSendIff | src/k3_support/broker_remote_runner.py:125-126 | at every send the attempt is over if and only if, after the check that preceded the send, that very job was moved out of running from outside: while the action waits to be sent no claim, renewal, budget block, reclaim, recovery, parking or settlement can end the attempt |
| BrokerRace.DeadAtTheSend | src/k3_support/broker_remote_runner.py:125-126 | a run in which a stop and the worker's observed exit commit between that check and the send, so the command goes out for an attempt that is over |
| BrokerTheorems.RemoteCommandsRunOnce | src/k3_support/broker_remote_runner.py:85-104 | in the combined system each remote request is executed at most once and at most one is unsettled |
| BrokerTheorems.LifetimeBound | src/k3_support/broker_renew.py:19-38 | while its attempt is current a grant expires no later than the job lease, neither passes claim time + 120 s + 7200 s, and before the start the lease is exactly claim time + 120 s |
| BrokerTheorems.ClaimAuthorizesExactly | src/k3_support/broker_claim.py:23-33 | a first claim authorizes its task at exactly the instants of the next 120 seconds |
| BrokerTheorems.RenewalAuthorizesExactly | src/k3_support/broker_renew.py:17-38 | after a renewal that takes effect the task is authorized up to exactly the smaller of 120 seconds from now and 7200 seconds from its start; before the start the end of the claim does not move |
| BrokerTheorems.AuthorityEnds | src/k3_support/broker_grants.py:96-105 | in no continuation of the run does a token of the attempt verify outside claim time to claim time + 7320 s |
| BrokerTheorems.RenewalOnce | src/k3_support/broker_receipts.py:19-41 | the handlers of renewals and reports take effect at most once per request |
| BrokerTheorems.RenewalReplay | src/k3_support/broker_receipts.py:22-28 | an answered renewal is answered the same for ever: a repeat has no effect, returns the first response exactly while still authorized with the same content and grant, and is rejected otherwise |
| BrokerTheorems.ClaimReplay | src/k3_support/broker_claim_receipts.py:47-60 | an assigned claim is bound for ever: a repeat has no effect and returns the same task and token exactly while the claim is open and the task bound; changed content or key is rejected |
| BrokerTheorems.EmptyClaimReplay | src/k3_support/broker_claim_receipts.py:52-54 | a claim that found no task is bound to that: in every continuation a repeat has no effect, never assigns anything and is answered the same exactly while the claim is open and unchanged |
| BrokerTheorems.ReportReplay | src/k3_support/broker_receipts.py:22-28 | an accepted report is accepted for ever under its request: in every continuation a repeat has no effect and is accepted exactly under a valid token with the same content and grant |
| BrokerTheorems.ClaimRepeats | src/k3_support/broker_claim_receipts.py:47-67 | repeating a claim at once returns what it returned |
| BrokerStore.Control.NextCandidate | src/k3_support/broker_queue.py:41-55 | parks exactly the invalid jobs before the first valid one and returns that one; valid and running jobs are untouched |
| BrokerStore.Control.DispatchOne | src/k3_support/broker_dispatch.py:33-60 | occupied exactly when a launch is unfinished or a running job is unsettled; otherwise binds the first valid job of the window to a new launch, or is idle only when none is valid |
| BrokerStore.Control.AnswerLaunch | src/k3_support/broker_dispatch.py:63-73 | records the answer on a launching row only |
| BrokerStore.Control.CheckClaim | src/k3_support/broker_catalog.py:91-108 | passes exactly for the one unfinished launch |
| BrokerStore.Control.Claim | src/k3_support/broker_claim_receipts.py:35-67 | the answer and the whole new state of a claim, replay, parking and every refusal included |
| BrokerStore.Control.Authorize | src/k3_support/broker_start.py:29-64 | start row and captured resources commit together, exactly when the start is allowed |
| BrokerStore.Control.Renew | src/k3_support/broker_renew.py:17-49 | the answer and the whole new state of a renewal, with its lease arithmetic |
| BrokerStore.Control.Report | src/k3_support/broker_results.py:10-39 | the answer and the whole new state of a report: one per attempt, a repeat answered under a valid grant, nothing else moved |
| BrokerStore.Control.BlockUnstarted | src/k3_support/broker_budget.py:7-23 | parks exactly the still-current, unstarted task |
| BrokerStore.Control.Recover | src/k3_support/broker_recovery.py:12-62 | requeues exactly a recoverable job and releases only the launch of an unstarted budget denial |
| BrokerStore.Control.InspectSettlement | src/k3_support/broker_resources.py:92-143 | settled exactly when the exit is bound, no remote action of the grant is unsettled after cancelling queued ones, and the board agrees |
| BrokerStore.Control.FinishOne | src/k3_support/broker_dispatch.py:85-96 | one candidate: resources and launch finish together or the launch stays |
| BrokerStore.Control.Reconcile | src/k3_support/broker_completion.py:24-86 | resource settlement first, job outcome only for the still-current attempt; launches untouched |
| BrokerStore.Control.FinishObserved | src/k3_support/broker_dispatch.py:76-100 | each candidate is finished and, exactly when it was, reconciled, in order; the reported number is how many launches were finished |
| BrokerStore.Control.ReclaimOne | src/k3_support/broker_dispatch.py:125-141 | takes effect exactly when the launch is unfinished, its job is running, its lease lies strictly before now and its attempt was not started |
| BrokerStore.Control.ReclaimUnstarted | src/k3_support/broker_dispatch.py:103-143 | one reclaim per row, in order; the reported number is exactly how many launches were finished; grants, starts and the remote queue are untouched |
| BrokerLaws.DispatchesIff | src/k3_support/broker_dispatch.py:33-60 | a launch is created if and only if dispatch is allowed, no launch is open, every running job has settled resources and the job is queued, selectable and its Case open; it binds that job, input and contract |
| BrokerLaws.AnswersAndParks | src/k3_support/broker_dispatch.py:63-73 | the launcher's answer is recorded on a launching row only; an invalid queued job is parked without an attempt |
| BrokerLaws.ChecksIff | src/k3_support/broker_catalog.py:91-108 | a claim passes its check if and only if its launch is the one open launch |
| BrokerLaws.ClaimsExactly | src/k3_support/broker_claim_receipts.py:35-67 | a first claim is refused without effect, empty, parks the job, or gives the next attempt of the bound job under a grant leased for 120 seconds with the token of this request: which, and the whole new state |
| BrokerLaws.ReplayConditions | src/k3_support/broker_claim_receipts.py:47-60 | when replays of claims, renewals and reports are answered, said in rows and clocks alone |
| BrokerLaws.StartsIff | src/k3_support/broker_start.py:29-64 | a start is authorized if and only if the task is bound, input and budget agree and neither attempt, request nor receipt was used; start row and resources appear together |
| BrokerLaws.RenewsIff | src/k3_support/broker_renew.py:17-49 | a first renewal takes effect if and only if the task is bound, executing and within its lifetime; lease, expiry and stored answer are spelled out |
| BrokerLaws.BlocksIff | src/k3_support/broker_budget.py:7-23 | a budget denial parks exactly a bound task that was not started |
| BrokerLaws.ReportsIff | src/k3_support/broker_results.py:10-39 | a first report is stored if and only if the task is bound, the report valid and the attempt has no other |
| BrokerLaws.SubmitsIff | src/k3_support/broker_remote.py:53-73 | a submission is admitted if and only if the task is bound and executing and its plan good or built before, and names the caller's grant |
| BrokerLaws.RunnerDecides | src/k3_support/broker_remote_runner.py:85-156 | an action starts, passes its check and records its result as live exactly while its task is bound and executing |
| BrokerLaws.CleanupDecides | src/k3_support/broker_remote_cleanup.py:72-97 | a cleanup carries the observed exit of the action's own worker as evidence |
| BrokerLaws.SubmitsBoardIff | src/k3_support/broker_board.py:75-95 | a board operation is queued if and only if the task is bound and executing, the request new and the grant has no open one |
| BrokerLaws.ObservesExactly | src/k3_support/broker_execution_instances.py:28-51 | an instance is recorded once per started grant under its own receipt and an unused name, and its exit once |
| BrokerLaws.SettlesIff | src/k3_support/broker_resources.py:101-143 | over runs, resources are settled if and only if the exit is bound, no action of the grant is unresolved and the board agrees; queued actions of the grant are cancelled in any case |
| BrokerLaws.FinishesIff | src/k3_support/broker_dispatch.py:85-96 | over runs, a launch is finished if and only if the resources of its exited worker can be released, and both finish together |
| BrokerLaws.ReconcilesIff | src/k3_support/broker_completion.py:24-86 | over runs, the job of a grant ends in exactly the given outcome if and only if its resources can be released and it is still the running attempt of an open Case under its owner, input and round |
| BrokerLaws.ReclaimsIff | src/k3_support/broker_dispatch.py:125-141 | a reclaim changes the state if and only if the launch is unfinished, its job running, the lease strictly before now and the attempt not started; the job is then queued with the same attempt, input and round and the launch finished |
| BrokerLaws.FreshClaimIsNotReclaimed | src/k3_support/broker_dispatch.py:125-131 | over runs, no reclaim whose clock is at most the claim time plus 120 seconds ends the claimed attempt |
| BrokerLaws.RecoversIff | src/k3_support/broker_recovery.py:12-62 | a parked job is queued again if and only if it is valid again, its Case is open and a denied attempt was never started; only the launch of a budget denial is given up |
| BrokerStore.TraceIsRun | src/k3_support/broker_dispatch.py:33-143 | states reached by sequences of these transactions are states of runs, so the run theorems apply to the stored tables |
| ReferenceGraph.Descendants | src/k3_support/case_reference_graph.py:9-107 | terminates on every graph; reports truncation if and only if more rows are reachable from the Case row than the budget, and then found exactly the budget; otherwise found exactly the reachable rows; invalid and missing Cases are refused exactly |
| ReferenceGraph.Search | src/k3_support/case_reference_graph.py:61-99 | the breadth-first loop computes the reachable set or stops truncated, in whatever order rows arrive |
| ReferenceGraph.Round | src/k3_support/case_reference_graph.py:64-99 | one round follows every reference out of the frontier, or truncates |
| ReferenceGraph.ScanFrontier | src/k3_support/case_reference_graph.py:66-98 | all tables of the frontier |
| ReferenceGraph.ScanKeys | src/k3_support/case_reference_graph.py:67-96 | all declared keys that name one parent table |
| ReferenceGraph.ScanBatches | src/k3_support/case_reference_graph.py:72-94 | all batches of parent identities, whatever the batch size |
| ReferenceGraph.ScanCursor | src/k3_support/case_reference_graph.py:81-92 | all rows of one query: each is known afterwards, or the budget is exhausted and a reachable row is missing |
| ReferenceGraph.ClosedIsClosure | src/k3_support/case_reference_graph.py:64-99 | a set of reachable rows that holds the root and is closed under references is the reachable set |
| JsonScan.DecodeKeepsStrings | src/k3_support/body_retention.py:48-51 | decoding objects to lists of pairs keeps every string value and every object key, duplicates included |
| JsonScan.Walk | src/k3_support/body_retention.py:54-68 | the explicit stack finishes exactly when the document fits the node budget in time and then reports exactly the events whose strings it holds at any depth |
| JsonScan.Collect | src/k3_support/body_retention.py:25-28 | maps exactly each event key and external id to the events they stand for |
| JsonScan.ScanRecord | src/k3_support/body_retention.py:37-69 | one record: affordable exactly as the budgets say; matches are the events it mentions, its owner excepted |
| JsonScan.CountRecord | src/k3_support/body_retention.py:70-71 | counts stay exact with each record |
| JsonScan.ScanColumn | src/k3_support/body_retention.py:31-71 | one column: exact counts for every event and the exact number of unreadable records |
| JsonScan.Append | src/k3_support/body_retention.py:72-73 | one dependency entry per event that is mentioned, with the exact count |
| JsonScan.Scan | src/k3_support/body_retention.py:16-76 | completes exactly when the whole input is within budget; then every event has, column by column, exactly the number of rows of others that mention its key or external id, and every column with unreadable records has its issue; otherwise the last issue says the scan is incomplete and the report is exact for the columns before the one it was cut short in |
| JsonScan.NoProblemsMeansReadable | src/k3_support/body_retention.py:74-75 | no issue is reported if and only if every record is readable |
| Retention.DependenciesAreExact | src/k3_support/body_retention.py:112-130 | the dependency list of an event is empty if and only if no foreign key, source registry row or foreign JSON value refers to it |
| Retention.SortOrders | src/k3_support/body_retention.py:131-131 | the listed dependencies are ordered by table and column and a permutation of what was found |
| Retention.UnblockedMeansErasable | src/k3_support/body_retention.py:134-146 | an item has no blocker if and only if its event is terminal, unleased, without artifact, unreferenced, scanned completely and never cleared |
| Retention.Page | src/k3_support/body_retention.py:101-104 | at most the limit, older than the cutoff, from the cursor on, each event once |
| Retention.PagesCoverEverything | src/k3_support/body_retention.py:101-104 | a page and the pages after its cursor are all eligible rows, in order and without overlap |
| Retention.Preview | src/k3_support/body_retention.py:79-165 | clean exactly when the scan is complete and readable, and then one exact item for every row of the page |
| Retention.Store.Validate | src/k3_support/body_retention.py:189-196 | passes exactly when every selected event is on the page, unchanged since its preview and erasable |
| Retention.Store.ApplySelection | src/k3_support/body_retention.py:197-203 | afterwards every selected row holds the empty object and no error and keeps its other columns, every other row is unchanged, and exactly the selected events have new receipts |
| Retention.Store.ClearPage | src/k3_support/body_retention.py:167-203 | all or nothing: applied exactly when every selected event is erasable in the same transaction; every selected row then holds the empty object, two characters long, and no error, keeps its other columns and has one receipt of what it held, and every other row is unchanged |
| Retention.NeverClearedTwice | src/k3_support/body_retention.py:134-136 | over every run no event is cleared twice, whatever else happens to its row |
| Retention.ClearedOnlyWhenErasable | src/k3_support/body_retention.py:181-203 | over every run an event is cleared only in a step that finds it inactive, unreferenced and without receipt, and that leaves its row emptied |
| Retention.ClearingEmpties | src/k3_support/body_retention.py:197-203 | a request that applies leaves the selected rows emptied, column by column, and their receipts written |
| RetentionLaws.ClearsIff | src/k3_support/body_retention.py:167-203 | over every run and in both directions: an event is counted as cleared in exactly those steps whose request selects it and may be applied, its row is then emptied and receipted, and a request that may not be applied changes nothing |
| RetentionLaws.AppliesIff | src/k3_support/body_retention.py:175-196 | a request is applied if and only if its fields are in range, its guard permits it, every document is read within budget and parses, and every selected row is on the page, as previewed, finished, without lease, artifact or receipt, and referred to by nothing |
| RetentionLaws.PageIs | src/k3_support/body_retention.py:101-104 | a row is on the page if and only if it is older than the cutoff and fewer than the limit such rows stand between the cursor and it |
| RetentionLaws.DependenciesAreThese | src/k3_support/body_retention.py:108-131 | a dependency is listed if and only if that table and column hold exactly that many references to the event |
| RetentionLaws.PreviewTells | src/k3_support/body_retention.py:132-158 | what an item says: its key, the snapshot a request must repeat, and each blocker exactly when it applies |
| Retention.ReceiptsArePermanent | src/k3_support/body_retention.py:198-202 | receipts are never changed or removed |
| Retention.ErasingCreatesNoReference | src/k3_support/body_retention.py:203-203 | erasing bodies makes no unreferenced event referenced |
| Availability.Clip | src/k3_support/calendar_availability.py:88-99 | fails exactly on a malformed reply; otherwise yields each interval that meets the covered range, cut to it, in order, and these meet a slot of the range exactly when the reported ones do |
| Availability.Absorb | src/k3_support/calendar_availability.py:128-134 | one interval joins the merged list: slots met are exactly those met before or by it |
| Availability.Merge | src/k3_support/calendar_availability.py:126-134 | merged intervals are proper, separated and inside the window, and meet exactly the slots the busy intervals meet |
| Availability.FindSlots | src/k3_support/calendar_availability.py:135-148 | at most three slots, free, of the meeting's length, ordered, disjoint, earliest first; every free start lies in a suggested gap or after the third slot |
| Availability.Overlapping | src/k3_support/calendar_availability.py:112-117 | one conflict for each interval of the calendar that meets the meeting, in order, and no other |
| Availability.Gather | src/k3_support/calendar_availability.py:58-117 | checked and unknown calendars exactly as asked and answered; the conflicts of the checked calendars one after the other; collected busy time meets exactly the slots some checked calendar reported |
| Availability.CaveatsAre | src/k3_support/calendar_availability.py:50-57 | what counts as unknown before any calendar is asked: a missing owner identity, then a recurrence |
| Availability.Query | src/k3_support/calendar_availability.py:28-149 | the conflicts are, calendar by calendar and interval by interval, exactly the reported intervals of the checked calendars that meet the meeting, each with its target and cut to the covered range, none missing, foreign or repeated; conflict exactly when a checked calendar is busy during the meeting; available exactly when nothing is unknown, something was checked and nothing conflicts; alternatives only when every calendar was read, and then sound for the reported intervals themselves, ordered, disjoint, complete and starting with the earliest possible start |
| AgentSession.UpdatesBelongToTheSession | src/k3_support/coding_acp.py:176-207 | in every run at most 32 updates wait for a session and every update handed on names the established session |
| AgentSession.IdentityIsFinal | src/k3_support/coding_acp.py:277-284 | a session identity, once set, never changes |
| AgentSession.EstablishReplaysTheBatch | src/k3_support/coding_acp.py:284-289 | the waiting updates are accepted in order exactly when all of them name the new session; otherwise the batch stays |
| AgentSessionLaws.ReceivesExactly | src/k3_support/coding_acp.py:149-207 | which frames are refused, and the whole new session for every other |
| AgentSessionLaws.BeginsIff | src/k3_support/coding_acp.py:250-258 | a request begins, under the next number and unanswered, if and only if none is outstanding and it asks for no second session |
| AgentSessionLaws.AnsweredIff | src/k3_support/coding_acp.py:190-197 | in every run the outstanding request counts as answered if and only if a response to its number, with a result, an object, and no error, was read while it was outstanding and unanswered |
| AgentSessionLaws.AnsweredOnce | src/k3_support/coding_acp.py:190-197 | in no run is a request answered twice |
| AgentSessionLaws.EstablishStops | src/k3_support/coding_acp.py:284-289 | over runs, the early batch is handed on in order up to the first update that names another session, and dropped exactly when there is none |
| Framing.SplitSpellsTheStream | src/k3_support/coding_acp.py:240-246 | the lines and the tail spell the stream |
| Framing.LinesHoldNoNewline | src/k3_support/coding_acp.py:240-246 | neither lines nor tail hold a newline |
| Framing.DrainInParts | src/k3_support/coding_acp.py:239-248 | handing on frames early and reading more, with no write in between, is reading once |
| Framing.BoundariesWithoutWrites | src/k3_support/coding_acp.py:228-248 | any reads within the output limit without writes in between, diagnostics interleaved, end like one read of the whole output: same frames, session, failure, buffer and pending replies |
| FramingReplies.BoundariesCanMatter | src/k3_support/coding_acp.py:138-142 | a run: six copies of one short request, each answered with 87 bytes, exceed the reply room of 512 in one read, and do not when the replies of the first three are written in between |
| FramingReplies.BoundariesMatterIff | src/k3_support/coding_acp.py:138-248 | for any connection between reads and any output within the limit: all ways of reading it, in reads of at most 16384 bytes with writes anywhere, end alike if and only if every frame refused for want of reply room carries a reply that could not fit an empty buffer either |
| FramingReplies.SteadyTurns | src/k3_support/coding_acp.py:209-248 | the one direction, with the reply buffer never fuller than without writes |
| FramingReplies.UnsteadyTurns | src/k3_support/coding_acp.py:209-248 | the other: for any stream that is not such, reads of at most 16384 bytes and writes that end differently |
| Framing.DrainIsTheSplit | src/k3_support/coding_acp.py:240-248 | a read fails exactly when a line or the tail reaches the frame limit, or a frame is refused by the session or for want of reply room; otherwise it hands on exactly the lines and keeps the tail |
| Framing.DrainHandsOnAPrefix | src/k3_support/coding_acp.py:240-248 | failing or not, it has handed on a prefix of the lines that ends at the end, at the first line that reaches the limit, or right after a refused frame |
| FramingReplies.DeliveryIsTheSplit | src/k3_support/coding_acp.py:228-248 | both facts about the newline split of the whole output, for reads without writes and for all reads and writes of a stream where boundaries do not matter |
| Framing.PrefixInEveryCase | src/k3_support/coding_acp.py:209-248 | whatever is read, written, limited or closed, the frames handed on are a prefix of the newline split of the output, and all of it while the connection works |
| Framing.BuffersAreBounded | src/k3_support/coding_acp.py:138-142 | through any reads and writes the reply buffer stays within the frame limit, and while the connection works the input buffer is below it and the total within the output limit |
| Framing.TurnTells | src/k3_support/coding_acp.py:216-238 | what a turn that hands nothing on does: bytes written, ends of streams, a broken pipe, the output limit and dropped diagnostics |
| Framing.TakesIff | src/k3_support/coding_acp.py:138-175 | a frame is taken if and only if the session accepts it and its reply fits the buffer |
| FramingStore.Connection.Pump | src/k3_support/coding_acp.py:216-248 | one ready stream computes the model's turn, writes included |
| FramingStore.Connection.Receives | src/k3_support/coding_acp.py:149-175 | one frame is taken with room for its reply, or refused for exactly one reason |
| FramingStore.Connection.HandOn | src/k3_support/coding_acp.py:240-248 | the loop over complete frames computes the recursive definition |
| FramingStore.Connection.NewSession | src/k3_support/coding_acp.py:277-289 | the loop over waiting updates computes the recursive definition |
| BoardLease.OwnerNamesSession | src/k3_support/approvals.py:257-257 | Case and rendered owner together identify the session, whatever characters they contain |
| BoardLease.LeaseIsBounded | src/k3_support/approvals.py:249-253 | in every run a valid lease was approved, ends at most 240 minutes after its decision and together with its lock |
| BoardLease.LockIsNeverTakenOver | src/k3_support/approvals.py:254-289 | in every continuation of a run a lock, expired or not, is still held by the same session and Case, or a cleanup of that very session took effect: it consumed the lease and removed the lock |
| BoardLease.HandoverNeedsCleanup | src/k3_support/approvals.py:330-355 | if one session holds a valid lease and, in the same or any later state, another does, a cleanup of the first took effect in between; so in one state at most one session holds a valid lease |
| BoardLease.DecisionIsFinal | src/k3_support/approvals.py:210-239 | in every continuation of a run a decided row keeps its decision and is never pending or of the opposite status |
| BoardLease.RepeatedDecisionHasNoEffect | src/k3_support/approvals.py:218-237 | deciding a decided, unexpired row changes nothing, whether acknowledged or refused |
| BoardLease.EffectsHappenOnce | src/k3_support/approvals.py:372-384 | each row is decided at most once and each push approval consumed at most once |
| BoardLease.OneActivePerAction | src/k3_support/approvals.py:72-105 | at most one request for the same action of a Case is pending or approved |
| BoardLease.StepKeeps | src/k3_support/approvals.py:59-384 | requests, decisions, consumption, cleanup, revocation, lock expiry and sweeps keep the invariant |
| BoardLease.Store.RequestApproval | src/k3_support/approvals.py:59-106 | the whole new state, and the returned row is the active one for exactly this action |
| BoardLease.Store.DecideApproval | src/k3_support/approvals.py:172-327 | the answer and the whole new state of a decision; that it does what the operator decided is BoardLaws.DecidesExactly and BoardLaws.StatusIsTheVerdict |
| BoardLease.Store.ConsumePushApproval | src/k3_support/approvals.py:372-384 | consumes exactly a valid, unconsumed push approval |
| BoardLease.Store.ValidBoardLease | src/k3_support/approvals.py:330-355 | reports a lease only if it is valid, none only if there is none, and raises only on a row whose estimate is missing or outside 1 to 240 minutes |
| BoardLaws.DecidesExactly | src/k3_support/approvals.py:210-317 | what a decision does, by verdict and row: approves with the granted time and the lock, denies, expires, acknowledges a repeat or is refused, with the whole new state |
| BoardLaws.ApprovalSucceeds | src/k3_support/approvals.py:246-317 | an unexpired pending request with a trusted approval and a free or own lock becomes approved |
| BoardLaws.DenialTakesNothing | src/k3_support/approvals.py:246-317 | a denial never changes the lock and approves nothing |
| BoardLaws.EveryDecisionIsAVerdict | src/k3_support/approvals.py:284-317 | over every run, a recorded decision was made by a trusted verdict on exactly that action, at the recorded instant, and says what the verdict said |
| BoardLaws.StatusIsTheVerdict | src/k3_support/approvals.py:284-317 | over every run, a row is approved only after a trusted approval of its action and denied only after a trusted denial |
| BoardLaws.EveryLeaseWasApproved | src/k3_support/approvals.py:330-355 | over every run, whoever holds a valid lease was approved by a trusted verdict on exactly that action |
| BoardLaws.LeaseIs | src/k3_support/approvals.py:330-355 | a lease is valid if and only if its row is approved, unconsumed, unexpired and normalized for this Case and session, and the lock is the session's own and ends with it |
| BoardLaws.RequestsExactly | src/k3_support/approvals.py:72-105 | a request expires what is overdue and adds exactly one pending row unless the same action of the Case is pending or approved |
| BoardLaws.ConsumesIff | src/k3_support/approvals.py:372-384 | a push approval is used if and only if it is approved, unused, unexpired and for exactly this action, and is then used up |
| BoardLaws.EveryPushWasApproved | src/k3_support/approvals.py:372-384 | over every run, a consumed push was approved by a trusted verdict on exactly its action and unexpired when consumed |
| BoardLaws.CleansUpIff | src/k3_support/executors.py:1319-1335 | a cleanup takes effect if and only if the row is the session's one unclosed lease and the lock is its own; the lease is then used up and the lock gone |

## Left out

- BaseSyncTheorems.OneCreateWhenSearchesAreNonEmpty: is stated for searches that do not answer with an empty id, because the code breaks the rule for exactly that answer; BaseSyncTheorems.OneCreateIffSearchesNonEmpty gives both directions.
- BaseSyncStore.Database.EnqueueDirty: takes the waiters, entities, destinations and fresh job ids as arguments, picks any of several jobs of the same input, not the newest, and does not return the list of entities whose attempts are exhausted.
- BaseSyncStore.Database.ResumeUnblocked: takes the selected waiters as an argument; their order and the limit of 128 rows are not modelled.
- BrokerStore.Control.DispatchOne: takes the queue window of one contract as an argument; the order of the window and the choice among several contracts are not modelled.
- BrokerStore.Control.InspectSettlement: the board half of the settlement is one condition (`boardOk`), because it rests on device cleanup.
- BrokerStore.Control.Authorize: the validity of the immutable input and the budget charge are conditions of the step; the budget ledger itself, and the recheck after the instance was observed, which changes no row, are not modelled.
- RemoteStore.Consumer.OldestQueued: ties in creation time are broken arbitrarily, and actions that wait for a workspace preparation are not modelled.
- RemoteStore.Consumer.RunOne: baseline and source observations are one condition; the text of the output is left to RemoteRead.
- ReferenceGraph.Descendants: takes the usable tables and resolved foreign keys as given; reading them from the schema, and the lists of unsupported tables and unresolved keys, are not modelled.
- Retention.Store.ClearPage: does not state the byte totals it reports; the indexed dependency query and the bounded transaction's own time limit are not modelled.
- Availability.Query: takes the targets in the order they are asked and the two ends of the work window, which must be in order; time zones and the computation of the window are not modelled.
- FramingStore.Connection.Pump: takes the ready streams one at a time; deadlines and heartbeats are not modelled, and of the reply buffer only its length.
- BoardLease.Store.ValidBoardLease: examines the rows in any order and reports any valid one, not the one decided last.
- BoardLease.Store.DecideApproval: authentication, the binding digest and the meeting checks are one condition (`trusted`), and the meeting dispatch queue is not modelled.
- BrokerTheorems.Fencing: speaks of every request that writes; `stop_receipt` is a method name of the protocol without a handler in the repository, and a board operation is only queued here, because its consumer rests on device I/O.
- Board actions and board cleanup (`broker_board_runner.py`, `broker_board_cleanup.py`): they rest on device I/O.
- Liveness of the dispatcher: an unresolved launch stays occupied until it is reconciled, so only safety is stated.
- The historical-request hold of the Base protocol enters as a condition of a reservation; its inventory is not modelled.
- Capture of resources for executions that started before resources were recorded, and replay of recovery requests.
- Processes, sockets, peer credentials, files, SSH and sandboxes; parsing of JSON, identifiers and timestamps; contents of messages.
- Field projections, configuration, audit pages, agent adapters and command-line entry points: single-branch facts.
