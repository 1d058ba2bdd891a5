# Dispatch server: a model and its proofs

The server hands container jobs to remote agents. It runs on one asyncio event loop, so the code between two
suspensions executes as one atomic segment and everything else may happen in between: other submits and cancels,
agent messages in any order (duplicated, late, for unknown jobs), registrations that overwrite a connection,
heartbeat expiry, disconnects, two scanning watchers that work through stale copies of rows, and a restart of
the server. This project models those steps and proves what every interleaving of them keeps.

## How it is built

- **Values.** `Jobs` has the job record, `Store` the job table and the meaning of every `JobService` call as one
  function `Exec` on tables, `System` the whole server as a transition system: a `Label` is one step of a coroutine,
  `Enabled` says when it can run, `Apply` what it does, and a run is any sequence of enabled labels. Suspended
  coroutines are explicit, with the local variables they hold across an `await`: the picked job and connection of
  a send, the stale worklists of the watchers, the connection found before a cancel.
- **Theorems over runs.** `Lifecycle`, `Watchers`, `History` (record coherence, attempt bound, transitions, scans,
  write-once start times, idempotency, time order), `Audit` (event replay), `Wiring` (routing), `Dispatching`
  (mutual exclusion, in-flight counters), `Draining` and `Ordering` (dispatch order). They hold of every run of the
  transition system.
- **What a run says.** Four modules tie states to the run that leads to them, without the functions that define a step:
  `Causes` (the segment that made each record what it is), `Deadlines` (watchers leave alone what is within its time),
  `Deliveries` (what is sent, where and when) and `Heartbeats` (who is registered).
- **Runs of the event loop.** A coroutine does not suspend at every `await`: it takes a free lock that nobody queues on,
  and goes on, in the same turn. `Scheduling` says which runs are left (`LoopRun`): a dispatch that gets its lock at
  once picks in the segment that started it, a watcher that waits for nothing goes on with its next entry, a lock goes
  to the first in its line. What needs these runs is proved about them: `Counting` (sends against attempts), `LockPop`
  with `DroppedLocks` and `DoubleSends` (exactly which segments keep exclusion and counts), `StaleCopies` with
  `StaleRuns` (exactly when a stale copy meets a RUNNING job), and the runs in `Witnesses`. All continuations that these
  construct are runs of the event loop with a clock that does not go back (`Moves.Leads`), and use only jobs that the
  API accepts.
- **Objects.** `Repositories` and `JobServices` are the in-memory repository over shared mutable jobs, the SQLite
  repository over rows and copies, and the service over either; both are proved against `Exec`, and `Equivalence`
  compares them. `Registries`, `Gateways` and `ControlPlane` are the connections, registry, event table, gateway,
  API operations and watchers as classes, one method for each step, each proved to perform exactly one enabled
  `Apply`. `Segments` lets a step go on for as long as nothing has to wait, `Serving` performs such a whole segment or
  refuses it, and `Processes` drives the server together with the log broker and the log table by arbitrary inputs:
  the objects only ever hold states of runs of the event loop, so the theorems are theorems about the objects.
- **Logs.** `LogFeed` and `LogBrokers` are the broker with capped histories and bounded drop-oldest queues, and the log
  table. `StreamSessions` computes what one live stream emits, and when, from the log at subscription and a schedule
  of publishes, timeouts and looks at the job; `LogStreams` is the generator itself, proved to do exactly that.

Timestamps are integers taken from clock readings that are inputs of a step; they are assumed not to go back only
where time order is the claim (`Ticking`). Job ids are assumed fresh. `max_dispatch_attempts` is at least 1.
`POST /jobs` accepts a job only with a non-empty agent id, a positive timeout and a priority from 0 to 2
(packages/server/api/app.py:23-28), which is the guard of `SubmitJob`; agents themselves may register with any id, the
empty one included, except where a theorem says otherwise. The exit code in a result message is an integer; a message
with a null one would leave a FAILED record without an exit code.

## Where the code differs from its documentation

- README.md:368-379 lists the allowed transitions and says that all others are rejected. The code also moves
  DISPATCHED to CANCELLED (packages/server/services/job_service.py:89-95) and to FAILED
  (packages/server/services/job_service.py:102-110); `Lifecycle.Allowed` is the code's relation.
- `fail_stale_dispatch` guards only on terminal states, and the ack watcher decides on a copy, so it can fail a job that
  is RUNNING by then. The copy is out of date only if the watcher has waited since it was listed, and it waits only for
  the dispatch of an earlier entry that it has requeued (`StaleCopies.RunningMeansWaited`). So this never happens when
  `max_dispatch_attempts` is 1 and can happen for every greater limit (`StaleRuns.LimitIsExact`), and while the watcher
  waits it still can if and only if the job of its next entry is not finished (`StaleRuns.WaitingScanExact`).
  `History.StaleFailureExact` says what the failure does in every state. That it never hits a PENDING job is a theorem,
  not a guard.
- docs/race-conditions.md:43-55 says that the per-agent lock makes two dispatches of one agent run one after the
  other. The disconnect path drops the lock from the dictionary (packages/server/gateway/connection.py:73-75), also
  while it is held. `Witnesses.DroppedLockSendsTwice` is a run that sends one job twice. `LockPop.LockSafeIsExact`
  proves that a segment keeps exclusion, whatever follows, if and only if it does not drop a lock that a dispatch of
  that agent holds or waits for; the theorems of `Dispatching` are about runs of such segments (`LockSafeRun`).
- An empty agent id means "no filter" in `list`, so a connection that registers with it is sent other agents' jobs:
  `Witnesses.EmptyIdMisroutes` is a run, and `Wiring.MessagesReachTheirAgent` says that a job message reaches its
  job's agent if and only if the connection's id is not empty.
- A job can be sent more often than its attempts say. `DroppedLocks.CountSafeIsExact` proves that a segment keeps sends
  and attempts in agreement, whatever follows, if and only if it neither drops the lock of an agent that has a dispatch
  waiting, or sending a job that is still PENDING, nor registers an empty id while a job is PENDING. An empty id is
  harmless while nothing is PENDING, because the dispatch it starts has come and gone before anything else runs. The
  theorems of `Counting` are about runs of such segments (`CountSafeRun`).
- A live stream drops chunks when its queue overflows. `StreamSessions.StreamIsComplete` gives the exact condition for
  a stream to be complete, in counts of publishes and positions alone (`Fits`).
- A lower priority number is dispatched first.

## Model

| member | source | states |
|---|---|---|
| Store.SqlTransitionAgrees | packages/server/repositories/job/sqlite.py:168-194 | COALESCE and CASE WHEN in the UPDATE compute the same row as the in-memory branches, for every row and target |
| Store.EffectKeepsIdentity | packages/server/services/job_service.py:44-110 | no call changes a job's id, agent, request, timeout, key, priority or creation time |
| Store.ExecKeepsTableOk | packages/server/repositories/schema.sql:29-31 | every call keeps ids, insertion order and the key index consistent: index and keyed rows stay mutually inverse |
| Lifecycle.EffectKeepsCoherence | packages/server/services/job_service.py:49-110 | record coherence is kept by every call a server step can make |
| Lifecycle.TerminalRowFrozen | packages/server/services/job_service.py:49-110 | no call changes any field of a terminal record |
| Lifecycle.CallDropsRank | packages/server/services/job_service.py:49-110 | every effective call moves along an edge of the code and strictly lowers 2(max-a)+1 / 2(max-a)+2 / 1 / 0 |
| Watchers.CallIsOk | packages/server/watchers/ack.py:42-62 | in every state of a run the stale failure hits only a job with exactly the allowed attempts that is not PENDING |
| Watchers.InvKept | packages/server/watchers/ack.py:34-77 | every segment of every coroutine keeps coherence and the worklist invariants of both watchers, although these decide on stale copies and suspend in between |
| History.ReachableJobsCoherent | packages/server/watchers/ack.py:42-77 | in every reachable state attempts never exceed max, PENDING has one left, finished_at is set iff terminal, and FAILED without started_at means exactly max attempts and the matching message |
| History.TerminalFrozen | packages/server/services/job_service.py:49-110 | once terminal, no later run changes any field of the record |
| History.StartWrittenOnce | packages/server/repositories/job/memory.py:46-63 | started_at is write-once: no run changes one that is set |
| History.StepMovesAlongEdges | packages/shared/protocol.py:5-24 | a segment moves a job only along the code's edges, listed one by one, never PENDING to FAILED, never lowers attempts, and strictly lowers the rank |
| Causes.ChangeIsExact | packages/server/services/job_service.py:49-110 | written on the fields, for each kind of segment: how it changes a stored record, whenever it can, and that it changes none in any other way |
| Causes.SubmissionStores | packages/server/services/job_service.py:22-32 | an accepted submission stores exactly what was asked for, PENDING with nothing else set, unless its key has an owner; then nothing is stored |
| Causes.OrderGrows | packages/server/repositories/job/memory.py:13-20 | the insertion order only grows, at its end, and only by a submission that stores a record |
| Causes.EveryRecordHasACause | packages/server/gateway/connection.py:149-198 | every record of every reachable state was made what it is, field for field, by one segment of the run: a submission, a successful send, a report of a start or a result, a cancel, a timeout, a requeue or a stale failure |
| Causes.EveryRequestWasSubmitted | packages/server/api/app.py:67-77 | every record holds what one accepted submission of the run asked for, within the API's bounds |
| Causes.EveryStartWasReported | packages/server/gateway/connection.py:149-159 | every start time is that of a report of the start |
| History.AtMostTwoMaxPlusOneChanges | packages/server/watchers/ack.py:42-77 | in any run a job changes state at most 2*max+1 times |
| History.KeyOwnerForever | packages/server/repositories/job/memory.py:13-27 | the owner of an idempotency key never changes, whatever steps follow |
| History.ResubmitReturnsFirstJob | packages/server/repositories/job/sqlite.py:93-102 | submit, any run, submit with the same key: the first job comes back as it then stands, no stored job changes, and it is the only job with the key |
| History.AckScanComplete | packages/server/watchers/ack.py:34-40 | when an ack scan ends, under any interleaving, no job overdue in its snapshot is still DISPATCHED with the same attempt number |
| History.StaleFailureExact | packages/server/services/job_service.py:102-110 | what a stale failure does in every state; it stays on the DISPATCHED edge if and only if the job is not RUNNING by then |
| History.TimerScanComplete | packages/server/watchers/timeout.py:28-57 | when a timeout scan ends, under any interleaving, every job that was RUNNING when it began still has the start time it had then, and is terminal if its time was up; the skip of records without started_at hides none |
| Deadlines.NoneTimedOutEarly | packages/server/watchers/timeout.py:33-57 | with a clock that does not go back, every TIMED_OUT record finished more than its timeout after its start, in every reachable state |
| Deadlines.NoneTakenBackEarly | packages/server/watchers/ack.py:36-77 | with such a clock, no DISPATCHED job goes back to PENDING, or to FAILED, before more than the ack timeout has passed since its dispatch was marked |
| Deadlines.OnlyOverdueTakenBack | packages/server/watchers/ack.py:36-77 | in any run, whatever a segment requeues or gives up as unacknowledged was DISPATCHED and overdue when the scan under way began |
| Deadlines.OnlyExpiredTimedOut | packages/server/watchers/timeout.py:28-57 | in any run, whatever a segment marks as timed out was RUNNING past its time when the scan under way began |
| History.ReachableTimesOrdered | packages/server/repositories/job/memory.py:46-86 | with a clock that does not go back, created <= started <= finished <= updated wherever set, in every reachable state |
| Audit.ReplayMatchesStore | packages/server/gateway/connection.py:149-198 | in every reachable state a job's events replay to exactly its stored state, attempts and exit code, and every payload agrees with the replay at its place, although no-op transitions append events too |
| Audit.EventsOfMessages | packages/server/gateway/connection.py:141-198 | exactly the event that each submission and each message leaves: acks and reconciles always, starts and results if and only if the job is known, with the state stored afterwards |
| Audit.EventsOfServer | packages/server/gateway/connection.py:274-278 | exactly the event that each other segment leaves, none included |
| Wiring.MessagesReachTheirAgent | packages/server/gateway/connection.py:239-273 | across overwrites, expiry, disconnects and restarts every cancel message ever sent went to the job's agent, and a job message did if and only if its connection had registered with a non-empty id |
| Deliveries.CancelIsSent | packages/server/api/app.py:121-135 | a cancel, with any run while it waits: exactly one cancel message, on the connection the job's agent had at the beginning, if it had one and the send succeeds, else none |
| Deliveries.ExpiryIsSent | packages/server/watchers/timeout.py:48-57 | the same for a job whose time is up |
| Deliveries.PickIsSent | packages/server/gateway/connection.py:263-278 | a pick, with any run while its send waits: if the send succeeds, exactly that job goes out, on the connection its agent had when it was picked |
| Deliveries.NothingElseIsSent | packages/server/gateway/connection.py:239-273 | no other segment sends anything |
| Deliveries.SendDelivers | packages/server/gateway/connection.py:271-273 | a successful send counts one more in flight on the connection of the pick, registered still or not, and on no other |
| Deliveries.ResultFrees | packages/server/gateway/connection.py:208-211 | a result counts one fewer in flight on the connection its session's agent has now, down to none, and on no other |
| Deliveries.WhatStartsADispatch | packages/server/gateway/connection.py:250-251 | a dispatch for an agent begins with an accepted job of it, its registration, a result in its session and the requeueing of a job of it, and with nothing else |
| Deliveries.RestartForgets | packages/server/main.py:22-70 | a restart leaves no coroutine, registration, lock or scan, and keeps what is stored and was sent |
| Heartbeats.RegisteredIsLastBeat | packages/server/services/agent_registry.py:11-40 | in every reachable state an agent is registered, and was last heard of, exactly as the registrations, beats, disconnects, sweeps and restarts of the run say |
| Heartbeats.BeatKeepsRegistered | packages/server/gateway/connection.py:216-221 | an agent that registers or beats at t stays registered on the same connection, in any run in which it neither registers again nor leaves, the server goes on, and no sweep has a cutoff after t |
| Heartbeats.SweepIsExact | packages/server/watchers/heartbeat.py:26-36 | a sweep unregisters exactly the agents last heard of before its cutoff, and moves no other |
| Dispatching.DispatchIsExclusive | packages/server/gateway/connection.py:250-279 | with any number of concurrent dispatches, and whatever ids register, at most one coroutine per agent is between pick and mark and every in-flight counter is 0 or 1, as long as no disconnect drops a lock in use |
| Moves.FirstExists | packages/server/gateway/connection.py:257-262 | when something is pending for an agent there is a first job by priority and age |
| Scheduling.LineHasFirst | packages/server/gateway/connection.py:250-251 | whoever waits for a lock, there is a first in the line for it |
| Scheduling.LocksAreFair | packages/server/gateway/connection.py:250-251 | whatever the event loop runs, a dispatch that gets a lock leaves nobody waiting for it who came before |
| Scheduling.LoopRunIsValid | packages/server/main.py:111-117 | a run of the event loop is a run of the transition system, so what holds of all runs holds of it |
| Scheduling.LoopRunSplit | packages/server/main.py:111-117 | whether a run may go on after a part of it depends on nothing but the state and the dispatch that goes on there |
| Counting.SendsEqualAttempts | packages/server/gateway/connection.py:271-278 | as long as no disconnect meets a dispatch of its agent that waits or sends a PENDING job, and no empty id registers while a job is PENDING, successful sends of a job equal its dispatch attempts, plus at most one if it was cancelled during a send |
| Counting.ExtraSendIsLast | packages/server/gateway/connection.py:271-278 | after that extra send the job is never sent again |
| LockPop.DropInUseBreaksExclusion | packages/server/gateway/connection.py:73-75 | from any state that satisfies the invariants, dropping a lock in use can be continued, as the event loop runs, to two sends for one agent at a time |
| LockPop.LockSafeIsExact | packages/server/gateway/connection.py:61-75 | in any such state, each segment that may run keeps exclusion on all continuations of the event loop by such segments if and only if it does not drop a lock that a dispatch of that agent holds or waits for |
| DoubleSends.PickedAgain | packages/server/gateway/connection.py:257-278 | whenever a second coroutine gets to pick a PENDING job while another is sending it, the event loop can go on to a job that is sent twice in one attempt |
| DoubleSends.FightIsLost | packages/server/gateway/connection.py:250-278 | if one coroutine sends the only unfinished job and a dispatch of its idle agent is in line for another lock, free or held, the same follows, even if the watcher waits for the holder |
| DroppedLocks.DropMiscounts | packages/server/gateway/connection.py:73-75 | from any state that has kept the counts, a disconnect that meets a competing dispatch of its agent can be continued to a job that is sent twice in one attempt |
| DroppedLocks.NamelessMiscounts | packages/server/gateway/connection.py:129-139 | from any such state in which a job is PENDING, a registration with an empty id can be continued to the same |
| DroppedLocks.CountSafeIsExact | packages/server/gateway/connection.py:61-139 | in any state that has kept the counts, each segment that may run keeps sends and attempts in agreement for every job on all continuations of the event loop by safe segments if and only if it satisfies the condition of SendsEqualAttempts |
| Witnesses.DroppedLockSendsTwice | packages/server/gateway/connection.py:73-75 | for any agent and job, a run of the event loop in which a disconnect during a send lets one job be sent twice with one attempt recorded |
| Witnesses.EmptyIdMisroutes | packages/server/repositories/job/sqlite.py:113-130 | a run of the event loop in which a job is submitted for an absent agent and sent to a connection that then registers with the empty id |
| StaleCopies.CurrentOrWaited | packages/server/watchers/ack.py:34-62 | after a listing, however long the event loop runs: every copy that the ack watcher has not handled equals its stored row, which is DISPATCHED, unless the watcher has waited for the dispatch of an entry it requeued |
| StaleCopies.RunningMeansWaited | packages/server/watchers/ack.py:34-77 | the ack watcher meets a RUNNING job only if it has waited in the same scan, for the dispatch of an earlier entry that it had requeued |
| StaleCopies.LimitOneMeetsNone | packages/server/watchers/ack.py:42-62 | with a limit of one attempt it meets no RUNNING job in any run of the event loop |
| StaleRuns.WaitingScanExact | packages/server/watchers/ack.py:42-77 | while it waits and its next entry is to be given up, the event loop can bring it to that job in state RUNNING if and only if the job is not finished |
| StaleRuns.WatcherMeetsRunning | packages/server/watchers/ack.py:34-77 | for every limit of at least two, any two agents and any two jobs: a run from the start after which the watcher is about to fail the second job, which is RUNNING |
| StaleRuns.LimitIsExact | packages/server/watchers/ack.py:42-77 | a run of the event loop from the start that brings the watcher to a RUNNING job exists if and only if the limit is at least two |
| Ordering.StableSortSpec | packages/server/gateway/connection.py:261 | the sort orders, permutes, and keeps the order of jobs that tie |
| Ordering.DispatchOrderKeepsSubmissionOrder | packages/server/repositories/job/memory.py:29-39 | a reversed stable sort by age followed by the dispatcher's stable sort is the stable sort of the submission order |
| Ordering.DrainingSorts | packages/server/gateway/connection.py:257-262 | always taking the first of what is left visits the jobs in sorted order, ties included; Draining.InMemoryDrain applies it to dispatch |
| Draining.RoundsDrain | packages/server/gateway/connection.py:250-279 | however ties are broken and whatever each job's exit code, outputs, error and clock readings, rounds of dispatch, started and result pick pending jobs of the agent, none twice, with priority numbers that never fall and creation times that never fall within one priority, and leave exactly those with exactly their results |
| Draining.RoundsSend | packages/server/gateway/connection.py:263-273 | the messages sent are the picks, in order, on the agent's connection |
| Draining.InMemoryRounds | packages/server/gateway/connection.py:257-262 | any number of rounds with the in-memory store's picks takes the first of what is left each time, and nothing else leaves the pending list |
| Draining.InMemoryDrain | packages/server/repositories/job/memory.py:29-39 | a full drain of the in-memory store picks the pending jobs in the stable order of priority and age over their submission order |
| Draining.AgentDrains | packages/server/gateway/connection.py:208-212 | an idle agent with n pending jobs and successful sends gets all n, each exactly once, by rising priority number and then creation time, whatever it answers |
| Repositories.Job.Move | packages/server/repositories/job/memory.py:55-62 | the in-place assignments of a transition compute Transition |
| Repositories.Job.CountAttempt | packages/server/services/job_service.py:49-58 | the in-place assignments of a dispatch mark |
| Repositories.Job.GiveUp | packages/server/services/job_service.py:102-110 | the in-place assignments of a stale failure |
| Repositories.Job.Finish | packages/server/repositories/job/memory.py:76-85 | the in-place assignments of a completion compute Complete |
| Repositories.InMemoryJobRepository.Add | packages/server/repositories/job/memory.py:13-20 | stores the object and indexes its key, also over a job with the same id, or returns the object that owns the key and changes nothing |
| Repositories.InMemoryJobRepository.Get | packages/server/repositories/job/memory.py:22-23 | hands out the stored object itself |
| Repositories.InMemoryJobRepository.GetByIdempotencyKey | packages/server/repositories/job/memory.py:25-27 | the stored object that owns the key, or none |
| Repositories.InMemoryJobRepository.List | packages/server/repositories/job/memory.py:29-39 | the stored objects themselves that match, creation times never rising, ties in insertion order |
| Repositories.InMemoryJobRepository.Save | packages/server/repositories/job/memory.py:41-44 | the caller's object, stored before or not, is what is stored under its id, with a new updated_at, and no other row changes |
| Repositories.InMemoryJobRepository.TransitionIf | packages/server/repositories/job/memory.py:46-63 | compare and swap on the shared object: exactly one row moves by Transition, and the stored object is returned |
| Repositories.InMemoryJobRepository.CompleteIfRunning | packages/server/repositories/job/memory.py:65-86 | completes the shared object if RUNNING, and no other row changes |
| Repositories.SqliteJobRepository.Fetch | packages/server/repositories/job/sqlite.py:53-57 | a fresh copy of the row, or none |
| Repositories.SqliteJobRepository.Add | packages/server/repositories/job/sqlite.py:59-102 | INSERT, or a copy of the row that owns the key; a constraint violated without such a row is raised and changes nothing |
| Repositories.SqliteJobRepository.GetByIdempotencyKey | packages/server/repositories/job/sqlite.py:107-111 | a fresh copy of the row that owns the key, or none |
| Repositories.SqliteJobRepository.List | packages/server/repositories/job/sqlite.py:113-130 | fresh copies: a permutation of the matching rows, creation times never rising, ties in any order |
| Repositories.SqliteJobRepository.Save | packages/server/repositories/job/sqlite.py:132-166 | the row with the copy's id takes all columns of the copy, a changed key included; a key that another row has is an error and changes nothing, and so does a missing row |
| Repositories.UpdateKeepsTableOk | packages/server/repositories/job/sqlite.py:132-166 | an UPDATE of every column changes that row only and keeps the key index the inverse of the keyed rows |
| Repositories.SqliteJobRepository.TransitionIf | packages/server/repositories/job/sqlite.py:168-194 | the guarded UPDATE moves exactly one row by Transition and a fresh copy comes back |
| Repositories.SqliteJobRepository.CompleteIfRunning | packages/server/repositories/job/sqlite.py:196-225 | the guarded UPDATE completes exactly one row by Complete and a fresh copy comes back |
| JobServices.JobService.Submit | packages/server/services/job_service.py:12-32 | over either repository: with a new key, or none, the stored record and the answer have exactly the arguments, field for field, PENDING and with nothing else set; with a taken key nothing is stored and the answer is its owner |
| JobServices.JobService.Get | packages/server/services/job_service.py:34-35 | the stored object or a fresh copy, with the stored record in both cases |
| JobServices.JobService.List | packages/server/services/job_service.py:37-42 | over either repository a permutation of the matching rows, creation times never rising; the stored objects in one case, fresh copies in the other |
| JobServices.JobService.MarkDispatchedWithAttempt | packages/server/services/job_service.py:49-58 | only a PENDING job is marked and counted, and only its row changes, whether the job got is shared or a copy |
| JobServices.JobService.MarkRunning | packages/server/services/job_service.py:60-63 | DISPATCHED to RUNNING with started_at set, else no change |
| JobServices.JobService.MarkSucceeded | packages/server/services/job_service.py:65-70 | RUNNING to SUCCEEDED with the result, else no change |
| JobServices.JobService.MarkFailed | packages/server/services/job_service.py:72-82 | RUNNING to FAILED with the result and error, else no change |
| JobServices.JobService.MarkTimedOut | packages/server/services/job_service.py:84-87 | RUNNING to TIMED_OUT, else no change |
| JobServices.JobService.MarkCancelled | packages/server/services/job_service.py:89-95 | any non-terminal state to CANCELLED, else no change |
| JobServices.JobService.Requeue | packages/server/services/job_service.py:97-100 | DISPATCHED to PENDING with attempts kept, else no change |
| JobServices.JobService.FailStaleDispatch | packages/server/services/job_service.py:102-110 | any non-terminal job to FAILED with exit code 1 and the reason, else no change |
| Equivalence.ListingsAgree | packages/server/repositories/job/memory.py:29-39 | two newest-first permutations of the same rows have the same ages at every place, and are equal if no two ages are |
| Equivalence.PerformAll | packages/server/services/job_service.py:12-110 | any sequence of calls, on a service over either repository, leaves the table and gives the replies that Exec and Reply compute from the contents before |
| Equivalence.CompareBackends | packages/server/repositories/job/sqlite.py:53-225 | two services, one over each repository with no object in common and equal contents, get any call sequence with fresh ids and the same clock readings: the same replies, equal contents afterwards, and listings of those contents that agree up to ties |
| Registries.AgentConnection.MarkBusy | packages/server/domain/agent.py:17-18 | one more in flight |
| Registries.AgentConnection.MarkFree | packages/server/domain/agent.py:20-21 | one fewer, never below zero |
| Registries.AgentConnection.Touch | packages/server/domain/agent.py:14-15 | only the heartbeat time changes |
| Registries.AgentRegistry.Register | packages/server/services/agent_registry.py:11-14 | a new idle connection object takes the agent's place |
| Registries.AgentRegistry.Unregister | packages/server/services/agent_registry.py:16-17 | the agent, and no other, is gone; unknown agents change nothing |
| Registries.AgentRegistry.Get | packages/server/services/agent_registry.py:19-20 | the registered object, or none |
| Registries.AgentRegistry.StaleAgents | packages/server/services/agent_registry.py:33-40 | exactly the registered connections whose last heartbeat is before the cutoff |
| Registries.AgentRegistry.UnregisterStale | packages/server/watchers/heartbeat.py:26-36 | exactly the agents with a stale connection are unregistered |
| Registries.EventRepository.Append | packages/server/repositories/event/sqlite.py:28-40 | appends one row |
| Registries.EventRepository.ListForJob | packages/server/repositories/event/sqlite.py:42-58 | exactly the job's events, in insertion order |
| Gateways.Gateway.LockFor | packages/server/gateway/connection.py:54-59 | the agent's lock, created once and kept |
| Gateways.Gateway.EnterDispatch | packages/server/gateway/connection.py:250-251 | one more coroutine queues on the lock the dictionary has for its agent |
| Gateways.Gateway.Lookup | packages/server/gateway/connection.py:239-242 | the name of the connection object the agent is registered with, fixed before the wait |
| Gateways.Gateway.DeliverCancel | packages/server/gateway/connection.py:243-248 | a cancel goes to the connection found before the wait if the send succeeds, or nowhere |
| Gateways.Gateway.Connect | packages/server/gateway/connection.py:129-136 | a new connection object is registered; the one it replaces keeps its counter |
| Gateways.Gateway.Admit | packages/server/gateway/connection.py:129-139 | a registration replaces the agent's connection and queues one dispatch for it |
| Gateways.Gateway.IdleConnection | packages/server/gateway/connection.py:252-254 | a connection exactly if the agent is registered with nothing in flight |
| Gateways.Gateway.StartSend | packages/server/gateway/connection.py:263-271 | the coroutine holds the lock, the picked job and the picked connection across the send |
| Gateways.Gateway.Release | packages/server/gateway/connection.py:271-272 | a failed send releases the lock and changes nothing else |
| Gateways.Gateway.Finish | packages/server/gateway/connection.py:271-273 | a successful send releases the lock and counts on the connection object that was picked, even if the agent has another by then |
| Gateways.Gateway.FreeSession | packages/server/gateway/connection.py:208-211 | a result frees the connection its session's agent has now |
| Gateways.Gateway.Touch | packages/server/services/agent_registry.py:28-31 | the registered connection was last heard of now, and no other changes |
| Gateways.Gateway.Disconnect | packages/server/gateway/connection.py:73-75 | unregisters whatever connection the agent has and drops its lock |
| Gateways.Gateway.Sweep | packages/server/watchers/heartbeat.py:26-36 | exactly the connections last heard of before the cutoff leave the registry, locks stay |
| Gateways.Gateway.Restart | packages/server/main.py:22-70 | registry, locks, holders and coroutines are empty again |
| Listings.PermutationIsListed | packages/server/services/job_service.py:37-42 | any permutation of the matching rows holds exactly the stored rows whose agent and state equal the filters given, once each; an empty agent id is no filter |
| Listings.MatchingInOrder | packages/server/repositories/job/memory.py:29-39 | the rows that a filter leaves come in insertion order |
| Listings.FirstOfPending | packages/server/gateway/connection.py:257-262 | the head of the sorted pending list is a first candidate by priority and age, whatever order the listing left ties in |
| Listings.MostUrgent | packages/server/gateway/connection.py:260-262 | on the numbers: every other pending job of the agent has a greater priority number, or the same one and is not older |
| Listings.PickIsMostUrgent | packages/server/gateway/connection.py:252-262 | the critical section picks if and only if the agent is registered with nothing in flight and has a pending job, and then a most urgent one, on the numbers |
| Listings.PickIsFirstSubmitted | packages/server/gateway/connection.py:257-262 | with the in-memory store the pick is the first submitted among the jobs that tie |
| Listings.CollectDue | packages/server/watchers/ack.py:34-40 | exactly the rows DISPATCHED for longer than the ack timeout, or RUNNING for longer than their own, once each |
| Listings.DueIsSnapshot | packages/server/watchers/ack.py:34-40 | a scan's filter over the listing is a snapshot of exactly the due rows |
| Listings.AckWorklist | packages/server/watchers/ack.py:36-40 | the worklist of an ack scan: copies of exactly the stored rows that are DISPATCHED with now - updated_at beyond the ack timeout |
| Listings.TimerWorklist | packages/server/watchers/timeout.py:30-36 | the worklist of a timeout scan: copies of exactly the stored rows that are RUNNING with now - started_at beyond their timeout |
| ControlPlane.Server.SubmitJob | packages/server/api/app.py:67-87 | the body is refused exactly if the agent is empty, the timeout not positive or the priority not 0 to 2, which changes nothing; else one SubmitJob step, after which the row under the answer has exactly the arguments, field for field, or the answer is the owner of the key and nothing is stored |
| ControlPlane.Server.CancelBegin | packages/server/api/app.py:116-129 | 404 exactly for unknown jobs, 409 exactly for terminal ones with their state, else one CancelBegin step that keeps the job and the connection its agent has then |
| ControlPlane.Server.CancelEnd | packages/server/api/app.py:130-135 | one CancelEnd step; a cancel message goes out exactly if there was a connection and the send succeeded; the answer is the stored state afterwards |
| ControlPlane.Server.OnRegister | packages/server/gateway/connection.py:129-137 | up to the dispatch it starts, one Register step |
| ControlPlane.Server.OnAckOrReconcile | packages/server/gateway/connection.py:141-147 | one step that appends an ack event for an ack and a reconciled event for a reconcile message, and nothing else |
| ControlPlane.Server.OnStarted | packages/server/gateway/connection.py:149-159 | one Started step; the event reports the state after the call |
| ControlPlane.Server.StoreResult | packages/server/gateway/connection.py:186-198 | the call chosen by error and exit code, and an event that reports the record after it, none for unknown jobs |
| ControlPlane.Server.OnResult | packages/server/gateway/connection.py:177-211 | up to the dispatch it starts, one Result step: truthy error, else exit code zero, else failure; then free, and start a dispatch if there is a session |
| ControlPlane.Server.OnHeartbeat | packages/server/gateway/connection.py:216-221 | one Heartbeat step: the session's agent, if registered, was last heard of now, and no other changes |
| ControlPlane.Server.AcquireAndPick | packages/server/gateway/connection.py:250-270 | list, sort and pick inside the lock is one Acquire step; the pick is a pending job of the agent with the least priority number and, within that, the earliest creation time |
| ControlPlane.Server.FirstPending | packages/server/gateway/connection.py:257-262 | a pending job of the agent with the least priority number and, within that, the earliest creation time, or none exactly when nothing is pending |
| ControlPlane.Server.SendSucceeded | packages/server/gateway/connection.py:271-279 | one SendOk step |
| ControlPlane.Server.CountAttempt | packages/server/gateway/connection.py:274-278 | the event reports the attempt count after the mark, whether or not the mark took effect |
| ControlPlane.Server.SendFailure | packages/server/gateway/connection.py:271-272 | one SendFailed step: nothing is marked |
| ControlPlane.Server.OnDisconnect | packages/server/gateway/connection.py:61-75 | one Disconnect step for a registered session, nothing for any other |
| ControlPlane.Server.ScanHeartbeats | packages/server/watchers/heartbeat.py:26-36 | one HeartbeatSweep step: the registry keeps exactly the connections last heard of at the cutoff or later |
| ControlPlane.Server.RestartServer | packages/server/main.py:22-70 | one Restart step: registry, locks, coroutines and worklists are lost, the stores stay |
| ControlPlane.Server.AckScanBegin | packages/server/watchers/ack.py:35-36 | the listing is one AckBegin step whose worklist has copies of exactly the rows DISPATCHED for longer than the ack timeout |
| ControlPlane.Server.Overdue | packages/server/watchers/ack.py:34-40 | listing and filter give a snapshot of exactly the due rows |
| ControlPlane.Server.OnAckTimeout | packages/server/watchers/ack.py:42-76 | one entry up to the dispatch it starts is one AckHandle step: give up at the limit, else requeue |
| ControlPlane.Server.TimeoutScanBegin | packages/server/watchers/timeout.py:29-35 | the listing is one TimerBegin step whose worklist has copies of exactly the rows RUNNING for longer than their timeout |
| ControlPlane.Server.Fire | packages/server/watchers/timeout.py:38-48 | one TimerFire step that fixes the connection the job's agent has then |
| ControlPlane.Server.MarkFired | packages/server/watchers/timeout.py:49-57 | one TimerMark step, whether or not the cancel was delivered; a cancel message goes out exactly if there was a connection and the send succeeded |
| ControlPlane.BuildServer | packages/server/main.py:29-44 | the wired server holds the initial state |
| Segments.NextPick | packages/server/gateway/connection.py:250-270 | a dispatch that has its lock at once goes on to its pick |
| Segments.NextEntry | packages/server/watchers/ack.py:36-40 | a watcher that does not wait handles its next entry or ends its scan, and its entry's dispatch goes on exactly if its lock is free and nobody queues on it |
| Segments.NextDeadline | packages/server/watchers/timeout.py:30-57 | the timeout watcher goes on while there is nothing to send |
| Segments.NextCancel | packages/server/api/app.py:131-135 | a cancel for an agent that is not connected marks its job at once |
| Segments.GoOn | packages/server/watchers/ack.py:34-77 | the server goes on for as long as some coroutine does not have to wait; this ends, and every move on the way is one that the event loop makes |
| Segments.SegmentIsLoopRun | packages/server/main.py:111-117 | a whole segment is a run of the event loop |
| Serving.Perform | packages/server/gateway/connection.py:93-117 | a step is performed as a whole segment, with everything that goes on in it without waiting, or refused, and refused only if no segment it could mean can begin |
| Serving.FollowsIsLoopRun | packages/server/main.py:111-117 | whatever a schedule asks for, the segments performed are together one run of the event loop |
| Processes.OnLog | packages/server/gateway/connection.py:161-175 | a log message reaches broker and table and nothing of the server |
| Processes.OnStep | packages/server/main.py:22-70 | a step of the server leaves the log table alone; a restart also loses the broker, and the new one starts where the table is |
| Processes.Handle | packages/server/gateway/connection.py:93-117 | one input of the process: a step, a log message, or a message of a missing or unknown type, which changes nothing |
| Processes.Serve | packages/server/main.py:111-117 | under any inputs the objects hold the state of a run of the event loop that performs the segment of every step that could begin and no other, and the log table every log message in order |
| Processes.ServedStateIsSound | packages/server/main.py:111-117 | read off the objects after any inputs: coherent records within their attempts, events that replay to the records, cancel messages only to the jobs' own agents and job messages too exactly on connections with a non-empty id, histories that are the tails of what was logged since the last restart, and sends that agree with attempts if the segments were safe for them |
| Processes.BuildComponents | packages/server/main.py:22-70 | server, log table and broker wired together: the initial state, an empty table, and the capacities 5000 and 1000 |
| LogFeed.NumberedFromOne | packages/server/services/log_broker.py:34-42 | the chunks of a job and stream are numbered 1, 2, 3, ... without gaps |
| LogFeed.SequenceGap | packages/server/services/log_broker.py:34-42 | the gap between two numbers on a stream is the number of chunks of that stream published in between |
| LogFeed.PushKeeps | packages/server/services/log_broker.py:44-56 | offering with drop-oldest keeps what is queued a suffix of what was offered, and what was read an in-order subsequence before it |
| LogFeed.LosslessReadsAll | packages/server/services/log_broker.py:44-56 | what was read plus what is queued is everything offered if and only if nothing was dropped |
| LogFeed.NothingLostIffNeverFull | packages/server/services/log_broker.py:44-56 | over any mix of publishes and reads nothing is lost if and only if no publish found the queue full |
| LogFeed.GapIsDropped | packages/server/services/log_broker.py:34-56 | with overflow, the gap in sequence numbers between two consecutive reads on a stream is the number of chunks dropped on it |
| LogBrokers.BoundedQueue.Offer | packages/server/services/log_broker.py:44-56 | drop the oldest if full, then append |
| LogBrokers.BoundedQueue.Get | packages/server/api/app.py:193-204 | takes the oldest queued chunk |
| LogBrokers.LogBroker.Publish | packages/server/services/log_broker.py:34-58 | numbers the chunk, keeps the capped history a tail of everything published, and offers it to exactly the job's subscribers |
| LogBrokers.LogBroker.Subscribe | packages/server/services/log_broker.py:60-64 | a new empty queue and, at the same instant, the last history_cap chunks |
| LogBrokers.LogBroker.Unsubscribe | packages/server/services/log_broker.py:66-72 | the queue leaves, and a job without subscribers loses its entry |
| LogBrokers.UnsubscribeUndoesSubscribe | packages/server/services/log_broker.py:60-72 | unsubscribe restores the subscriber table subscribe found |
| LogBrokers.LogRepository.Append | packages/server/repositories/log/sqlite.py:27-34 | appends one row |
| LogBrokers.LogRepository.ListForJob | packages/server/repositories/log/sqlite.py:36-59 | the rows of the job and stream, in insertion order |
| LogBrokers.StreamListing | packages/server/repositories/log/sqlite.py:36-59 | the listing for a stream is the job's whole listing with the other streams taken out |
| LogBrokers.LogIntake.OnLog | packages/server/gateway/connection.py:161-175 | broker and log table take the chunk together |
| LogBrokers.ChunksMatchRows | packages/server/gateway/connection.py:161-175 | published chunks and appended rows of a job agree in stream and text, in order |
| LogBrokers.HistoryAgreesWithTable | packages/server/services/log_broker.py:74-75 | the history is the last min(cap, n) of the n rows appended for the job since the server started |
| LogBrokers.HistoryIsCapped | packages/server/services/log_broker.py:41-42 | a history is the end of what was published for its job, never more than its cap, and short of the cap only if it is all of that |
| LogStreams.ReplayHistory | packages/server/api/app.py:181-184 | emits the history in order, or a prefix exactly if the client goes away first |
| LogStreams.Poll | packages/server/api/app.py:191-201 | leaves at the moment the schedule determines, after the first wait on an empty queue that timed out and saw the job terminal, having emitted what was read |
| LogStreams.DrainQueue | packages/server/api/app.py:203-204 | emits what is still queued and ends at the first moment the queue is empty |
| StreamSessions.LosslessIffFits | packages/server/services/log_broker.py:44-56 | a stream's queue has dropped nothing if and only if the counts of arrivals and reads, computed from the schedule alone, never exceeded its capacity |
| StreamSessions.StreamIsComplete | packages/server/api/app.py:176-208 | a stream that ends by its polling loop emitted the history and then exactly the chunks published for its job since, in order, none missing or repeated, if and only if the counts fitted; with an uncapped history that is the job's whole log |
| StreamSessions.CutStreamIsPrefix | packages/server/api/app.py:176-208 | a stream whose client goes away after the history, with counts that fitted, has emitted a prefix of that, all but what is still queued |
| StreamSessions.EndsWhenTerminal | packages/server/api/app.py:186-206 | a stream ends early if and only if the job is terminal after the history; it ends by its polling loop exactly at the first moment with an empty queue after the first wait that timed out on an empty queue and then saw the job terminal |
| StreamSessions.FewChunksFit | packages/server/services/log_broker.py:22-32 | the counts fit whenever the queue is unbounded or could hold all that was published |
| LogStreams.LogStream | packages/server/api/app.py:176-208 | for every schedule the generator emits and ends exactly as StreamSessions computes from its arguments and the broker's log, and leaves the subscriber table as it was; a stream that ends by its polling loop is complete if and only if the counts fitted |

## Left out

- The agent process: containers, reconnects and result delivery. Agents are arbitrary sources of messages.
- Sessions: a result, a heartbeat or a disconnect may come from a session with any agent id at any time, which allows
  more runs than the code. The continuations that the exactness theorems construct use none of the three.
- WebSocket, HTTP, JSON and SSE framing, logging, and exceptions other than a closed socket. A send is a success or
  a failure when its coroutine resumes; a send that a restart cuts off is not counted as sent.
- SQLite itself: each statement is one atomic table update, appends do not fail, and schema creation is not modelled.
- The `request` field of a job stands for image, command, metadata and correlation id, which no operation reads; that
  `POST /jobs` refuses an empty image or command (packages/server/api/app.py:24-25) is not modelled.
- Liveness and fairness: nothing is claimed about busy connections or absent agents, and a requeued job is not
  claimed to be sent again, because requeueing does not free the connection.
- `mark_dispatched` without an attempt count, which no server step calls, and the read-only API endpoints.
- The overflow-warning set of the broker, which only silences a log line, and the suspension at the end event of a
  stream, after which nothing is emitted.
- Worklists are computed when a scan begins, not row by row; on copies of rows, listed newest first, and with the
  scan's one clock reading both give the same rows in the same order. The live objects the in-memory repository would
  put into a worklist are not modelled: the server is wired to SQLite (packages/server/main.py:29).
- The inside of `asyncio.Lock` and `asyncio.Queue`: a lock is a name with a holder and a line in order of arrival.
- LogStreams.LogStream: the answers of `job_service.get` at each look are part of the schedule, not read from the
  modelled table.
- Dispatching.DispatchIsExclusive: claimed only for runs in which no disconnect drops a lock in use; that condition is
  exact, by `LockPop.LockSafeIsExact`.
- Counting.SendsEqualAttempts: claimed only for runs that satisfy its condition, which is exact, by
  `DroppedLocks.CountSafeIsExact`; a send that a restart cuts off is not counted.
- Counting.ExtraSendIsLast: claimed for continuations under the same, exact condition.
- Registries.EventRepository.Append: the rows have no created_at; events are ordered by insertion only.
- Registries.EventRepository.ListForJob: what is listed has no created_at either.
- Serving.Perform: log messages and messages of a missing or unknown type are not among its steps; they are inputs of
  `Processes.Handle`.
