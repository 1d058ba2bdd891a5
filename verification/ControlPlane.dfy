/**
 The server as objects: the gateway, the API operations and the watchers, one method for each segment they
 execute between two awaits. Each method is proved to do exactly what System.Apply says for an enabled label,
 so every theorem about runs is one about these objects.
 */
module ControlPlane {
  import opened Jobs
  import opened Ordering
  import opened Store
  import opened Repositories
  import opened JobServices
  import opened System
  import opened Registries
  import opened Gateways
  import opened Listings

  /** One segment of the transition system. */
  ghost predicate Step(cfg: Config, s: State, l: Label, s': State) {
    Enabled(cfg, s, l) && s' == Apply(cfg, s, l)
  }

  /** What the segment after a successful send does to each part. */
  lemma SendOkParts(cfg: Config, s: State, pid: nat, t1: int, t2: int)
    requires pid in s.loop.procs && s.loop.procs[pid].Sending? && s.loop.procs[pid].conn in s.loop.conns
    ensures Enabled(cfg, s, SendOk(pid, t1, t2))
    ensures var job := s.loop.procs[pid].job;
            var reply := Reply(s.table, MarkDispatched(job.jobId, t1, t2));
            && CallOf(cfg, s, SendOk(pid, t1, t2)) == MarkDispatched(job.jobId, t1, t2)
            && EventOf(cfg, s, SendOk(pid, t1, t2)) ==
                 Some(EventRow(job.jobId, DispatchedEvent(if reply.Some? then reply.value.attempts else job.attempts)))
            && LoopNext(cfg, s, SendOk(pid, t1, t2)) == Finish(s.loop, pid)
            && AckNext(cfg, s, SendOk(pid, t1, t2)) == s.ack && TimerNext(s, SendOk(pid, t1, t2)) == s.timer
  {
  }

  /** What a registration does to each part. */
  lemma RegisterParts(cfg: Config, s: State, agent: AgentId, t: int)
    ensures Enabled(cfg, s, Register(agent, t)) && CallOf(cfg, s, Register(agent, t)) == NoCall
    ensures EventOf(cfg, s, Register(agent, t)) == None
    ensures LoopNext(cfg, s, Register(agent, t)) == Enter(Connect(s.loop, agent, t), agent)
    ensures AckNext(cfg, s, Register(agent, t)) == s.ack && TimerNext(s, Register(agent, t)) == s.timer
  {
  }

  /** What the segment that marks an expired job does to each part. */
  lemma MarkFiredParts(cfg: Config, s: State, ok: bool, t: int)
    requires HasDeadline(s.timer) && s.timer.firing
    ensures Enabled(cfg, s, TimerMark(ok, t))
    ensures var job := s.timer.worklist[s.timer.next];
            && CallOf(cfg, s, TimerMark(ok, t)) == MarkTimedOut(job.jobId, t)
            && EventOf(cfg, s, TimerMark(ok, t)) == Some(EventRow(job.jobId, TimedOutEvent))
            && AckNext(cfg, s, TimerMark(ok, t)) == s.ack
            && TimerNext(s, TimerMark(ok, t)) == TimerScanning(s.timer.worklist, s.timer.next + 1, false, None)
            && LoopNext(cfg, s, TimerMark(ok, t)) ==
                 if s.timer.conn.Some? then Deliver(s.loop, ok, CancelMessage(s.timer.conn.value, job.jobId)) else s.loop
  {
  }

  /** What the segment that handles a stale copy does to each part. */
  lemma AckTimeoutParts(cfg: Config, s: State, t1: int, t2: int)
    requires AckReady(s) && HasEntry(s.ack)
    ensures Enabled(cfg, s, AckHandle(t1, t2))
    ensures var job := s.ack.worklist[s.ack.next];
            var requeued := job.attempts < cfg.maxAttempts;
            && CallOf(cfg, s, AckHandle(t1, t2)) == AckCall(cfg, job, t1, t2)
            && EventOf(cfg, s, AckHandle(t1, t2)) ==
                 Some(EventRow(job.jobId, if requeued then RequeuedEvent(job.attempts) else NoAckEvent(job.attempts)))
            && AckNext(cfg, s, AckHandle(t1, t2)) ==
                 AckScanning(s.ack.worklist, s.ack.next + 1, if requeued then Some(s.loop.next) else None)
            && TimerNext(s, AckHandle(t1, t2)) == s.timer
            && LoopNext(cfg, s, AckHandle(t1, t2)) == if requeued then Enter(s.loop, job.agentId) else s.loop
  {
  }

  /** What the cancel operation answers before it waits. */
  datatype CancelOutcome = NotFound | Conflict(state: JobState) | Accepted(pid: nat)

  lemma EmptyTableOk()
    ensures TableOk(EMPTY_TABLE)
  {
  }

  class Server {
    const cfg: Config
    const db: SqliteJobRepository
    const service: JobService
    const events: EventRepository
    const gateway: Gateway
    var ack: AckScan
    var timer: TimerScan
    ghost var clock: int

    ghost function Repr(): set<object>
      reads gateway
    {
      {this, db, service, events} + gateway.Repr
    }

    ghost function Abs(): State
      reads this, db, events, gateway
    {
      State(db.Contents(), events.rows, gateway.loop, ack, timer, clock)
    }

    ghost predicate StoreOk()
      reads db
    {
      service.backend == Sqlite(db) && db.Valid() && TableOk(db.Contents())
    }

    ghost predicate Valid()
      reads db, gateway, gateway.registry, gateway.Objects()
    {
      StoreOk() && gateway.Valid() && gateway.Repr !! {this, db, service, events}
    }

    constructor (cfg: Config, db: SqliteJobRepository, service: JobService, events: EventRepository, gateway: Gateway)
      requires service.backend == Sqlite(db) && db.Valid() && TableOk(db.Contents())
      requires gateway.Valid() && gateway.Repr !! {db, service, events}
      ensures this.cfg == cfg && this.db == db && this.service == service && this.events == events
      ensures this.gateway == gateway && ack == AckIdle && timer == TimerIdle && clock == 0
      ensures Valid()
    {
      this.cfg, this.db, this.service, this.events, this.gateway := cfg, db, service, events, gateway;
      ack, timer, clock := AckIdle, TimerIdle, 0;
    }

    /** One JobService call. */
    method Ask(c: Call) returns (reply: Option<Row>)
      requires Valid() && FreshCall(db.Contents(), c)
      requires c.Submit? ==> IsNewRow(c.job)
      modifies db, service
      ensures Valid() && db.Contents() == Exec(old(db.Contents()), c) && reply == Reply(old(db.Contents()), c)
    {
      ExecKeepsTableOk(db.Contents(), c);
      assert service.Repr() == {db, service};
      reply := service.Perform(c);
    }

    /** A copy of one stored record. */
    method Find(id: JobId) returns (job: Option<Row>)
      requires Valid()
      ensures job == Stored(db.Contents(), id)
    {
      var found := service.Get(id);
      job := if found == null then None else Some(found.View());
    }

    /** One event row. */
    method Note(id: JobId, e: Event)
      requires Valid()
      modifies events
      ensures Valid() && events.rows == old(events.rows) + [EventRow(id, e)]
    {
      events.Append(id, e);
    }

    /** A call, and the event that reports it. */
    method AskAndNote(c: Call, id: JobId, e: Event) returns (reply: Option<Row>)
      requires Valid() && !c.Submit?
      modifies db, service, events
      ensures Valid() && db.Contents() == Exec(old(db.Contents()), c) && reply == Reply(old(db.Contents()), c)
      ensures events.rows == old(events.rows) + [EventRow(id, e)]
    {
      reply := Ask(c);
      Note(id, e);
    }

    /** After the send of a cancel message: the call that marks the job, and its event. */
    method SentThenAsk(ok: bool, conn: Option<nat>, c: Call, id: JobId, e: Event) returns (reply: Option<Row>)
      requires Valid() && !c.Submit?
      modifies db, service, events, gateway
      ensures Valid() && gateway.Repr == old(gateway.Repr)
      ensures db.Contents() == Exec(old(db.Contents()), c) && reply == Reply(old(db.Contents()), c)
      ensures events.rows == old(events.rows) + [EventRow(id, e)]
      ensures gateway.loop ==
                if conn.Some? then Deliver(old(gateway.loop), ok, CancelMessage(conn.value, id)) else old(gateway.loop)
      ensures gateway.sent ==
                if ok && conn.Some? then old(gateway.sent) + [CancelMessage(conn.value, id)] else old(gateway.sent)
    {
      gateway.DeliverCancel(ok, conn, id);
      reply := AskAndNote(c, id, e);
    }

    /** The end of a segment that did to each part what the transition system says. */
    ghost method Did(s0: State, l: Label)
      requires Valid() && Enabled(cfg, s0, l)
      requires db.Contents() == Exec(s0.table, CallOf(cfg, s0, l))
      requires events.rows == System.Append(s0.events, EventOf(cfg, s0, l))
      requires gateway.loop == LoopNext(cfg, s0, l)
      requires ack == AckNext(cfg, s0, l) && timer == TimerNext(s0, l) && clock == s0.clock
      modifies this`clock
      ensures Valid() && Step(cfg, s0, l, Abs())
    {
      clock := ClockNext(clock, l);
    }

    // ---------------------------------------------------------------- the API

    /** POST /jobs, up to the dispatch lock. A body that is not accepted is answered without a job. */
    method SubmitJob(agent: AgentId, request: string, timeoutMs: int, key: Option<Key>, priority: int,
                     id: JobId, created: int, updated: int)
      returns (jobId: Option<JobId>)
      requires Valid() && id !in db.rows
      modifies this`clock, db, service, events, gateway
      ensures Valid() && fresh(Repr() - old(Repr()))
      ensures var row := NewRow(id, agent, request, timeoutMs, key, priority, created, updated);
              if Accepts(row) then
                Step(cfg, old(Abs()), Label.SubmitJob(row), Abs()) && jobId == Some(OwnerId(old(db.Contents()), row))
              else
                jobId == None && Abs() == old(Abs())
      ensures jobId.Some? <==> agent.text != "" && timeoutMs > 0 && 0 <= priority <= 2
      ensures jobId.Some? && (key == None || key.value !in old(db.keys)) ==>
                jobId == Some(id) && id in db.rows &&
                var r := db.rows[id];
                && r.jobId == id
                && r.agentId == agent && r.request == request && r.timeoutMs == timeoutMs && r.key == key && r.priority == priority
                && r.createdAt == created && r.updatedAt == updated && r.state == Pending && r.attempts == 0
                && r.startedAt == None && r.finishedAt == None && r.exitCode == None && r.error == None
                && r.stdout == "" && r.stderr == ""
      ensures jobId.Some? && key.Some? && key.value in old(db.keys) ==>
                jobId == Some(old(db.keys)[key.value]) && db.Contents() == old(db.Contents())
    {
      ghost var s0 := Abs();
      var row := NewRow(id, agent, request, timeoutMs, key, priority, created, updated);
      if !Accepts(row) {
        return None;
      }
      var job := Ask(Submit(row));
      jobId := Some(job.value.jobId);
      Note(job.value.jobId, SubmittedEvent);
      var _ := Enter(agent);
      assert db.Contents() == Exec(s0.table, Submit(row));
      Did(s0, Label.SubmitJob(row));
    }

    /** dispatch_pending up to its first await. */
    method Enter(a: AgentId) returns (pid: nat)
      requires Valid()
      modifies gateway
      ensures Valid() && gateway.Repr == old(gateway.Repr)
      ensures gateway.loop == System.Enter(old(gateway.loop), a) && pid == old(gateway.loop).next
    {
      pid := gateway.EnterDispatch(a);
    }

    /** POST /jobs/{id}/cancel, up to the wait for the send: unknown and finished jobs are refused. */
    method CancelBegin(id: JobId) returns (outcome: CancelOutcome)
      requires Valid()
      modifies this`clock, gateway
      ensures Valid() && gateway.Repr == old(gateway.Repr)
      ensures outcome.NotFound? <==> id !in db.rows
      ensures outcome.Conflict? <==> id in db.rows && IsTerminal(db.rows[id].state)
      ensures outcome.Conflict? ==> outcome.state == db.rows[id].state
      ensures outcome.Accepted? ==> Step(cfg, old(Abs()), Label.CancelBegin(id), Abs()) && outcome.pid == old(gateway.next)
      ensures !outcome.Accepted? ==> Abs() == old(Abs())
      ensures outcome.Accepted? ==>
                outcome.pid in gateway.procs &&
                var p, agents := gateway.procs[outcome.pid], gateway.registry.agents;
                && p.Cancelling? && p.job == db.rows[id]
                && p.cancelConn == if p.job.agentId in agents then Some(agents[p.job.agentId].name) else None
    {
      ghost var s0 := Abs();
      var job := Find(id);
      if job.None? {
        return NotFound;
      }
      if IsTerminal(job.value.state) {
        return Conflict(job.value.state);
      }
      var conn := gateway.Lookup(job.value.agentId);
      var pid := gateway.Suspend(Cancelling(job.value, conn));
      outcome := Accepted(pid);
      Did(s0, Label.CancelBegin(id));
    }

    /** The rest of a cancel; the answer is the state the job has then. */
    method CancelEnd(pid: nat, ok: bool, t: int) returns (state: JobState)
      requires Valid() && pid in gateway.procs && gateway.procs[pid].Cancelling?
      modifies this`clock, db, service, events, gateway
      ensures Valid() && gateway.Repr == old(gateway.Repr)
      ensures Step(cfg, old(Abs()), Label.CancelEnd(pid, ok, t), Abs())
      ensures var job := old(gateway.procs[pid]).job;
              state == if job.jobId in db.rows then db.rows[job.jobId].state else job.state
      ensures var p := old(gateway.procs[pid]);
              gateway.sent == if ok && p.cancelConn.Some? then
                                old(gateway.sent) + [CancelMessage(p.cancelConn.value, p.job.jobId)]
                              else old(gateway.sent)
    {
      ghost var s0 := Abs();
      var p := gateway.procs[pid];
      gateway.Leave(pid);
      var updated := SentThenAsk(ok, p.cancelConn, MarkCancelled(p.job.jobId, t), p.job.jobId, CancelledEvent);
      state := if updated.Some? then updated.value.state else p.job.state;
      Did(s0, Label.CancelEnd(pid, ok, t));
    }

    // ---------------------------------------------------------------- messages from agents

    method OnRegister(agent: AgentId, t: int)
      requires Valid()
      modifies this`clock, gateway, gateway.registry
      ensures Valid() && fresh(gateway.Repr - old(gateway.Repr))
      ensures Step(cfg, old(Abs()), Register(agent, t), Abs())
    {
      ghost var s0 := Abs();
      gateway.Admit(agent, t);
      assert StoreOk() && db.Contents() == s0.table;
      RegisterParts(cfg, s0, agent, t);
      Did(s0, Register(agent, t));
    }

    /** Acks and reconcile messages only leave a trace. */
    method OnAckOrReconcile(id: JobId, ack: bool)
      requires Valid()
      modifies this`clock, events
      ensures Valid() && Step(cfg, old(Abs()), Label.Note(id, ack), Abs())
      ensures ack ==> events.rows == old(events.rows) + [EventRow(id, AckEvent)]
      ensures !ack ==> events.rows == old(events.rows) + [EventRow(id, ReconciledEvent)]
    {
      ghost var s0 := Abs();
      Note(id, if ack then AckEvent else ReconciledEvent);
      Did(s0, Label.Note(id, ack));
    }

    method OnStarted(id: JobId, t: int)
      requires Valid()
      modifies this`clock, db, service, events
      ensures Valid() && Step(cfg, old(Abs()), Started(id, t), Abs())
    {
      ghost var s0 := Abs();
      var job := Ask(MarkRunning(id, t));
      if job.Some? {
        Note(id, StartedEvent(job.value.state));
      }
      Did(s0, Started(id, t));
    }

    /** The store's part of a result. */
    method StoreResult(id: JobId, exit: int, out: string, err: string, error: Option<string>, t: int)
      requires Valid()
      modifies db, service, events
      ensures Valid() && db.Contents() == Exec(old(db.Contents()), ResultCall(id, exit, out, err, error, t))
      ensures var reply := Reply(old(db.Contents()), ResultCall(id, exit, out, err, error, t));
              events.rows == old(events.rows) +
                if reply.Some? then [EventRow(id, ResultEvent(reply.value.state, reply.value.exitCode))] else []
    {
      var job: Option<Row>;
      if error.Some? && error.value != "" {
        job := Ask(MarkFailed(id, exit, out, err, Some(Reported(error.value)), t));
      } else if exit == 0 {
        job := Ask(MarkSucceeded(id, exit, out, err, t));
      } else {
        job := Ask(MarkFailed(id, exit, out, err, None, t));
      }
      if job.Some? {
        Note(id, ResultEvent(job.value.state, job.value.exitCode));
      }
    }

    /** A result frees whatever connection its session's agent has, and dispatches the next job there. */
    method OnResult(session: Option<AgentId>, id: JobId, exit: int, out: string, err: string, error: Option<string>, t: int)
      requires Valid()
      modifies Repr()
      ensures Valid() && gateway.Repr == old(gateway.Repr)
      ensures Step(cfg, old(Abs()), Result(session, id, exit, out, err, error, t), Abs())
    {
      ghost var s0 := Abs();
      StoreResult(id, exit, out, err, error, t);
      if session.Some? && Truthy(session.value) {
        gateway.FreeSession(session.value);
        var _ := gateway.EnterDispatch(session.value);
      }
      Did(s0, Result(session, id, exit, out, err, error, t));
    }

    method OnHeartbeat(session: Option<AgentId>, t: int)
      requires Valid()
      modifies this`clock, gateway.Repr
      ensures Valid() && gateway.Repr == old(gateway.Repr)
      ensures Step(cfg, old(Abs()), Heartbeat(session, t), Abs())
      ensures gateway.registry == old(gateway.registry) && gateway.registry.agents == old(gateway.registry.agents)
      ensures forall a :: a in gateway.registry.agents ==>
                gateway.registry.agents[a].lastHeartbeat ==
                  if session == Some(a) then t else old(gateway.registry.agents[a].lastHeartbeat)
    {
      ghost var s0 := Abs();
      if session.Some? {
        gateway.Touch(session.value, t);
      }
      Did(s0, Heartbeat(session, t));
    }

    // ---------------------------------------------------------------- dispatch_pending

    /** The lock is acquired: check the connection, list, sort, pick, and start to send. */
    method AcquireAndPick(pid: nat) returns (pick: Option<JobId>)
      requires Valid() && pid in gateway.procs && gateway.procs[pid].Waiting?
      requires gateway.procs[pid].lock !in gateway.held
      modifies this`clock, gateway
      ensures Valid() && gateway.Repr == old(gateway.Repr)
      ensures Step(cfg, old(Abs()), Acquire(pid, pick), Abs())
      ensures pick.Some? ==>
                var a := old(gateway.procs[pid]).agent;
                && pick.value in db.rows && db.rows[pick.value].state == Pending
                && (a.text == "" || db.rows[pick.value].agentId == a)
                && forall id :: id in db.rows && db.rows[id].state == Pending && (a.text == "" || db.rows[id].agentId == a) ==>
                     || db.rows[id].priority > db.rows[pick.value].priority
                     || (db.rows[id].priority == db.rows[pick.value].priority
                         && db.rows[id].createdAt >= db.rows[pick.value].createdAt)
    {
      ghost var s0 := Abs();
      var agent := gateway.procs[pid].agent;
      var conn := gateway.IdleConnection(agent);
      var first := FirstPending(agent);
      pick := StartOrLeave(pid, conn, first);
      if pick.Some? {
        MostUrgent(db.Contents(), agent, pick.value);
      }
      Did(s0, Acquire(pid, pick));
    }

    method StartOrLeave(pid: nat, conn: Option<nat>, job: Option<Row>) returns (pick: Option<JobId>)
      requires Valid() && pid in gateway.procs && gateway.procs[pid].Waiting?
      requires conn.Some? ==> conn.value in gateway.connections
      modifies gateway
      ensures Valid() && gateway.Repr == old(gateway.Repr)
      ensures if conn.Some? && job.Some? then
                pick == Some(job.value.jobId) && gateway.loop == StartSend(old(gateway.loop), pid, conn.value, job.value)
              else pick == None && gateway.loop == Leave(old(gateway.loop), pid)
    {
      if conn.Some? && job.Some? {
        gateway.StartSend(pid, conn.value, job.value);
        pick := Some(job.value.jobId);
      } else {
        gateway.Leave(pid);
        pick := None;
      }
    }

    /** The first of the agent's pending jobs, by priority and age. */
    method FirstPending(agent: AgentId) returns (first: Option<Row>)
      requires Valid()
      ensures first.None? <==> NoCandidate(db.Contents(), agent)
      ensures first.Some? ==> IsFirst(db.Contents(), agent, first.value.jobId) && db.rows[first.value.jobId] == first.value
      ensures first.Some? ==>
                var p := first.value;
                && p.state == Pending && (agent.text == "" || p.agentId == agent)
                && forall id :: id in db.rows && db.rows[id].state == Pending
                                && (agent.text == "" || db.rows[id].agentId == agent) ==>
                     || db.rows[id].priority > p.priority
                     || (db.rows[id].priority == p.priority && db.rows[id].createdAt >= p.createdAt)
    {
      var pending := service.List(Some(agent), Some(Pending));
      PermutationIsListed(db.Contents(), Some(agent), Some(Pending), Views(pending));
      FirstOfPending(db.Contents(), agent, Views(pending));
      SortJobsByView(ByPriority, pending);
      var sorted := SortJobs(ByPriority, pending);
      assert |multiset(sorted)| == |multiset(pending)|;
      first := if sorted == [] then None else Some(sorted[0].View());
      if first.Some? {
        MostUrgent(db.Contents(), agent, first.value.jobId);
      }
    }

    /** The send succeeded: count the job on the connection, count the attempt, and say so. */
    method SendSucceeded(pid: nat, t1: int, t2: int)
      requires Valid() && pid in gateway.procs && gateway.procs[pid].Sending?
      modifies Repr()
      ensures Valid() && gateway.Repr == old(gateway.Repr)
      ensures Step(cfg, old(Abs()), SendOk(pid, t1, t2), Abs())
    {
      ghost var s0 := Abs();
      FinishAndCount(pid, t1, t2);
      SendOkParts(cfg, s0, pid, t1, t2);
      Did(s0, SendOk(pid, t1, t2));
    }

    /** The connection's part and the store's part. */
    method FinishAndCount(pid: nat, t1: int, t2: int)
      requires Valid() && pid in gateway.procs && gateway.procs[pid].Sending?
      modifies db, service, events, gateway.Repr
      ensures Valid() && gateway.Repr == old(gateway.Repr)
      ensures gateway.loop == Finish(old(gateway.loop), pid)
      ensures var id := old(gateway.procs[pid]).job.jobId;
              db.Contents() == Exec(old(db.Contents()), MarkDispatched(id, t1, t2))
      ensures var job := old(gateway.procs[pid]).job;
              var reply := Reply(old(db.Contents()), MarkDispatched(job.jobId, t1, t2));
              events.rows == old(events.rows) +
                [EventRow(job.jobId, DispatchedEvent(if reply.Some? then reply.value.attempts else job.attempts))]
    {
      var job := gateway.procs[pid].job;
      gateway.Finish(pid);
      assert db.Contents() == old(db.Contents());
      CountAttempt(job, t1, t2);
    }

    /** The store's part of a successful send. */
    method CountAttempt(job: Row, t1: int, t2: int)
      requires Valid()
      modifies db, service, events
      ensures Valid() && db.Contents() == Exec(old(db.Contents()), MarkDispatched(job.jobId, t1, t2))
      ensures var reply := Reply(old(db.Contents()), MarkDispatched(job.jobId, t1, t2));
              events.rows == old(events.rows) +
                [EventRow(job.jobId, DispatchedEvent(if reply.Some? then reply.value.attempts else job.attempts))]
    {
      var updated := Ask(MarkDispatched(job.jobId, t1, t2));
      Note(job.jobId, DispatchedEvent(if updated.Some? then updated.value.attempts else job.attempts));
    }

    method SendFailure(pid: nat)
      requires Valid() && pid in gateway.procs && gateway.procs[pid].Sending?
      modifies this`clock, gateway
      ensures Valid() && gateway.Repr == old(gateway.Repr)
      ensures Step(cfg, old(Abs()), SendFailed(pid), Abs())
    {
      ghost var s0 := Abs();
      gateway.Release(pid);
      Did(s0, SendFailed(pid));
    }

    /** The cleanup of a connection whose session had registered, or had not. */
    method OnDisconnect(session: Option<AgentId>)
      requires Valid()
      modifies this`clock, gateway, gateway.registry
      ensures Valid() && gateway.Repr == old(gateway.Repr)
      ensures if session.Some? && Truthy(session.value) then Step(cfg, old(Abs()), Disconnect(session.value), Abs())
              else Abs() == old(Abs())
    {
      ghost var s0 := Abs();
      if session.Some? && Truthy(session.value) {
        gateway.Disconnect(session.value);
        Did(s0, Disconnect(session.value));
      }
    }

    method ScanHeartbeats(cutoff: int)
      requires Valid()
      modifies this`clock, gateway, gateway.registry
      ensures Valid() && gateway.Repr == old(gateway.Repr)
      ensures Step(cfg, old(Abs()), HeartbeatSweep(cutoff), Abs())
      ensures gateway.registry == old(gateway.registry)
      ensures var agents := old(gateway.registry.agents);
              gateway.registry.agents ==
                map a | a in agents && old(gateway.registry.agents[a].lastHeartbeat) >= cutoff :: agents[a]
    {
      ghost var s0 := Abs();
      gateway.Sweep(cutoff);
      Did(s0, HeartbeatSweep(cutoff));
    }

    method RestartServer()
      requires Valid()
      modifies this`ack, this`timer, this`clock, gateway
      ensures Valid() && fresh(gateway.Repr - old(gateway.Repr))
      ensures Step(cfg, old(Abs()), Restart, Abs())
    {
      ghost var s0 := Abs();
      gateway.Restart();
      ack, timer := AckIdle, TimerIdle;
      Did(s0, Restart);
    }

    // ---------------------------------------------------------------- the ack watcher

    /** Copies of the rows a scan has to handle. */
    method Overdue(w: Watch) returns (due: seq<Row>)
      requires Valid()
      ensures Snapshot(cfg, w, db.Contents(), due)
    {
      var jobs := service.List(None, Some(Watched(w)));
      PermutationIsListed(db.Contents(), None, Some(Watched(w)), Views(jobs));
      due := CollectDue(cfg, w, Views(jobs));
      DueIsSnapshot(cfg, w, db.Contents(), Views(jobs), due);
    }

    method AckScanBegin(now: int) returns (worklist: seq<Row>)
      requires Valid() && ack.AckIdle?
      modifies this`ack, this`clock
      ensures Valid() && Step(cfg, old(Abs()), AckBegin(now, worklist), Abs())
      ensures ack.AckScanning? && ack.worklist == worklist
      ensures forall k :: 0 <= k < |worklist| ==>
                worklist[k].jobId in db.rows && db.rows[worklist[k].jobId] == worklist[k]
      ensures forall id :: (exists k :: 0 <= k < |worklist| && worklist[k].jobId == id) <==>
                id in db.rows && db.rows[id].state == Dispatched && now - db.rows[id].updatedAt > cfg.ackTimeout
    {
      ghost var s0 := Abs();
      worklist := Overdue(AckWatch(now));
      AckWorklist(cfg, db.Contents(), now, worklist);
      ack := AckScanning(worklist, 0, None);
      Did(s0, AckBegin(now, worklist));
    }

    /** Handle the next stale copy: give up, or requeue and wait for a dispatch. */
    method OnAckTimeout(t1: int, t2: int)
      requires Valid() && AckReady(Abs()) && HasEntry(ack)
      modifies this`ack, this`clock, db, service, events, gateway
      ensures Valid() && gateway.Repr == old(gateway.Repr)
      ensures Step(cfg, old(Abs()), AckHandle(t1, t2), Abs())
    {
      if ack.worklist[ack.next].attempts >= cfg.maxAttempts {
        GiveUpOnEntry(t1, t2);
      } else {
        RequeueEntry(t1, t2);
      }
    }

    method GiveUpOnEntry(t1: int, t2: int)
      requires Valid() && AckReady(Abs()) && HasEntry(ack) && ack.worklist[ack.next].attempts >= cfg.maxAttempts
      modifies this`ack, this`clock, db, service, events
      ensures Valid() && Step(cfg, old(Abs()), AckHandle(t1, t2), Abs())
    {
      ghost var s0 := Abs();
      var job := ack.worklist[ack.next];
      var _ := AskAndNote(FailStale(job.jobId, NoAck(cfg.maxAttempts), t1, t2), job.jobId, NoAckEvent(job.attempts));
      ack := AckScanning(ack.worklist, ack.next + 1, None);
      AckTimeoutParts(cfg, s0, t1, t2);
      Did(s0, AckHandle(t1, t2));
    }

    method RequeueAndEnter(job: Row, t: int) returns (pid: nat)
      requires Valid()
      modifies db, service, events, gateway
      ensures Valid() && gateway.Repr == old(gateway.Repr) && pid == old(gateway.loop).next
      ensures db.Contents() == Exec(old(db.Contents()), Requeue(job.jobId, t))
      ensures events.rows == old(events.rows) + [EventRow(job.jobId, RequeuedEvent(job.attempts))]
      ensures gateway.loop == System.Enter(old(gateway.loop), job.agentId)
    {
      var _ := AskAndNote(Requeue(job.jobId, t), job.jobId, RequeuedEvent(job.attempts));
      pid := Enter(job.agentId);
    }

    method RequeueEntry(t1: int, t2: int)
      requires Valid() && AckReady(Abs()) && HasEntry(ack) && ack.worklist[ack.next].attempts < cfg.maxAttempts
      modifies this`ack, this`clock, db, service, events, gateway
      ensures Valid() && gateway.Repr == old(gateway.Repr)
      ensures Step(cfg, old(Abs()), AckHandle(t1, t2), Abs())
    {
      ghost var s0 := Abs();
      var job := ack.worklist[ack.next];
      var pid := RequeueAndEnter(job, t1);
      ack := AckScanning(ack.worklist, ack.next + 1, Some(pid));
      AckTimeoutParts(cfg, s0, t1, t2);
      Did(s0, AckHandle(t1, t2));
    }

    method AckScanEnd()
      requires Valid() && AckReady(Abs()) && !HasEntry(ack)
      modifies this`ack, this`clock
      ensures Valid() && Step(cfg, old(Abs()), AckEnd, Abs())
    {
      ghost var s0 := Abs();
      ack := AckIdle;
      Did(s0, AckEnd);
    }

    // ---------------------------------------------------------------- the timeout watcher

    method TimeoutScanBegin(now: int) returns (worklist: seq<Row>)
      requires Valid() && timer.TimerIdle?
      modifies this`timer, this`clock
      ensures Valid() && Step(cfg, old(Abs()), TimerBegin(now, worklist), Abs())
      ensures timer.TimerScanning? && timer.worklist == worklist
      ensures forall k :: 0 <= k < |worklist| ==>
                worklist[k].jobId in db.rows && db.rows[worklist[k].jobId] == worklist[k]
      ensures forall id :: (exists k :: 0 <= k < |worklist| && worklist[k].jobId == id) <==>
                && id in db.rows && db.rows[id].state == Running
                && db.rows[id].startedAt.Some? && now - db.rows[id].startedAt.value > db.rows[id].timeoutMs
    {
      ghost var s0 := Abs();
      worklist := Overdue(TimerWatch(now));
      TimerWorklist(cfg, db.Contents(), now, worklist);
      timer := TimerScanning(worklist, 0, false, None);
      Did(s0, TimerBegin(now, worklist));
    }

    /** Start to cancel the next expired job. */
    method Fire()
      requires Valid() && HasDeadline(timer) && !timer.firing
      modifies this`timer, this`clock
      ensures Valid() && Step(cfg, old(Abs()), TimerFire, Abs())
      ensures timer.TimerScanning? && timer.firing && HasDeadline(timer)
      ensures var a, agents := timer.worklist[timer.next].agentId, gateway.registry.agents;
              timer.conn == if a in agents then Some(agents[a].name) else None
    {
      ghost var s0 := Abs();
      var conn := gateway.Lookup(timer.worklist[timer.next].agentId);
      timer := timer.(firing := true, conn := conn);
      Did(s0, TimerFire);
    }

    /** The cancel was sent, or not: mark the job in any case. */
    method MarkFired(ok: bool, t: int)
      requires Valid() && HasDeadline(timer) && timer.firing
      modifies this`timer, this`clock, db, service, events, gateway
      ensures Valid() && gateway.Repr == old(gateway.Repr)
      ensures Step(cfg, old(Abs()), TimerMark(ok, t), Abs())
      ensures var scan := old(timer);
              gateway.sent == if ok && scan.conn.Some? then
                                old(gateway.sent) + [CancelMessage(scan.conn.value, scan.worklist[scan.next].jobId)]
                              else old(gateway.sent)
    {
      ghost var s0 := Abs();
      var job := timer.worklist[timer.next];
      var _ := SentThenAsk(ok, timer.conn, MarkTimedOut(job.jobId, t), job.jobId, TimedOutEvent);
      MarkFiredParts(cfg, s0, ok, t);
      assert gateway.loop == LoopNext(cfg, s0, TimerMark(ok, t));
      timer := TimerScanning(timer.worklist, timer.next + 1, false, None);
      Did(s0, TimerMark(ok, t));
    }

    method TimeoutScanEnd()
      requires Valid() && timer.TimerScanning? && !HasDeadline(timer)
      modifies this`timer, this`clock
      ensures Valid() && Step(cfg, old(Abs()), TimerEnd, Abs())
    {
      ghost var s0 := Abs();
      timer := TimerIdle;
      Did(s0, TimerEnd);
    }
  }

  /** The components of a server but for the log broker and the log table, wired together. */
  method BuildServer(cfg: Config) returns (server: Server)
    ensures server.Valid() && server.cfg == cfg && server.Abs() == INITIAL
    ensures fresh(server) && fresh(server.db) && fresh(server.service) && fresh(server.events)
    ensures server.gateway.Repr == {server.gateway, server.gateway.registry}
    ensures fresh(server.gateway) && fresh(server.gateway.registry)
  {
    EmptyTableOk();
    var gateway := new Gateway();
    var db := new SqliteJobRepository();
    var service := new JobService(Sqlite(db));
    var events := new EventRepository();
    server := new Server(cfg, db, service, events, gateway);
  }
}
