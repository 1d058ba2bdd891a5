/**
 How connections, locks and suspended coroutines hang together, in every run, and what follows for routing:
 a message never travels on a connection of another agent.
 */
module Wiring {
  import opened Jobs
  import opened Store
  import opened System
  import opened Watchers

  predicate Known(t: Table, job: Row) {
    job.jobId in t.rows && t.rows[job.jobId].agentId == job.agentId
  }

  predicate ConnOf(k: Loop, c: nat, a: AgentId) {
    c in k.conns && k.conns[c].agentId == a
  }

  /** A coroutine in the send holds its lock, and sends its agent's job on its agent's connection. */
  predicate ProcOk(t: Table, k: Loop, pid: nat) {
    pid in k.procs && pid < k.next &&
    match k.procs[pid]
    case Waiting(_, lock) => lock < k.next
    case Sending(agent, lock, conn, job) =>
      && lock in k.held && k.held[lock] == pid && lock < k.next
      && ConnOf(k, conn, agent) && Known(t, job) && (Truthy(agent) ==> job.agentId == agent)
    case Cancelling(job, conn) => Known(t, job) && (conn.Some? ==> ConnOf(k, conn.value, job.agentId))
  }

  ghost predicate ProcsOk(t: Table, k: Loop) {
    forall pid :: pid in k.procs ==> ProcOk(t, k, pid)
  }

  predicate HolderOk(k: Loop, lock: nat) {
    lock in k.held && k.held[lock] in k.procs
    && k.procs[k.held[lock]].Sending? && k.procs[k.held[lock]].lock == lock
  }

  ghost predicate NamesOk(k: Loop) {
    && (forall l :: l in k.held ==> HolderOk(k, l))
    && (forall c :: c in k.conns ==> c < k.next)
    && (forall a :: a in k.locks ==> k.locks[a] < k.next)
    && (forall a :: a in k.registry ==> ConnOf(k, k.registry[a], a))
  }

  ghost predicate TimerOk(t: Table, k: Loop, timer: TimerScan) {
    timer.TimerScanning? ==>
      && (forall i :: 0 <= i < |timer.worklist| ==> Known(t, timer.worklist[i]))
      && (timer.firing && timer.conn.Some? && HasDeadline(timer) ==>
            ConnOf(k, timer.conn.value, timer.worklist[timer.next].agentId))
      && (!timer.firing ==> timer.conn.None?)
  }

  /** A message for a job is on a connection of the job's agent. The one exception is a job message on a
      connection that registered with an empty agent id, which the job filter treats as no filter. */
  predicate Routed(t: Table, k: Loop, m: Message) {
    && m.conn in k.conns && m.job in t.rows
    && (k.conns[m.conn].agentId == t.rows[m.job].agentId || (m.JobMessage? && !Truthy(k.conns[m.conn].agentId)))
  }

  ghost predicate SentOk(t: Table, k: Loop) {
    forall i :: 0 <= i < |k.sent| ==> Routed(t, k, k.sent[i])
  }

  ghost predicate LoopOk(t: Table, k: Loop) {
    ProcsOk(t, k) && NamesOk(k) && SentOk(t, k)
  }

  ghost predicate WiringInv(s: State) {
    LoopOk(s.table, s.loop) && TimerOk(s.table, s.loop, s.timer)
  }

  /** Coroutines and locks in use are older than the counter of names. */
  predicate NamesAreOld(k: Loop) {
    && (forall pid :: pid in k.procs ==> pid < k.next)
    && (forall pid :: pid in k.procs && !k.procs[pid].Cancelling? ==> k.procs[pid].lock < k.next)
    && (forall a :: a in k.locks ==> k.locks[a] < k.next)
    && (forall l :: l in k.held ==> l < k.next)
  }

  lemma LoopIsOld(t: Table, k: Loop)
    requires LoopOk(t, k)
    ensures NamesAreOld(k)
  {
    forall pid | pid in k.procs
      ensures pid < k.next && (!k.procs[pid].Cancelling? ==> k.procs[pid].lock < k.next)
    {
      assert ProcOk(t, k, pid);
    }
    forall l | l in k.held ensures l < k.next {
      assert HolderOk(k, l) && ProcOk(t, k, k.held[l]);
    }
  }

  // ---------------------------------------------------------------- building blocks

  /** Changes that keep every connection's agent, every holder and every coroutine the later loop still has. */
  ghost predicate Extends(k: Loop, k': Loop) {
    && k.next <= k'.next
    && (forall c :: c in k.conns ==> ConnOf(k', c, k.conns[c].agentId))
  }

  lemma ExtendsKeepsSent(t: Table, k: Loop, k': Loop)
    requires SentOk(t, k) && Extends(k, k') && k'.sent == k.sent
    ensures SentOk(t, k')
  {
    forall i | 0 <= i < |k'.sent| ensures Routed(t, k', k'.sent[i]) {
      assert Routed(t, k, k.sent[i]);
    }
  }

  lemma ExtendsKeepsProc(t: Table, k: Loop, k': Loop, pid: nat)
    requires ProcOk(t, k, pid) && Extends(k, k') && pid in k'.procs && k'.procs[pid] == k.procs[pid]
    requires k.procs[pid].Sending? ==> k.procs[pid].lock in k'.held && k'.held[k.procs[pid].lock] == pid
    ensures ProcOk(t, k', pid)
  {
  }

  lemma EnterKeeps(t: Table, k: Loop, a: AgentId)
    requires LoopOk(t, k)
    ensures LoopOk(t, Enter(k, a)) && Extends(k, Enter(k, a))
  {
    var k' := Enter(k, a);
    ExtendsKeepsSent(t, k, k');
    forall pid | pid in k'.procs ensures ProcOk(t, k', pid) {
      if pid in k.procs {
        assert ProcOk(t, k, pid);
        ExtendsKeepsProc(t, k, k', pid);
      }
    }
    forall l | l in k'.held ensures HolderOk(k', l) {
      assert HolderOk(k, l) && ProcOk(t, k, k.held[l]);
    }
  }

  lemma SuspendKeeps(t: Table, k: Loop, p: Proc)
    requires LoopOk(t, k) && p.Cancelling? && Known(t, p.job)
    requires p.cancelConn.Some? ==> ConnOf(k, p.cancelConn.value, p.job.agentId)
    ensures LoopOk(t, Suspend(k, p)) && Extends(k, Suspend(k, p))
  {
    var k' := Suspend(k, p);
    ExtendsKeepsSent(t, k, k');
    forall pid | pid in k'.procs ensures ProcOk(t, k', pid) {
      if pid in k.procs {
        assert ProcOk(t, k, pid);
        ExtendsKeepsProc(t, k, k', pid);
      }
    }
    forall l | l in k'.held ensures HolderOk(k', l) {
      assert HolderOk(k, l) && ProcOk(t, k, k.held[l]);
    }
  }

  lemma LeaveKeeps(t: Table, k: Loop, pid: nat)
    requires LoopOk(t, k) && pid in k.procs && !k.procs[pid].Sending?
    ensures LoopOk(t, Leave(k, pid)) && Extends(k, Leave(k, pid))
  {
    var k' := Leave(k, pid);
    ExtendsKeepsSent(t, k, k');
    forall q | q in k'.procs ensures ProcOk(t, k', q) {
      assert ProcOk(t, k, q);
      ExtendsKeepsProc(t, k, k', q);
    }
    forall l | l in k'.held ensures HolderOk(k', l) {
      assert HolderOk(k, l);
    }
  }

  lemma ReleaseKeeps(t: Table, k: Loop, pid: nat)
    requires LoopOk(t, k) && pid in k.procs && k.procs[pid].Sending?
    ensures LoopOk(t, Release(k, pid)) && Extends(k, Release(k, pid))
  {
    var k' := Release(k, pid);
    ExtendsKeepsSent(t, k, k');
    assert ProcOk(t, k, pid);
    forall q | q in k'.procs ensures ProcOk(t, k', q) {
      assert ProcOk(t, k, q);
      ExtendsKeepsProc(t, k, k', q);
    }
    forall l | l in k'.held ensures HolderOk(k', l) {
      assert HolderOk(k, l);
    }
  }

  lemma SetConnKeeps(t: Table, k: Loop, c: nat, v: Conn)
    requires LoopOk(t, k) && c in k.conns && v.agentId == k.conns[c].agentId
    ensures LoopOk(t, SetConn(k, c, v)) && Extends(k, SetConn(k, c, v))
  {
    var k' := SetConn(k, c, v);
    ExtendsKeepsSent(t, k, k');
    forall q | q in k'.procs ensures ProcOk(t, k', q) {
      assert ProcOk(t, k, q);
      ExtendsKeepsProc(t, k, k', q);
    }
    forall l | l in k'.held ensures HolderOk(k', l) {
      assert HolderOk(k, l);
    }
  }

  lemma ConnectKeeps(t: Table, k: Loop, a: AgentId, time: int)
    requires LoopOk(t, k)
    ensures LoopOk(t, Connect(k, a, time)) && Extends(k, Connect(k, a, time))
  {
    var k' := Connect(k, a, time);
    ExtendsKeepsSent(t, k, k');
    forall q | q in k'.procs ensures ProcOk(t, k', q) {
      assert ProcOk(t, k, q);
      ExtendsKeepsProc(t, k, k', q);
    }
    forall l | l in k'.held ensures HolderOk(k', l) {
      assert HolderOk(k, l);
    }
  }

  lemma DeliverKeeps(t: Table, k: Loop, ok: bool, m: Message)
    requires LoopOk(t, k) && Routed(t, k, m)
    ensures LoopOk(t, Deliver(k, ok, m)) && Extends(k, Deliver(k, ok, m))
  {
    var k' := Deliver(k, ok, m);
    forall q | q in k'.procs ensures ProcOk(t, k', q) {
      assert ProcOk(t, k, q);
      ExtendsKeepsProc(t, k, k', q);
    }
    forall l | l in k'.held ensures HolderOk(k', l) {
      assert HolderOk(k, l);
    }
    forall i | 0 <= i < |k'.sent| ensures Routed(t, k', k'.sent[i]) {
      if i < |k.sent| {
        assert Routed(t, k, k.sent[i]);
      }
    }
  }

  lemma StartSendKeeps(t: Table, k: Loop, pid: nat, pick: JobId)
    requires LoopOk(t, k) && IdsOk(t) && pid in k.procs && k.procs[pid].Waiting? && k.procs[pid].lock !in k.held
    requires k.procs[pid].agent in k.registry && pick in t.rows && Candidate(k.procs[pid].agent, t.rows[pick])
    ensures var k' := StartSend(k, pid, k.registry[k.procs[pid].agent], t.rows[pick]);
            LoopOk(t, k') && Extends(k, k')
  {
    var p := k.procs[pid];
    var k' := StartSend(k, pid, k.registry[p.agent], t.rows[pick]);
    ExtendsKeepsSent(t, k, k');
    assert ProcOk(t, k, pid) && ConnOf(k, k.registry[p.agent], p.agent);
    forall q | q in k'.procs ensures ProcOk(t, k', q) {
      assert ProcOk(t, k, q);
      if q != pid {
        ExtendsKeepsProc(t, k, k', q);
      }
    }
    forall l | l in k'.held ensures HolderOk(k', l) {
      assert l in k.held ==> HolderOk(k, l);
    }
  }

  /** Forgetting registrations and lock entries, or everything that lives in memory, keeps the wiring. */
  lemma ForgetKeeps(t: Table, k: Loop, registry: map<AgentId, nat>, locks: map<AgentId, nat>)
    requires LoopOk(t, k)
    requires forall a :: a in registry ==> a in k.registry && registry[a] == k.registry[a]
    requires forall a :: a in locks ==> a in k.locks && locks[a] == k.locks[a]
    ensures var k' := k.(registry := registry, locks := locks); LoopOk(t, k') && Extends(k, k')
  {
    var k' := k.(registry := registry, locks := locks);
    ExtendsKeepsSent(t, k, k');
    forall q | q in k'.procs ensures ProcOk(t, k', q) {
      assert ProcOk(t, k, q);
      ExtendsKeepsProc(t, k, k', q);
    }
    forall l | l in k'.held ensures HolderOk(k', l) {
      assert HolderOk(k, l);
    }
  }

  lemma RestartKeeps(t: Table, k: Loop)
    requires LoopOk(t, k)
    ensures var k' := k.(registry := map[], locks := map[], held := map[], procs := map[]);
            LoopOk(t, k') && Extends(k, k')
  {
    ExtendsKeepsSent(t, k, k.(registry := map[], locks := map[], held := map[], procs := map[]));
  }

  ghost predicate Grows(t: Table, t': Table) {
    forall id :: id in t.rows ==> id in t'.rows && t'.rows[id].agentId == t.rows[id].agentId
  }

  lemma GrowthKeeps(t: Table, t': Table, k: Loop)
    requires LoopOk(t, k) && Grows(t, t')
    ensures LoopOk(t', k)
  {
    forall q | q in k.procs ensures ProcOk(t', k, q) {
      assert ProcOk(t, k, q);
    }
    forall i | 0 <= i < |k.sent| ensures Routed(t', k, k.sent[i]) {
      assert Routed(t, k, k.sent[i]);
    }
  }

  lemma ExecGrows(t: Table, c: Call)
    requires FreshCall(t, c)
    ensures Grows(t, Exec(t, c))
  {
  }

  // ---------------------------------------------------------------- every segment

  lemma LoopKept(cfg: Config, s: State, l: Label)
    requires WiringInv(s) && IdsOk(s.table) && Enabled(cfg, s, l)
    ensures LoopOk(s.table, LoopNext(cfg, s, l)) && Extends(s.loop, LoopNext(cfg, s, l))
  {
    var t, k := s.table, s.loop;
    match l
    case SubmitJob(job) => EnterKeeps(t, k, job.agentId);
    case CancelBegin(id) =>
      var agent := t.rows[id].agentId;
      assert agent in k.registry ==> ConnOf(k, k.registry[agent], agent);
      SuspendKeeps(t, k, Cancelling(t.rows[id], Lookup(k, agent)));
    case CancelEnd(pid, ok, _) =>
      assert ProcOk(t, k, pid);
      var p := k.procs[pid];
      LeaveKeeps(t, k, pid);
      if p.cancelConn.Some? {
        DeliverKeeps(t, Leave(k, pid), ok, CancelMessage(p.cancelConn.value, p.job.jobId));
      }
    case Register(a, time) =>
      ConnectKeeps(t, k, a, time);
      EnterKeeps(t, Connect(k, a, time), a);
    case Result(session, _, _, _, _, _, _) =>
      if session.Some? && Truthy(session.value) {
        FreeSessionKeeps(t, k, session.value);
        EnterKeeps(t, FreeSession(k, session.value), session.value);
      }
    case Heartbeat(session, time) =>
      if session.Some? && session.value in k.registry {
        var c := k.registry[session.value];
        SetConnKeeps(t, k, c, k.conns[c].(lastHeartbeat := time));
      }
    case Acquire(pid, pick) =>
      if pick.Some? {
        StartSendKeeps(t, k, pid, pick.value);
      } else {
        LeaveKeeps(t, k, pid);
      }
    case SendOk(pid, _, _) => FinishKeeps(t, k, pid);
    case SendFailed(pid) => ReleaseKeeps(t, k, pid);
    case Disconnect(a) => ForgetKeeps(t, k, k.registry - {a}, k.locks - {a});
    case HeartbeatSweep(cutoff) => ForgetKeeps(t, k, Sweep(k, cutoff).registry, k.locks);
    case Restart => RestartKeeps(t, k);
    case AckHandle(_, _) => EnterKeeps(t, k, s.ack.worklist[s.ack.next].agentId);
    case TimerMark(ok, _) =>
      if s.timer.conn.Some? {
        assert Known(t, s.timer.worklist[s.timer.next]);
        DeliverKeeps(t, k, ok, CancelMessage(s.timer.conn.value, s.timer.worklist[s.timer.next].jobId));
      }
    case _ =>
  }

  lemma FreeSessionKeeps(t: Table, k: Loop, a: AgentId)
    requires LoopOk(t, k)
    ensures LoopOk(t, FreeSession(k, a)) && Extends(k, FreeSession(k, a))
  {
    if a in k.registry && k.registry[a] in k.conns {
      SetConnKeeps(t, k, k.registry[a], MarkFree(k.conns[k.registry[a]]));
    }
  }

  lemma FinishKeeps(t: Table, k: Loop, pid: nat)
    requires LoopOk(t, k) && pid in k.procs && k.procs[pid].Sending? && k.procs[pid].conn in k.conns
    ensures LoopOk(t, Finish(k, pid)) && Extends(k, Finish(k, pid))
  {
    var p := k.procs[pid];
    assert ProcOk(t, k, pid);
    ReleaseKeeps(t, k, pid);
    var r := Release(k, pid);
    DeliverKeeps(t, r, true, JobMessage(p.conn, p.job.jobId));
    var d := Deliver(r, true, JobMessage(p.conn, p.job.jobId));
    SetConnKeeps(t, d, p.conn, MarkBusy(k.conns[p.conn]));
  }

  lemma TimerKept(cfg: Config, s: State, l: Label, t': Table, k': Loop)
    requires WiringInv(s) && Enabled(cfg, s, l) && Grows(s.table, t') && Extends(s.loop, k')
    ensures TimerOk(t', k', TimerNext(s, l))
  {
    var timer' := TimerNext(s, l);
    if timer'.TimerScanning? {
      forall i | 0 <= i < |timer'.worklist| ensures Known(t', timer'.worklist[i]) {
        assert Known(s.table, timer'.worklist[i]);
      }
      if l.TimerFire? && timer'.conn.Some? {
        var agent := s.timer.worklist[s.timer.next].agentId;
        assert ConnOf(s.loop, s.loop.registry[agent], agent);
      }
    }
  }

  lemma WiringKept(cfg: Config, s: State, l: Label)
    requires WiringInv(s) && Inv(cfg, s) && Enabled(cfg, s, l)
    ensures WiringInv(Apply(cfg, s, l))
  {
    var t' := Exec(s.table, CallOf(cfg, s, l));
    LoopKept(cfg, s, l);
    CallIsOk(cfg, s, l);
    ExecGrows(s.table, CallOf(cfg, s, l));
    GrowthKeeps(s.table, t', LoopNext(cfg, s, l));
    TimerKept(cfg, s, l, t', LoopNext(cfg, s, l));
  }

  lemma {:induction false} RunKeepsWiring(cfg: Config, s: State, run: seq<Label>)
    requires WiringInv(s) && Inv(cfg, s) && ValidRun(cfg, s, run) && cfg.maxAttempts >= 1
    ensures WiringInv(After(cfg, s, run))
    decreases |run|
  {
    if run != [] {
      WiringKept(cfg, s, run[0]);
      InvKept(cfg, s, run[0]);
      RunKeepsWiring(cfg, Apply(cfg, s, run[0]), run[1..]);
    }
  }

  // ---------------------------------------------------------------- routing

  /** The agents of jobs, and of the rows a watcher requeues, are non-empty, because submission demands it. */
  ghost predicate NamedAgents(s: State) {
    && (forall id :: id in s.table.rows ==> Truthy(s.table.rows[id].agentId))
    && (s.ack.AckScanning? ==> forall i :: 0 <= i < |s.ack.worklist| ==> Truthy(s.ack.worklist[i].agentId))
  }

  lemma CallKeepsNames(t: Table, c: Call, id: JobId)
    requires IdsOk(t) && (id in t.rows ==> Truthy(t.rows[id].agentId)) && (c.Submit? ==> Truthy(c.job.agentId))
    requires id in Exec(t, c).rows
    ensures Truthy(Exec(t, c).rows[id].agentId)
  {
    if !c.NoCall? && !c.Submit? && c.id == id {
      EffectKeepsIdentity(c, t.rows[id]);
    }
  }

  lemma NamedAgentsKept(cfg: Config, s: State, l: Label)
    requires NamedAgents(s) && TableOk(s.table) && Enabled(cfg, s, l)
    ensures NamedAgents(Apply(cfg, s, l))
  {
    var s' := Apply(cfg, s, l);
    forall id | id in s'.table.rows ensures Truthy(s'.table.rows[id].agentId) {
      CallKeepsNames(s.table, CallOf(cfg, s, l), id);
    }
    if l.AckBegin? {
      forall i | 0 <= i < |l.worklist| ensures Truthy(l.worklist[i].agentId) {
        assert s.table.rows[l.worklist[i].jobId] == l.worklist[i];
      }
    }
  }

  lemma {:induction false} RunKeepsNamedAgents(cfg: Config, s: State, run: seq<Label>)
    requires NamedAgents(s) && Inv(cfg, s) && ValidRun(cfg, s, run) && cfg.maxAttempts >= 1
    ensures NamedAgents(After(cfg, s, run))
    decreases |run|
  {
    if run != [] {
      NamedAgentsKept(cfg, s, run[0]);
      InvKept(cfg, s, run[0]);
      RunKeepsNamedAgents(cfg, Apply(cfg, s, run[0]), run[1..]);
    }
  }

  /** In every run, across overwriting registrations, expiry, disconnects, restarts and sends that straddle them:
      every cancel message went to the job's agent, and a job message did if and only if the connection it was sent
      on had registered with a non-empty agent id. */
  lemma {:induction false} MessagesReachTheirAgent(cfg: Config, run: seq<Label>, i: nat)
    requires cfg.maxAttempts >= 1 && ValidRun(cfg, INITIAL, run)
    requires i < |After(cfg, INITIAL, run).loop.sent|
    ensures var s := After(cfg, INITIAL, run);
            var m := s.loop.sent[i];
            && m.conn in s.loop.conns && m.job in s.table.rows
            && var reached := s.loop.conns[m.conn].agentId == s.table.rows[m.job].agentId;
               && (m.CancelMessage? ==> reached)
               && (m.JobMessage? ==> (reached <==> Truthy(s.loop.conns[m.conn].agentId)))
  {
    RunKeepsWiring(cfg, INITIAL, run);
    RunKeepsNamedAgents(cfg, INITIAL, run);
    var s := After(cfg, INITIAL, run);
    assert Routed(s.table, s.loop, s.loop.sent[i]);
  }
}
