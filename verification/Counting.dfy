/**
 Successful sends of a job against its recorded attempts. A dispatch competes for jobs while it waits for its
 agent's lock, and while it sends a job that is still PENDING; the lock keeps two of them from having the same
 job. A disconnect drops the lock, and an agent that registers with an empty id picks the jobs of all agents
 under a lock of its own. So the counts are right in runs in which no disconnect meets a competing dispatch of
 its agent and no agent registers with an empty id while a job is PENDING; DroppedLocks shows that this
 condition is exact. With nothing PENDING such a registration is harmless only because its dispatch does not wait
 for its lock: these are theorems about the runs of one event loop.
 */
module Counting {
  import opened Jobs
  import opened Store
  import opened Lifecycle
  import opened System
  import opened Scheduling
  import opened Watchers
  import opened Wiring
  import opened Dispatching
  import opened History

  /** A dispatch that may still pick a job, or is sending one that another dispatch could pick as well. */
  predicate Competes(t: Table, k: Loop, pid: nat) {
    pid in k.procs &&
    match k.procs[pid]
    case Waiting(_, _) => true
    case Sending(_, _, _, job) => job.jobId in t.rows && t.rows[job.jobId].state == Pending
    case Cancelling(_, _) => false
  }

  predicate Competing(t: Table, k: Loop, a: AgentId) {
    exists pid :: pid in k.procs && Dispatches(k, pid, a) && Competes(t, k, pid)
  }

  predicate NothingPending(t: Table) {
    forall id :: id in t.rows ==> t.rows[id].state != Pending
  }

  /** The condition on the environment that the counts need. */
  predicate CountSafe(s: State, l: Label) {
    && (l.Disconnect? ==> !Competing(s.table, s.loop, l.agent))
    && (l.Register? ==> Truthy(l.agent) || NothingPending(s.table))
  }

  ghost predicate CountSafeRun(cfg: Config, s: State, turn: Option<nat>, run: seq<Label>)
    decreases |run|
  {
    run == [] ||
    (Enabled(cfg, s, run[0]) && MayRun(s, turn, run[0]) && CountSafe(s, run[0])
     && CountSafeRun(cfg, Apply(cfg, s, run[0]), Turn(cfg, s, run[0]), run[1..]))
  }

  lemma {:induction false} CountSafeRunIsValid(cfg: Config, s: State, turn: Option<nat>, run: seq<Label>)
    requires CountSafeRun(cfg, s, turn, run)
    ensures LoopRun(cfg, s, turn, run) && ValidRun(cfg, s, run)
    decreases |run|
  {
    if run != [] {
      CountSafeRunIsValid(cfg, Apply(cfg, s, run[0]), Turn(cfg, s, run[0]), run[1..]);
    }
  }

  // ---------------------------------------------------------------- the locks of competing dispatches

  /** A competing dispatch uses the one lock the dictionary has for its agent, no dispatch uses the lock of another
      agent, and agents share no lock. */
  ghost predicate CountLocks(t: Table, k: Loop) {
    && (forall pid :: Competes(t, k, pid) ==>
          k.procs[pid].agent in k.locks && k.locks[k.procs[pid].agent] == k.procs[pid].lock)
    && (forall pid, b :: pid in k.procs && !k.procs[pid].Cancelling? && b in k.locks && k.locks[b] == k.procs[pid].lock ==>
          k.procs[pid].agent == b)
    && (forall a, b :: a in k.locks && b in k.locks && k.locks[a] == k.locks[b] ==> a == b)
  }

  lemma EnterKeepsCountLocks(t: Table, k: Loop, a: AgentId)
    requires NamesAreOld(k) && CountLocks(t, k)
    ensures CountLocks(t, Enter(k, a))
  {
    var k' := Enter(k, a);
    forall pid | Competes(t, k', pid)
      ensures k'.procs[pid].agent in k'.locks && k'.locks[k'.procs[pid].agent] == k'.procs[pid].lock
    {
      assert pid != k.next ==> Competes(t, k, pid);
    }
  }

  /** Segments that leave the dictionary alone and start no dispatch. */
  lemma FewerKeepCountLocks(t: Table, k: Loop, k': Loop)
    requires CountLocks(t, k) && k'.locks == k.locks
    requires forall pid :: pid in k'.procs && !k'.procs[pid].Cancelling? ==>
               && pid in k.procs && !k.procs[pid].Cancelling?
               && k'.procs[pid].agent == k.procs[pid].agent && k'.procs[pid].lock == k.procs[pid].lock
    requires forall pid :: Competes(t, k', pid) ==> Competes(t, k, pid)
    ensures CountLocks(t, k')
  {
  }

  lemma NoNewCompetitor(cfg: Config, s: State, l: Label, t: Table, pid: nat)
    requires !l.SubmitJob? && !l.Register? && !l.Result? && !l.AckHandle? && !l.Disconnect? && !l.Restart?
    requires Enabled(cfg, s, l) && Competes(t, LoopNext(cfg, s, l), pid)
    ensures Competes(t, s.loop, pid)
  {
  }

  lemma OthersKeepCountLocks(cfg: Config, s: State, l: Label, t: Table)
    requires CountLocks(t, s.loop) && Enabled(cfg, s, l)
    requires !l.SubmitJob? && !l.Register? && !l.Result? && !l.AckHandle? && !l.Disconnect? && !l.Restart?
    ensures CountLocks(t, LoopNext(cfg, s, l))
  {
    NoNewDispatch(cfg, s, l);
    forall pid | Competes(t, LoopNext(cfg, s, l), pid) ensures Competes(t, s.loop, pid) {
      NoNewCompetitor(cfg, s, l, t, pid);
    }
    FewerKeepCountLocks(t, s.loop, LoopNext(cfg, s, l));
  }

  lemma AdmitKeepsCountLocks(t: Table, k: Loop, k1: Loop, a: AgentId)
    requires NamesAreOld(k1) && CountLocks(t, k) && k1.locks == k.locks && k1.procs == k.procs
    ensures CountLocks(t, Enter(k1, a))
  {
    assert forall pid :: Competes(t, k1, pid) <==> Competes(t, k, pid);
    EnterKeepsCountLocks(t, k1, a);
  }

  /** What a segment does to the loop, against the table it leaves behind. */
  lemma LoopKeepsCountLocks(cfg: Config, s: State, l: Label, t: Table)
    requires NamesAreOld(s.loop) && CountLocks(t, s.loop) && Enabled(cfg, s, l)
    requires l.Disconnect? ==> !Competing(t, s.loop, l.agent)
    ensures CountLocks(t, LoopNext(cfg, s, l))
  {
    var k := s.loop;
    match l
    case SubmitJob(job) => EnterKeepsCountLocks(t, k, job.agentId);
    case Register(a, time) => AdmitKeepsCountLocks(t, k, Connect(k, a, time), a);
    case Result(session, _, _, _, _, _, _) =>
      if session.Some? && Truthy(session.value) {
        AdmitKeepsCountLocks(t, k, FreeSession(k, session.value), session.value);
      }
    case AckHandle(_, _) => EnterKeepsCountLocks(t, k, s.ack.worklist[s.ack.next].agentId);
    case Disconnect(a) => DropKeepsCountLocks(t, k, a);
    case Restart =>
    case _ => OthersKeepCountLocks(cfg, s, l, t);
  }

  lemma DropKeepsCountLocks(t: Table, k: Loop, a: AgentId)
    requires CountLocks(t, k) && !Competing(t, k, a)
    ensures CountLocks(t, k.(registry := k.registry - {a}, locks := k.locks - {a}))
  {
    var k' := k.(registry := k.registry - {a}, locks := k.locks - {a});
    forall pid | Competes(t, k', pid)
      ensures k'.procs[pid].agent in k'.locks && k'.locks[k'.procs[pid].agent] == k'.procs[pid].lock
    {
      assert Competes(t, k, pid) && !Dispatches(k, pid, a);
    }
  }

  // ---------------------------------------------------------------- sends

  /** How many job messages for a job were sent. */
  function Sends(sent: seq<Message>, id: JobId): nat {
    if sent == [] then 0
    else Sends(sent[..|sent| - 1], id) + (if sent[|sent| - 1] == JobMessage(sent[|sent| - 1].conn, id) then 1 else 0)
  }

  lemma {:induction false} SendsAppend(sent: seq<Message>, m: Message, id: JobId)
    ensures Sends(sent + [m], id) == Sends(sent, id) + (if m.JobMessage? && m.job == id then 1 else 0)
  {
    assert (sent + [m])[..|sent|] == sent;
  }

  lemma {:induction false} UnknownJobNeverSent(t: Table, k: Loop, id: JobId)
    requires SentOk(t, k) && id !in t.rows
    ensures Sends(k.sent, id) == 0
  {
    UnknownJobNotIn(t, k, k.sent, id);
  }

  lemma {:induction false} UnknownJobNotIn(t: Table, k: Loop, sent: seq<Message>, id: JobId)
    requires id !in t.rows && forall i :: 0 <= i < |sent| ==> Routed(t, k, sent[i])
    ensures Sends(sent, id) == 0
  {
    if sent != [] {
      assert Routed(t, k, sent[|sent| - 1]);
      UnknownJobNotIn(t, k, sent[..|sent| - 1], id);
    }
  }

  /** No two coroutines are sending the same job. */
  predicate DistinctSends(k: Loop) {
    forall p, q :: p in k.procs && q in k.procs && k.procs[p].Sending? && k.procs[q].Sending? && p != q ==>
      k.procs[p].job.jobId != k.procs[q].job.jobId
  }

  /** A job in the send is still PENDING, or was cancelled meanwhile; its sends so far equal its attempts. */
  predicate SendOkFor(t: Table, k: Loop, pid: nat) {
    && pid in k.procs && k.procs[pid].Sending? && Truthy(k.procs[pid].agent)
    && k.procs[pid].job.jobId in t.rows
    && var r := t.rows[k.procs[pid].job.jobId];
       (r.state == Pending || r.state == Cancelled) && Sends(k.sent, k.procs[pid].job.jobId) == r.attempts
  }

  /** Sends equal attempts, plus at most one extra when the job was cancelled during a send. */
  predicate Accounted(t: Table, k: Loop, id: JobId) {
    id in t.rows &&
    (Sends(k.sent, id) == t.rows[id].attempts
     || (Sends(k.sent, id) == t.rows[id].attempts + 1 && t.rows[id].state == Cancelled))
  }

  ghost predicate SendsInv(t: Table, k: Loop) {
    && (forall pid :: pid in k.procs && k.procs[pid].Sending? ==> SendOkFor(t, k, pid))
    && (forall id :: id in t.rows ==> Accounted(t, k, id))
  }

  /** No send starts or succeeds. */
  ghost predicate Quiet(k: Loop, k': Loop) {
    && (forall pid :: pid in k'.procs && k'.procs[pid].Sending? ==> pid in k.procs && k.procs[pid] == k'.procs[pid])
    && (forall id :: Sends(k'.sent, id) == Sends(k.sent, id))
  }

  lemma OtherSegmentsAreQuiet(cfg: Config, s: State, l: Label)
    requires Enabled(cfg, s, l) && !l.Acquire? && !l.SendOk?
    ensures Quiet(s.loop, LoopNext(cfg, s, l))
  {
    if l.CancelEnd? {
      CancelEndIsQuiet(cfg, s, l);
    } else if l.TimerMark? && s.timer.conn.Some? {
      DeliverCancelIsQuiet(s.loop, l.ok, CancelMessage(s.timer.conn.value, s.timer.worklist[s.timer.next].jobId));
    }
  }

  lemma CancelEndIsQuiet(cfg: Config, s: State, l: Label)
    requires Enabled(cfg, s, l) && l.CancelEnd?
    ensures Quiet(s.loop, LoopNext(cfg, s, l))
  {
    var p := s.loop.procs[l.pid];
    if p.cancelConn.Some? {
      DeliverCancelIsQuiet(Leave(s.loop, l.pid), l.ok, CancelMessage(p.cancelConn.value, p.job.jobId));
    }
  }

  lemma DeliverCancelIsQuiet(k: Loop, ok: bool, m: Message)
    requires m.CancelMessage?
    ensures Quiet(k, Deliver(k, ok, m))
  {
    forall id ensures Sends(Deliver(k, ok, m).sent, id) == Sends(k.sent, id) {
      SendsAppend(k.sent, m, id);
    }
  }

  /** Calls other than the dispatch mark leave attempts alone, and a PENDING or CANCELLED job so. */
  lemma QuietCall(max: nat, t: Table, c: Call, id: JobId)
    requires id in t.rows && IdsOk(t) && CallOk(max, t, c) && !c.MarkDispatched?
    ensures id in Exec(t, c).rows
    ensures var r, r' := t.rows[id], Exec(t, c).rows[id];
            && r'.attempts == r.attempts
            && (r.state == Pending || r.state == Cancelled ==> r'.state == Pending || r'.state == Cancelled)
            && (r.state == Cancelled ==> r'.state == Cancelled)
  {
  }

  lemma QuietKeepsSends(max: nat, t: Table, c: Call, k: Loop, k': Loop)
    requires SendsInv(t, k) && DistinctSends(k) && Quiet(k, k') && TableOk(t) && CallOk(max, t, c) && !c.MarkDispatched?
    requires SentOk(t, k)
    ensures SendsInv(Exec(t, c), k') && DistinctSends(k')
  {
    var t' := Exec(t, c);
    forall pid | pid in k'.procs && k'.procs[pid].Sending? ensures SendOkFor(t', k', pid) {
      assert SendOkFor(t, k, pid);
      QuietCall(max, t, c, k.procs[pid].job.jobId);
    }
    forall id | id in t'.rows ensures Accounted(t', k', id) {
      if id in t.rows {
        assert Accounted(t, k, id);
        QuietCall(max, t, c, id);
      } else {
        UnknownJobNeverSent(t, k, id);
      }
    }
  }

  /** A job that a coroutine picks inside its lock is in no other coroutine's send. */
  lemma PickedOnce(t: Table, k: Loop, pid: nat, pick: JobId, q: nat)
    requires LoopOk(t, k) && CountLocks(t, k) && SendsInv(t, k) && IdsOk(t)
    requires pid in k.procs && k.procs[pid].Waiting? && k.procs[pid].lock !in k.held
    requires Truthy(k.procs[pid].agent) && IsFirst(t, k.procs[pid].agent, pick) && q in k.procs && k.procs[q].Sending?
    ensures k.procs[q].job.jobId != pick
  {
    assert ProcOk(t, k, q) && SendOkFor(t, k, q);
    assert Competes(t, k, pid);
    assert k.procs[q].job.jobId == pick ==> Competes(t, k, q);
  }

  lemma AcquireKeepsSends(s: State, pid: nat, pick: Option<JobId>)
    requires SendsInv(s.table, s.loop) && DistinctSends(s.loop) && IdsOk(s.table)
    requires LoopOk(s.table, s.loop) && CountLocks(s.table, s.loop)
    requires pid in s.loop.procs && s.loop.procs[pid].Waiting? && s.loop.procs[pid].lock !in s.loop.held
    requires PickOk(s.table, s.loop, s.loop.procs[pid].agent, pick)
    requires Truthy(s.loop.procs[pid].agent) || NothingPending(s.table)
    ensures pick.None? ==> SendsInv(s.table, Leave(s.loop, pid)) && DistinctSends(Leave(s.loop, pid))
    ensures pick.Some? ==>
              var k' := StartSend(s.loop, pid, s.loop.registry[s.loop.procs[pid].agent], s.table.rows[pick.value]);
              SendsInv(s.table, k') && DistinctSends(k')
  {
    var t, k := s.table, s.loop;
    var k' := if pick.Some? then StartSend(k, pid, k.registry[k.procs[pid].agent], t.rows[pick.value]) else Leave(k, pid);
    forall q | q in k'.procs && k'.procs[q].Sending? ensures SendOkFor(t, k', q) {
      if q != pid {
        assert SendOkFor(t, k, q);
      } else {
        assert Accounted(t, k, pick.value);
      }
    }
    forall id | id in t.rows ensures Accounted(t, k', id) {
      assert Accounted(t, k, id);
    }
    if pick.Some? {
      forall q | q in k.procs && k.procs[q].Sending? ensures k.procs[q].job.jobId != pick.value {
        PickedOnce(t, k, pid, pick.value, q);
      }
    }
  }

  lemma FinishKeepsSends(t: Table, k: Loop, pid: nat, t1: int, t2: int)
    requires SendsInv(t, k) && DistinctSends(k) && pid in k.procs && k.procs[pid].Sending? && k.procs[pid].conn in k.conns
    ensures SendsInv(Exec(t, MarkDispatched(k.procs[pid].job.jobId, t1, t2)), Finish(k, pid))
    ensures DistinctSends(Finish(k, pid))
  {
    var p := k.procs[pid];
    var id := p.job.jobId;
    var t' := Exec(t, MarkDispatched(id, t1, t2));
    var k' := Finish(k, pid);
    assert SendOkFor(t, k, pid) && k'.sent == k.sent + [JobMessage(p.conn, id)];
    forall q | q in k'.procs && k'.procs[q].Sending? ensures SendOkFor(t', k', q) {
      assert SendOkFor(t, k, q);
      SendsAppend(k.sent, JobMessage(p.conn, id), k.procs[q].job.jobId);
    }
    forall j | j in t'.rows ensures Accounted(t', k', j) {
      assert Accounted(t, k, j);
      SendsAppend(k.sent, JobMessage(p.conn, id), j);
    }
  }

  lemma OnlySendOkMarks(cfg: Config, s: State, l: Label)
    requires Enabled(cfg, s, l) && !l.SendOk?
    ensures !CallOf(cfg, s, l).MarkDispatched?
  {
  }

  /** No call makes a sent job PENDING again. */
  lemma CompetedBefore(max: nat, t: Table, c: Call, k: Loop, pid: nat)
    requires SendsInv(t, k) && TableOk(t) && CallOk(max, t, c) && Competes(Exec(t, c), k, pid)
    ensures Competes(t, k, pid)
  {
    if k.procs[pid].Sending? {
      assert SendOkFor(t, k, pid);
    }
  }

  lemma CallKeepsCountLocks(max: nat, t: Table, c: Call, k: Loop)
    requires SendsInv(t, k) && CountLocks(t, k) && TableOk(t) && CallOk(max, t, c)
    ensures CountLocks(Exec(t, c), k)
  {
    forall pid | Competes(Exec(t, c), k, pid)
      ensures k.procs[pid].agent in k.locks && k.locks[k.procs[pid].agent] == k.procs[pid].lock
    {
      CompetedBefore(max, t, c, k, pid);
    }
  }

  // ---------------------------------------------------------------- who waits

  /** A dispatch for the empty id is about to look for jobs, and there are none. */
  predicate NamedWaits(s: State, turn: Option<nat>) {
    forall pid :: pid in s.loop.procs && s.loop.procs[pid].Waiting? ==>
      Truthy(s.loop.procs[pid].agent) || (turn == Some(pid) && NothingPending(s.table))
  }

  ghost predicate CountInv(s: State, turn: Option<nat>) {
    && WiringInv(s) && NamedAgents(s) && SendsInv(s.table, s.loop) && DistinctSends(s.loop)
    && CountLocks(s.table, s.loop) && NamedWaits(s, turn)
  }

  /** Nobody holds a lock of the empty id. */
  lemma NamelessLockIsFree(t: Table, k: Loop, n: AgentId)
    requires LoopOk(t, k) && SendsInv(t, k) && CountLocks(t, k) && !Truthy(n)
    ensures forall l :: l in k.held ==> n !in k.locks || k.locks[n] != l
  {
    forall l | l in k.held ensures n !in k.locks || k.locks[n] != l {
      assert HolderOk(k, l) && SendOkFor(t, k, k.held[l]);
    }
  }

  /** So a dispatch for it does not wait, if no other one does. */
  lemma NamelessUncontended(t: Table, k: Loop, k': Loop, n: AgentId, time: int)
    requires NamesAreOld(k) && CountLocks(t, k) && !Truthy(n)
    requires forall pid :: pid in k.procs && k.procs[pid].Waiting? ==> Truthy(k.procs[pid].agent)
    requires forall l :: l in k.held ==> n !in k.locks || k.locks[n] != l
    requires k' == Enter(Connect(k, n, time), n)
    ensures Uncontended(k', k.next + 1)
  {
  }

  /** Dispatches that other segments start are for agents with a name. */
  lemma OthersStartNamed(cfg: Config, s: State, l: Label, pid: nat)
    requires NamedAgents(s) && Enabled(cfg, s, l) && !l.Register?
    requires pid in LoopNext(cfg, s, l).procs && LoopNext(cfg, s, l).procs[pid].Waiting?
    ensures Truthy(LoopNext(cfg, s, l).procs[pid].agent) ||
            (pid in s.loop.procs && s.loop.procs[pid] == LoopNext(cfg, s, l).procs[pid])
  {
  }

  lemma RegistersNamed(cfg: Config, s: State, a: AgentId, t: int)
    requires CountInv(s, None) && (Truthy(a) || NothingPending(s.table))
    ensures NamedWaits(Apply(cfg, s, Register(a, t)), Turn(cfg, s, Register(a, t)))
  {
    var s' := Apply(cfg, s, Register(a, t));
    assert s'.table == s.table && s'.loop == Enter(Connect(s.loop, a, t), a);
    if !Truthy(a) {
      LoopIsOld(s.table, s.loop);
      NamelessLockIsFree(s.table, s.loop, a);
      NamelessUncontended(s.table, s.loop, s'.loop, a, t);
    }
  }

  lemma WaitsStayNamed(cfg: Config, s: State, turn: Option<nat>, l: Label)
    requires CountInv(s, turn) && Enabled(cfg, s, l) && MayRun(s, turn, l) && CountSafe(s, l)
    ensures NamedWaits(Apply(cfg, s, l), Turn(cfg, s, l))
  {
    if l.Register? {
      RegistersNamed(cfg, s, l.agent, l.t);
    } else {
      forall pid | pid in LoopNext(cfg, s, l).procs && LoopNext(cfg, s, l).procs[pid].Waiting?
        ensures Truthy(LoopNext(cfg, s, l).procs[pid].agent)
      {
        OthersStartNamed(cfg, s, l, pid);
      }
    }
  }

  lemma LocksStayCounted(cfg: Config, s: State, turn: Option<nat>, l: Label)
    requires Inv(cfg, s) && CountInv(s, turn) && Enabled(cfg, s, l) && CountSafe(s, l)
    ensures CountLocks(Apply(cfg, s, l).table, LoopNext(cfg, s, l))
  {
    LoopIsOld(s.table, s.loop);
    CallIsOk(cfg, s, l);
    CallKeepsCountLocks(cfg.maxAttempts, s.table, CallOf(cfg, s, l), s.loop);
    LoopKeepsCountLocks(cfg, s, l, Exec(s.table, CallOf(cfg, s, l)));
  }

  lemma SendsKept(cfg: Config, s: State, turn: Option<nat>, l: Label)
    requires Inv(cfg, s) && CountInv(s, turn) && Enabled(cfg, s, l)
    ensures SendsInv(Apply(cfg, s, l).table, LoopNext(cfg, s, l)) && DistinctSends(LoopNext(cfg, s, l))
  {
    CallIsOk(cfg, s, l);
    if l.SendOk? {
      FinishKeepsSends(s.table, s.loop, l.pid, l.t1, l.t2);
    } else if l.Acquire? {
      AcquireKeepsSends(s, l.pid, l.pick);
    } else {
      OnlySendOkMarks(cfg, s, l);
      OtherSegmentsAreQuiet(cfg, s, l);
      QuietKeepsSends(cfg.maxAttempts, s.table, CallOf(cfg, s, l), s.loop, LoopNext(cfg, s, l));
    }
  }

  lemma CountKept(cfg: Config, s: State, turn: Option<nat>, l: Label)
    requires Inv(cfg, s) && CountInv(s, turn) && Enabled(cfg, s, l) && MayRun(s, turn, l) && CountSafe(s, l)
    ensures CountInv(Apply(cfg, s, l), Turn(cfg, s, l))
  {
    WiringKept(cfg, s, l);
    NamedAgentsKept(cfg, s, l);
    SendsKept(cfg, s, turn, l);
    LocksStayCounted(cfg, s, turn, l);
    WaitsStayNamed(cfg, s, turn, l);
  }

  lemma {:induction false} RunKeepsCount(cfg: Config, s: State, turn: Option<nat>, run: seq<Label>)
    requires Inv(cfg, s) && CountInv(s, turn) && CountSafeRun(cfg, s, turn, run) && cfg.maxAttempts >= 1
    ensures Inv(cfg, After(cfg, s, run)) && CountInv(After(cfg, s, run), TurnAfter(cfg, s, turn, run))
    decreases |run|
  {
    if run != [] {
      CountKept(cfg, s, turn, run[0]);
      InvKept(cfg, s, run[0]);
      RunKeepsCount(cfg, Apply(cfg, s, run[0]), Turn(cfg, s, run[0]), run[1..]);
    }
  }

  /** Successful sends of a job equal its recorded attempts, plus at most one if it was cancelled in a send. */
  lemma {:induction false} SendsEqualAttempts(cfg: Config, run: seq<Label>, id: JobId)
    requires cfg.maxAttempts >= 1 && CountSafeRun(cfg, INITIAL, None, run)
    ensures var s := After(cfg, INITIAL, run);
            if id !in s.table.rows then Sends(s.loop.sent, id) == 0
            else
              var r := s.table.rows[id];
              || Sends(s.loop.sent, id) == r.attempts
              || (Sends(s.loop.sent, id) == r.attempts + 1 && r.state == Cancelled)
  {
    RunKeepsCount(cfg, INITIAL, None, run);
    var s := After(cfg, INITIAL, run);
    if id in s.table.rows {
      assert Accounted(s.table, s.loop, id);
    } else {
      UnknownJobNeverSent(s.table, s.loop, id);
    }
  }

  lemma {:induction false} SentGrows(cfg: Config, s: State, l: Label, id: JobId)
    ensures Sends(s.loop.sent, id) <= Sends(LoopNext(cfg, s, l).sent, id)
  {
    var sent, sent' := s.loop.sent, LoopNext(cfg, s, l).sent;
    assert sent' == sent || exists m :: sent' == sent + [m];
    if sent' != sent {
      var m :| sent' == sent + [m];
      SendsAppend(sent, m, id);
    }
  }

  lemma {:induction false} SendsNeverShrink(cfg: Config, s: State, run: seq<Label>, id: JobId)
    ensures Sends(s.loop.sent, id) <= Sends(After(cfg, s, run).loop.sent, id)
    decreases |run|
  {
    if run != [] {
      SentGrows(cfg, s, run[0], id);
      SendsNeverShrink(cfg, Apply(cfg, s, run[0]), run[1..], id);
    }
  }

  /** The extra send of a cancelled job is its last one. */
  lemma {:induction false} ExtraSendIsLast(cfg: Config, s: State, turn: Option<nat>, run: seq<Label>, id: JobId)
    requires Inv(cfg, s) && CountInv(s, turn) && CountSafeRun(cfg, s, turn, run) && cfg.maxAttempts >= 1
    requires id in s.table.rows && Sends(s.loop.sent, id) == s.table.rows[id].attempts + 1
    ensures Sends(After(cfg, s, run).loop.sent, id) == Sends(s.loop.sent, id)
  {
    assert Accounted(s.table, s.loop, id);
    RunKeepsCount(cfg, s, turn, run);
    CountSafeRunIsValid(cfg, s, turn, run);
    TerminalFrozen(cfg, s, run, id);
    SendsNeverShrink(cfg, s, run, id);
    assert Accounted(After(cfg, s, run).table, After(cfg, s, run).loop, id);
  }
}
