/**
 The condition that the counts need is exact, for every segment that the event loop may run in a state that has
 kept the counts. A disconnect that meets a competing dispatch of its agent, and a registration with an empty id
 while a job is PENDING, can each be continued to a job that is sent twice in one attempt.
 */
module DroppedLocks {
  import opened Jobs
  import opened Store
  import opened System
  import opened Scheduling
  import opened Moves
  import opened Watchers
  import opened Wiring
  import opened Dispatching
  import opened Counting
  import opened DoubleSends
  import LockPop

  /** Whatever safe segments the event loop runs after this one, sends and attempts agree for every job. */
  ghost predicate KeepsCounts(cfg: Config, s: State, l: Label) {
    forall run :: CountSafeRun(cfg, Apply(cfg, s, l), Turn(cfg, s, l), run) && Ticking(Apply(cfg, s, l).clock, run) ==>
      AllAccounted(After(cfg, Apply(cfg, s, l), run))
  }

  /** The jobs that are not finished, but for one. */
  function Unfinished(t: Table, id: JobId): set<JobId> {
    set x | x in t.rows && x != id && !IsTerminal(t.rows[x].state)
  }

  /** They are cancelled, one by one. */
  lemma ThenClears(cfg: Config, s0: State, t0: Option<nat>, run: seq<Label>, s: State, id: JobId)
    returns (run': seq<Label>, s': State)
    requires Leads(cfg, s0, t0, run, s, None) && Harmless(run) && Rests(s) && NamesAreOld(s.loop) && IdsOk(s.table)
    ensures Leads(cfg, s0, t0, run', s', None) && Harmless(run') && Rests(s')
    ensures s'.loop == s.loop.(next := s'.loop.next) && NamesAreOld(s'.loop) && s'.ack == s.ack && s'.clock == s.clock
    ensures Cleared(s.table, s'.table, id)
  {
    run', s' := ThenCancelsAll(cfg, s0, t0, run, s, Unfinished(s.table, id));
  }

  /** Every other job is finished, and this one, if there is one, is as it was. */
  ghost predicate Cleared(t: Table, t': Table, id: JobId) {
    && IdsOk(t') && t'.rows.Keys == t.rows.Keys && (id in t.rows ==> t'.rows[id] == t.rows[id])
    && forall x :: x in t'.rows && x != id ==> IsTerminal(t'.rows[x].state)
  }

  lemma UnhandledAreSpared(t: Table, ack: AckScan, id: JobId)
    requires AckInv(t, ack) && (id in t.rows ==> t.rows[id].state == Pending)
    requires ack.AckScanning? ==> forall i :: 0 <= i < |ack.worklist| ==> Truthy(ack.worklist[i].agentId)
    ensures Spares(ack, id)
  {
    if ack.AckScanning? {
      forall i | ack.next <= i < |ack.worklist| ensures ack.worklist[i].jobId != id {
        assert Unhandled(t, ack.worklist[i]);
      }
    }
  }

  // ---------------------------------------------------------------- the drop: a PENDING job in the send

  /** The agent's connection is gone; the other jobs are cancelled, the agent returns, and its dispatch picks the job
      that the old one is sending. */
  lemma SenderMiscounts(cfg: Config, s: State, s0: State, a: AgentId, q: nat)
    returns (run: seq<Label>, end: State, id: JobId)
    requires CountInv(s, None) && IdsOk(s.table) && Truthy(a) && LockPop.Gone(s, s0, a)
    requires Dispatches(s.loop, q, a) && s.loop.procs[q].Sending? && Competes(s.table, s.loop, q)
    ensures Miscounts(cfg, s0, None, run, end, id)
  {
    assert ProcOk(s.table, s.loop, q) && SendOkFor(s.table, s.loop, q);
    LoopIsOld(s.table, s.loop);
    id := s.loop.procs[q].job.jobId;
    run, end := RepickMiscounts(cfg, s0, a, q, id);
  }

  lemma RepickMiscounts(cfg: Config, s0: State, a: AgentId, q: nat, id: JobId) returns (run: seq<Label>, end: State)
    requires Rests(s0) && NamesAreOld(s0.loop) && IdsOk(s0.table) && Truthy(a) && a !in s0.loop.locks
    requires InSend(s0.loop, q, id) && Balanced(s0.table, s0.loop, id) && s0.table.rows[id].agentId == a
    ensures Miscounts(cfg, s0, None, run, end, id)
  {
    var s1;
    run, s1 := ThenClears(cfg, s0, None, [], s0, id);
    SoleIsFirst(s1.table, a, id);
    run, end := ReturnMiscounts(cfg, s0, run, s1, a, q, id);
  }

  lemma ReturnMiscounts(cfg: Config, s0: State, run: seq<Label>, s: State, a: AgentId, q: nat, id: JobId)
    returns (run': seq<Label>, end: State)
    requires Leads(cfg, s0, None, run, s, None) && Harmless(run) && Rests(s)
    requires NamesAreOld(s.loop) && Truthy(a) && a !in s.loop.locks
    requires InSend(s.loop, q, id) && Balanced(s.table, s.loop, id) && IsFirst(s.table, a, id)
    ensures Miscounts(cfg, s0, None, run', end, id)
  {
    var s', turn;
    run', s', turn := ThenRegister(cfg, s0, None, run, s, a);
    FreshLockIsFree(s.loop, s'.loop, a, s.clock);
    run', end := PickedAgain(cfg, s0, None, run', s', turn, q, s.loop.next + 1, id);
  }

  lemma FreshLockIsFree(k: Loop, k': Loop, a: AgentId, t: int)
    requires NamesAreOld(k) && a !in k.locks && k' == Enter(Connect(k, a, t), a)
    ensures var w := k.next + 1;
            && Uncontended(k', w) && k'.procs[w] == Waiting(a, k.next + 2) && Idle(k', a) && k'.locks[a] == k.next + 2
    ensures k'.held == k.held && k'.sent == k.sent && NamesAreOld(k')
    ensures forall p :: p in k.procs ==> p in k'.procs && k'.procs[p] == k.procs[p]
    ensures forall c :: c in k.conns ==> c in k'.conns
  {
  }

  // ---------------------------------------------------------------- the drop: a dispatch that waits

  /** Who holds the lock that a competing dispatch waits for is sending for the same agent. */
  lemma HolderIsOwn(s: State, turn: Option<nat>, p: nat)
    requires CountInv(s, turn) && p in s.loop.procs && s.loop.procs[p].Waiting? && s.loop.procs[p].lock in s.loop.held
    ensures var h := s.loop.held[s.loop.procs[p].lock];
            && h in s.loop.procs && s.loop.procs[h].Sending? && s.loop.procs[h].lock == s.loop.procs[p].lock
  {
    assert HolderOk(s.loop, s.loop.procs[p].lock);
  }

  /** The line of a waiting dispatch: all of its own agent. */
  lemma OwnLine(s: State, turn: Option<nat>, p: nat)
    requires CountInv(s, turn) && p in s.loop.procs && s.loop.procs[p].Waiting?
    ensures Line(s.loop, s.loop.procs[p].lock, s.loop.procs[p].agent, p)
  {
    assert Competes(s.table, s.loop, p);
  }

  /** All jobs are cancelled, the agent returns, and a new job is submitted, which its dispatch begins to send; then
      the line for the old lock takes it as well. */
  lemma WaiterMiscounts(cfg: Config, s: State, s0: State, a: AgentId, p: nat)
    returns (run: seq<Label>, end: State, id: JobId)
    requires Inv(cfg, s) && CountInv(s, None) && Truthy(a) && LockPop.Gone(s, s0, a)
    requires Dispatches(s.loop, p, a) && s.loop.procs[p].Waiting?
    ensures Miscounts(cfg, s0, None, run, end, id)
  {
    OwnLine(s, None, p);
    LoopIsOld(s.table, s.loop);
    var lock := s.loop.procs[p].lock;
    if lock in s.loop.held {
      HolderIsOwn(s, None, p);
    }
    var job := AcceptedJob(s.table, a, s.clock);
    UnhandledAreSpared(s.table, s.ack, job.jobId);
    UnknownJobNeverSent(s.table, s.loop, job.jobId);
    id := job.jobId;
    run, end := NewJobMiscounts(cfg, s0, a, p, lock, job);
  }

  /** If somebody has the lock, it is a send for it. */
  predicate HeldBySend(k: Loop, lock: nat) {
    lock in k.held ==>
      var h := k.held[lock];
      h in k.procs && k.procs[h].Sending? && k.procs[h].lock == lock
  }

  lemma NewJobMiscounts(cfg: Config, s0: State, a: AgentId, p: nat, lock: nat, job: Row)
    returns (run: seq<Label>, end: State)
    requires Rests(s0) && NamesAreOld(s0.loop) && IdsOk(s0.table) && a !in s0.loop.locks
    requires Line(s0.loop, lock, a, p) && HeldBySend(s0.loop, lock) && Spares(s0.ack, job.jobId)
    requires IsNewRow(job) && Accepts(job) && job.agentId == a && job.key.None? && job.jobId !in s0.table.rows
    requires job.createdAt == job.updatedAt == s0.clock
    requires Sends(s0.loop.sent, job.jobId) == 0
    ensures Miscounts(cfg, s0, None, run, end, job.jobId)
  {
    var s1, s2;
    run, s1 := ThenClears(cfg, s0, None, [], s0, job.jobId);
    run, s2 := ThenReturns(cfg, s0, run, s1, a);
    run, end := SubmitMiscounts(cfg, s0, run, s1.loop, s2, a, p, lock, job);
  }

  /** Its dispatch finds nothing to do. */
  lemma ThenReturns(cfg: Config, s0: State, run: seq<Label>, s: State, a: AgentId)
    returns (run': seq<Label>, s': State)
    requires Leads(cfg, s0, None, run, s, None) && Harmless(run) && Rests(s)
    requires NamesAreOld(s.loop) && Truthy(a) && a !in s.loop.locks && NoCandidate(s.table, a)
    ensures Leads(cfg, s0, None, run', s', None) && Harmless(run') && Rests(s')
    ensures LockPop.Back(s.loop, s'.loop, a) && s'.table == s.table && s'.ack == s.ack && s'.clock == s.clock
  {
    var turn;
    run', s', turn := ThenRegister(cfg, s0, None, run, s, a);
    FreshLockIsFree(s.loop, s'.loop, a, s.clock);
    run', s' := ThenPass(cfg, s0, None, run', s', turn, s.loop.next + 1);
    LockPop.ReturnLeaves(s.loop, s'.loop, a, s.clock);
  }

  lemma SubmitMiscounts(cfg: Config, s0: State, run: seq<Label>, k: Loop, s: State, a: AgentId, p: nat, lock: nat, job: Row)
    returns (run': seq<Label>, end: State)
    requires Leads(cfg, s0, None, run, s, None) && Harmless(run) && Rests(s)
    requires NamesAreOld(k) && LockPop.Back(k, s.loop, a) && Line(k, lock, a, p) && HeldBySend(k, lock)
    requires IsNewRow(job) && Accepts(job) && job.agentId == a && job.key.None? && job.jobId !in s.table.rows
    requires job.createdAt == job.updatedAt == s.clock
    requires Cleared(s.table, s.table, job.jobId) && Spares(s.ack, job.jobId) && Sends(k.sent, job.jobId) == 0
    ensures Miscounts(cfg, s0, None, run', end, job.jobId)
  {
    var s1;
    PicksBesideLine(k, s.loop, a, p, lock, job);
    SubmittedIsSole(s.table, job);
    run', s1 := ThenSubmitsAndPicks(cfg, s0, run, s, job);
    run', end := FightIsLost(cfg, s0, None, run', s1, s.loop.next, lock, a, p, job.jobId);
  }

  lemma SubmittedIsSole(t: Table, job: Row)
    requires Cleared(t, t, job.jobId) && IsNewRow(job) && job.key.None? && job.jobId !in t.rows
    ensures var t' := Exec(t, Submit(job)); Sole(t', job.jobId) && t'.rows[job.jobId] == job
    ensures NoCandidate(t, job.agentId)
  {
  }

  lemma ThenSubmitsAndPicks(cfg: Config, s0: State, run: seq<Label>, s: State, job: Row)
    returns (run': seq<Label>, s': State)
    requires Leads(cfg, s0, None, run, s, None) && Harmless(run) && Rests(s) && s.loop.next !in s.loop.procs
    requires IsNewRow(job) && Accepts(job) && job.key.None? && job.jobId !in s.table.rows && NoCandidate(s.table, job.agentId)
    requires job.createdAt == job.updatedAt == s.clock
    requires var k := Enter(s.loop, job.agentId); Uncontended(k, s.loop.next) && Idle(k, job.agentId)
    ensures Leads(cfg, s0, None, run', s', None) && Harmless(run') && Rests(s') && s'.ack == s.ack
    ensures s'.table == Exec(s.table, Submit(job))
    ensures var k := Enter(s.loop, job.agentId); s'.loop == StartSend(k, s.loop.next, k.registry[job.agentId], job)
  {
    var s1, turn;
    run', s1, turn := ThenSubmit(cfg, s0, None, run, s, job);
    OnlyJobIsFirst(s.table, job, s1.table);
    run', s' := ThenPick(cfg, s0, None, run', s1, turn, s.loop.next, job.jobId);
  }

  lemma PicksBesideLine(k: Loop, k': Loop, a: AgentId, p: nat, lock: nat, job: Row)
    requires NamesAreOld(k) && LockPop.Back(k, k', a) && Line(k, lock, a, p)
    ensures var v := k'.next;
            var k1 := Enter(k', a);
            && v !in k'.procs && Uncontended(k1, v) && Idle(k1, a)
            && var k2 := StartSend(k1, v, k1.registry[a], job);
               && InSend(k2, v, job.jobId) && k2.sent == k.sent && NamesAreOld(k2) && Idle(k2, a)
               && Line(k2, lock, a, p) && a in k2.locks && k2.locks[a] in k2.held
               && (lock in k2.held ==> lock in k.held && k2.held[lock] == k.held[lock])
               && (forall q :: q in k.procs ==> q in k2.procs && k2.procs[q] == k.procs[q])
  {
    assert Queues(k, p, lock);
  }

  /** From any state that has kept the counts, a disconnect that meets a competing dispatch of its agent can be
      continued to a job that is sent twice in one attempt. */
  lemma DropMiscounts(cfg: Config, s: State, a: AgentId) returns (run: seq<Label>, end: State, id: JobId)
    requires Inv(cfg, s) && CountInv(s, None) && Rests(s) && Truthy(a) && Competing(s.table, s.loop, a)
    ensures Miscounts(cfg, Apply(cfg, s, Disconnect(a)), None, run, end, id)
  {
    DropMove(cfg, s, a);
    var p :| p in s.loop.procs && Dispatches(s.loop, p, a) && Competes(s.table, s.loop, p);
    if s.loop.procs[p].Sending? {
      run, end, id := SenderMiscounts(cfg, s, Apply(cfg, s, Disconnect(a)), a, p);
    } else {
      run, end, id := WaiterMiscounts(cfg, s, Apply(cfg, s, Disconnect(a)), a, p);
    }
  }

  // ---------------------------------------------------------------- a registration with an empty id

  /** Nobody but the agent's dispatches uses its lock, and only its own sends hold it. */
  ghost predicate OwnLock(k: Loop, a: AgentId) {
    a in k.locks ==>
      && (forall q :: q in k.procs && Queues(k, q, k.locks[a]) ==> k.procs[q].agent == a)
      && (forall x :: x in k.locks && k.locks[x] == k.locks[a] ==> x == a)
      && HeldBySend(k, k.locks[a])
  }

  lemma LocksAreOwn(s: State, turn: Option<nat>, a: AgentId)
    requires CountInv(s, turn)
    ensures OwnLock(s.loop, a)
  {
    if a in s.loop.locks && s.loop.locks[a] in s.loop.held {
      assert HolderOk(s.loop, s.loop.locks[a]);
    }
  }

  /** Coroutine `p` sends the job, and does not hold the agent's lock. */
  ghost predicate SendsBeside(k: Loop, p: nat, a: AgentId, id: JobId) {
    && NamesAreOld(k) && InSend(k, p, id) && OwnLock(k, a)
    && (a in k.locks && k.locks[a] in k.held ==> k.held[k.locks[a]] != p)
  }

  lemma NamelessSends(k: Loop, k': Loop, n: AgentId, t: int, a: AgentId, job: Row)
    requires NamesAreOld(k) && OwnLock(k, a) && n != a && (n in k.locks ==> k.locks[n] !in k.held)
    requires k' == StartSend(Enter(Connect(k, n, t), n), k.next + 1, k.next, job)
    ensures SendsBeside(k', k.next + 1, a, job.jobId) && k'.sent == k.sent
  {
    if a in k.locks {
      forall q | q in k'.procs && Queues(k', q, k'.locks[a]) ensures k'.procs[q].agent == a {
        assert Queues(k, q, k.locks[a]);
      }
    }
  }

  lemma RegisterLines(k: Loop, k': Loop, p: nat, a: AgentId, t: int, id: JobId)
    requires SendsBeside(k, p, a, id) && k' == Enter(Connect(k, a, t), a)
    ensures SendsBeside(k', p, a, id) && Idle(k', a) && k'.sent == k.sent
    ensures a in k'.locks && Line(k', k'.locks[a], a, k.next + 1)
    ensures k'.procs[k.next + 1].agent == a
  {
    forall q | q in k'.procs && Queues(k', q, k'.locks[a]) ensures k'.procs[q].agent == a {
      assert q != k.next + 1 ==> a in k.locks && Queues(k, q, k.locks[a]);
    }
  }

  /** The nameless connection is being sent a job. The others are cancelled, and the job's agent registers; its
      dispatch, or another one in its line, picks the job as well. */
  lemma BesideMiscounts(cfg: Config, s0: State, t0: Option<nat>, run: seq<Label>, s: State, p: nat, a: AgentId, id: JobId)
    returns (run': seq<Label>, end: State)
    requires Leads(cfg, s0, t0, run, s, None) && Harmless(run) && Rests(s) && IdsOk(s.table)
    requires SendsBeside(s.loop, p, a, id) && Balanced(s.table, s.loop, id) && Spares(s.ack, id)
    requires s.table.rows[id].agentId == a && Truthy(a)
    ensures Miscounts(cfg, s0, t0, run', end, id)
  {
    var s1;
    run', s1 := ThenClears(cfg, s0, t0, run, s, id);
    NextKeepsSends(s.loop, s1.loop, p, a, id);
    run', end := LineMiscounts(cfg, s0, t0, run', s1, p, a, id);
  }

  lemma LineMiscounts(cfg: Config, s0: State, t0: Option<nat>, run: seq<Label>, s: State, p: nat, a: AgentId, id: JobId)
    returns (run': seq<Label>, end: State)
    requires Leads(cfg, s0, t0, run, s, None) && Harmless(run) && Rests(s) && Sole(s.table, id)
    requires SendsBeside(s.loop, p, a, id) && Balanced(s.table, s.loop, id) && Spares(s.ack, id)
    requires s.table.rows[id].agentId == a && Truthy(a)
    ensures Miscounts(cfg, s0, t0, run', end, id)
  {
    var s', turn;
    SoleIsFirst(s.table, a, id);
    RegisterLines(s.loop, Enter(Connect(s.loop, a, s.clock), a), p, a, s.clock, id);
    run', s', turn := ThenRegister(cfg, s0, t0, run, s, a);
    run', end := OwnDispatchMiscounts(cfg, s0, t0, run', s', turn, p, a, s.loop.next + 1, id);
  }

  lemma OwnDispatchMiscounts(cfg: Config, s0: State, t0: Option<nat>, run: seq<Label>, s: State, turn: Option<nat>, p: nat,
                             a: AgentId, w: nat, id: JobId)
    returns (run': seq<Label>, end: State)
    requires Leads(cfg, s0, t0, run, s, turn) && Harmless(run) && Rests(s) && Truthy(a) && Idle(s.loop, a)
    requires turn == if Uncontended(s.loop, w) then Some(w) else None
    requires SendsBeside(s.loop, p, a, id) && Balanced(s.table, s.loop, id) && Spares(s.ack, id)
    requires Sole(s.table, id) && IsFirst(s.table, a, id) && s.table.rows[id].agentId == a
    requires a in s.loop.locks && Line(s.loop, s.loop.locks[a], a, w) && s.loop.procs[w].agent == a
    ensures Miscounts(cfg, s0, t0, run', end, id)
  {
    if turn.Some? {
      run', end := PickedAgain(cfg, s0, t0, run, s, turn, p, w, id);
    } else {
      run', end := FightIsLost(cfg, s0, t0, run, s, p, s.loop.locks[a], a, w, id);
    }
  }

  lemma NextKeepsSends(k: Loop, k': Loop, p: nat, a: AgentId, id: JobId)
    requires SendsBeside(k, p, a, id) && k' == k.(next := k'.next) && NamesAreOld(k')
    ensures SendsBeside(k', p, a, id)
  {
    if a in k.locks {
      forall q | q in k'.procs && Queues(k', q, k'.locks[a]) ensures k'.procs[q].agent == a {
        assert Queues(k, q, k.locks[a]);
      }
    }
  }

  /** From any state that has kept the counts and in which a job is PENDING, a registration with an empty id can be
      continued to a job that is sent twice in one attempt. */
  lemma NamelessMiscounts(cfg: Config, s: State, n: AgentId, t: int) returns (run: seq<Label>, end: State, id: JobId)
    requires Inv(cfg, s) && CountInv(s, None) && Rests(s) && !Truthy(n) && !NothingPending(s.table)
    ensures Miscounts(cfg, Apply(cfg, s, Register(n, t)), Turn(cfg, s, Register(n, t)), run, end, id)
  {
    id := NamelessCanPick(cfg, s, n, t);
    RegisterMove(cfg, s, n, t);
    run, end := NamelessPickMiscounts(cfg, s, Apply(cfg, s, Register(n, t)), n, t, s.table.rows[id].agentId, id);
  }

  lemma NamelessCanPick(cfg: Config, s: State, n: AgentId, t: int) returns (id: JobId)
    requires Inv(cfg, s) && CountInv(s, None) && !Truthy(n) && !NothingPending(s.table)
    ensures NamesAreOld(s.loop) && IsFirst(s.table, n, id) && Balanced(s.table, s.loop, id) && Spares(s.ack, id)
    ensures var a := s.table.rows[id].agentId; Truthy(a) && OwnLock(s.loop, a)
    ensures n in s.loop.locks ==> s.loop.locks[n] !in s.loop.held
    ensures Uncontended(Enter(Connect(s.loop, n, t), n), s.loop.next + 1)
  {
    id := FirstExists(s.table, n);
    PendingIsBalanced(cfg, s, id);
    LocksAreOwn(s, None, s.table.rows[id].agentId);
    NamelessGoesOn(s, n, t);
  }

  lemma PendingIsBalanced(cfg: Config, s: State, id: JobId)
    requires Inv(cfg, s) && CountInv(s, None) && id in s.table.rows && s.table.rows[id].state == Pending
    ensures Balanced(s.table, s.loop, id) && Spares(s.ack, id)
  {
    UnhandledAreSpared(s.table, s.ack, id);
    assert Accounted(s.table, s.loop, id);
  }

  lemma NamelessGoesOn(s: State, n: AgentId, t: int)
    requires CountInv(s, None) && !Truthy(n)
    ensures NamesAreOld(s.loop) && (n in s.loop.locks ==> s.loop.locks[n] !in s.loop.held)
    ensures Uncontended(Enter(Connect(s.loop, n, t), n), s.loop.next + 1)
  {
    LoopIsOld(s.table, s.loop);
    NamelessLockIsFree(s.table, s.loop, n);
    NamelessUncontended(s.table, s.loop, Enter(Connect(s.loop, n, t), n), n, t);
  }

  lemma NamelessPickMiscounts(cfg: Config, s: State, s0: State, n: AgentId, t: int, a: AgentId, id: JobId)
    returns (run: seq<Label>, end: State)
    requires Rests(s0) && s0.table == s.table && s0.loop == Enter(Connect(s.loop, n, t), n) && s0.ack == s.ack
    requires IdsOk(s.table) && IsFirst(s.table, n, id) && s.table.rows[id].agentId == a && Truthy(a) && !Truthy(n)
    requires NamesAreOld(s.loop) && OwnLock(s.loop, a) && (n in s.loop.locks ==> s.loop.locks[n] !in s.loop.held)
    requires Uncontended(s0.loop, s.loop.next + 1) && Balanced(s.table, s.loop, id) && Spares(s.ack, id)
    ensures Miscounts(cfg, s0, Some(s.loop.next + 1), run, end, id)
  {
    var p, s1 := s.loop.next + 1, s0;
    run, s1 := ThenPick(cfg, s0, Some(p), [], s0, Some(p), p, id);
    NamelessSends(s.loop, s1.loop, n, t, a, s.table.rows[id]);
    run, end := BesideMiscounts(cfg, s0, Some(p), run, s1, p, a, id);
  }

  // ---------------------------------------------------------------- exactness

  /** The condition is exact: in any state that has kept the counts, a segment that the event loop may run keeps them,
      whatever safe segments follow, if and only if it is safe itself. */
  lemma CountSafeIsExact(cfg: Config, s: State, turn: Option<nat>, l: Label)
    requires Inv(cfg, s) && CountInv(s, turn) && Enabled(cfg, s, l) && MayRun(s, turn, l) && cfg.maxAttempts >= 1
    ensures KeepsCounts(cfg, s, l) <==> CountSafe(s, l)
  {
    var s1 := Apply(cfg, s, l);
    if CountSafe(s, l) {
      CountKept(cfg, s, turn, l);
      InvKept(cfg, s, l);
      forall run | CountSafeRun(cfg, s1, Turn(cfg, s, l), run) && Ticking(s1.clock, run)
        ensures AllAccounted(After(cfg, s1, run))
      {
        RunKeepsCount(cfg, s1, Turn(cfg, s, l), run);
      }
    } else {
      var run, end, id;
      if l.Disconnect? {
        run, end, id := DropMiscounts(cfg, s, l.agent);
      } else {
        run, end, id := NamelessMiscounts(cfg, s, l.agent, l.t);
      }
      SentTooOftenIsWrong(end, id);
      HarmlessIsCountSafe(cfg, s1, Turn(cfg, s, l), run);
    }
  }
}
