/**
 How a job comes to be sent twice in one attempt: while one coroutine is sending it, another is first in line for
 a free lock and picks it as well. If somebody holds that lock, its send fails first; and if that was the ack
 watcher's dispatch, the watcher goes on with its entries, which all have finished jobs by then.
 */
module DoubleSends {
  import opened Jobs
  import opened Store
  import opened System
  import opened Scheduling
  import opened Moves
  import opened Wiring
  import opened Counting

  ghost predicate AllAccounted(s: State) {
    forall id :: id in s.table.rows ==> Accounted(s.table, s.loop, id)
  }

  lemma {:induction false} HarmlessIsCountSafe(cfg: Config, s: State, turn: Option<nat>, run: seq<Label>)
    requires LoopRun(cfg, s, turn, run) && Harmless(run)
    ensures CountSafeRun(cfg, s, turn, run)
    decreases |run|
  {
    if run != [] {
      assert forall i :: 0 <= i < |run[1..]| ==> run[1..][i] == run[i + 1];
      HarmlessIsCountSafe(cfg, Apply(cfg, s, run[0]), Turn(cfg, s, run[0]), run[1..]);
    }
  }

  /** A job that is DISPATCHED with one more send than attempts. */
  predicate SentTooOften(s: State, id: JobId) {
    && id in s.table.rows && s.table.rows[id].state == Dispatched
    && Sends(s.loop.sent, id) == s.table.rows[id].attempts + 1
  }

  /** A harmless run from the given point to a job that is sent too often. */
  ghost predicate Miscounts(cfg: Config, s: State, turn: Option<nat>, run: seq<Label>, end: State, id: JobId) {
    Leads(cfg, s, turn, run, end, None) && Harmless(run) && SentTooOften(end, id)
  }

  lemma SentTooOftenIsWrong(s: State, id: JobId)
    requires SentTooOften(s, id)
    ensures !AllAccounted(s)
  {
    assert !Accounted(s.table, s.loop, id);
  }

  // ---------------------------------------------------------------- two sends of one job

  /** Coroutine `pid` is sending job `id`. */
  predicate InSend(k: Loop, pid: nat, id: JobId) {
    && pid in k.procs && k.procs[pid].Sending? && k.procs[pid].conn in k.conns && k.procs[pid].job.jobId == id
  }

  /** A PENDING job with as many sends as attempts. */
  predicate Balanced(t: Table, k: Loop, id: JobId) {
    && id in t.rows && t.rows[id].jobId == id && t.rows[id].state == Pending
    && Sends(k.sent, id) == t.rows[id].attempts
  }

  lemma {:induction false} OneSendEnds(k: Loop, p: nat, q: nat, id: JobId)
    requires InSend(k, p, id) && InSend(k, q, id) && p != q
    ensures InSend(Finish(k, p), q, id) && Sends(Finish(k, p).sent, id) == Sends(k.sent, id) + 1
  {
    SendsAppend(k.sent, JobMessage(k.procs[p].conn, id), id);
  }

  lemma {:induction false} LastSendEnds(k: Loop, p: nat, id: JobId)
    requires InSend(k, p, id)
    ensures Sends(Finish(k, p).sent, id) == Sends(k.sent, id) + 1
  {
    SendsAppend(k.sent, JobMessage(k.procs[p].conn, id), id);
  }

  /** The first send counts an attempt, the second finds the job DISPATCHED. */
  lemma OneAttempt(t: Table, id: JobId, time: int)
    requires id in t.rows && t.rows[id].state == Pending
    ensures var t1 := Exec(t, MarkDispatched(id, time, time));
            var t2 := Exec(t1, MarkDispatched(id, time, time));
            id in t2.rows && t2.rows[id].attempts == t.rows[id].attempts + 1 && t2.rows[id].state == Dispatched
  {
  }

  lemma SentInOrder(cfg: Config, s0: State, t0: Option<nat>, run: seq<Label>, s: State, p: nat, q: nat, id: JobId)
    returns (run': seq<Label>, end: State)
    requires Leads(cfg, s0, t0, run, s, None) && Harmless(run) && Rests(s) && !Awaits(s, p)
    requires InSend(s.loop, p, id) && InSend(s.loop, q, id) && p != q && Balanced(s.table, s.loop, id)
    ensures Miscounts(cfg, s0, t0, run', end, id)
  {
    var s1;
    OneSendEnds(s.loop, p, q, id);
    run', s1 := ThenSent(cfg, s0, t0, run, s, p);
    LastSendEnds(s1.loop, q, id);
    OneAttempt(s.table, id, s.clock);
    run', end := ThenSent(cfg, s0, t0, run', s1, q);
  }

  /** The ack watcher waits for one of them at most; that one's send ends last. */
  lemma SentTwice(cfg: Config, s0: State, t0: Option<nat>, run: seq<Label>, s: State, p: nat, q: nat, id: JobId)
    returns (run': seq<Label>, end: State)
    requires Leads(cfg, s0, t0, run, s, None) && Harmless(run) && Rests(s)
    requires InSend(s.loop, p, id) && InSend(s.loop, q, id) && p != q && Balanced(s.table, s.loop, id)
    ensures Miscounts(cfg, s0, t0, run', end, id)
  {
    if Awaits(s, p) {
      run', end := SentInOrder(cfg, s0, t0, run, s, q, p, id);
    } else {
      run', end := SentInOrder(cfg, s0, t0, run, s, p, q, id);
    }
  }

  /** One coroutine is sending the job, and another picks it. */
  lemma PickedAgain(cfg: Config, s0: State, t0: Option<nat>, run: seq<Label>, s: State, turn: Option<nat>,
                    p: nat, q: nat, id: JobId)
    returns (run': seq<Label>, end: State)
    requires Leads(cfg, s0, t0, run, s, turn) && Harmless(run) && MayAcquire(s, turn, q)
    requires InSend(s.loop, p, id) && Balanced(s.table, s.loop, id)
    requires Idle(s.loop, s.loop.procs[q].agent) && IsFirst(s.table, s.loop.procs[q].agent, id)
    ensures Miscounts(cfg, s0, t0, run', end, id)
  {
    var s1;
    run', s1 := ThenPick(cfg, s0, t0, run, s, turn, q, id);
    run', end := SentTwice(cfg, s0, t0, run', s1, p, q, id);
  }

  // ---------------------------------------------------------------- a line for a lock

  /** Coroutine `w` queues on the lock, and whoever else does is a dispatch for the same agent, as is whoever the
      dictionary would send there. */
  ghost predicate Line(k: Loop, lock: nat, a: AgentId, w: nat) {
    && Queues(k, w, lock) && (forall q :: Queues(k, q, lock) ==> k.procs[q].agent == a)
    && (forall x :: x in k.locks && k.locks[x] == lock ==> x == a)
  }

  /** The lock is free: the first in its line picks the job. */
  lemma LinePicks(cfg: Config, s0: State, t0: Option<nat>, run: seq<Label>, s: State, p: nat, lock: nat, a: AgentId,
                  w: nat, id: JobId)
    returns (run': seq<Label>, end: State)
    requires Leads(cfg, s0, t0, run, s, None) && Harmless(run) && Rests(s)
    requires InSend(s.loop, p, id) && Balanced(s.table, s.loop, id)
    requires Line(s.loop, lock, a, w) && lock !in s.loop.held && Idle(s.loop, a) && IsFirst(s.table, a, id)
    ensures Miscounts(cfg, s0, t0, run', end, id)
  {
    var q := LineHasFirst(s.loop, w);
    run', end := PickedAgain(cfg, s0, t0, run, s, None, p, q, id);
  }

  // ---------------------------------------------------------------- the ack watcher goes on

  /** The one job that is not finished. */
  ghost predicate Sole(t: Table, id: JobId) {
    IdsOk(t) && id in t.rows && forall x :: x in t.rows && x != id ==> IsTerminal(t.rows[x].state)
  }

  /** The entries still to be handled are other jobs, of agents with a name. */
  predicate Spares(ack: AckScan, id: JobId) {
    ack.AckScanning? ==>
      forall i :: ack.next <= i < |ack.worklist| ==> ack.worklist[i].jobId != id && Truthy(ack.worklist[i].agentId)
  }

  /** A dispatch for the agent would have to wait. */
  predicate Occupied(k: Loop, a: AgentId) {
    a in k.locks && (k.locks[a] in k.held || exists q :: q in k.procs && Queues(k, q, k.locks[a]))
  }

  /** The loop has only gained a coroutine that waits, and locks for agents that had none. */
  ghost predicate Waited(k: Loop, k': Loop) {
    && k'.conns == k.conns && k'.registry == k.registry && k'.held == k.held && k'.sent == k.sent
    && (forall p :: p in k.procs ==> p in k'.procs && k'.procs[p] == k.procs[p])
  }

  lemma EnteringWaits(k: Loop, a: AgentId, b: AgentId, lock: nat, w: nat)
    requires NamesAreOld(k) && Line(k, lock, a, w)
    ensures Waited(k, Enter(k, b)) && Line(Enter(k, b), lock, a, w) && NamesAreOld(Enter(k, b))
    ensures Occupied(k, a) ==> Occupied(Enter(k, b), a) && (Uncontended(Enter(k, b), k.next) ==> b != a)
  {
    if Occupied(k, a) && k.locks[a] !in k.held {
      var q :| q in k.procs && Queues(k, q, k.locks[a]);
      assert Queues(Enter(k, b), q, k.locks[a]);
    }
  }

  lemma EnteringLeaves(k: Loop, a: AgentId, b: AgentId, lock: nat, w: nat)
    requires NamesAreOld(k) && Line(k, lock, a, w) && Occupied(k, a)
    ensures var k' := Leave(Enter(k, b), k.next);
            Waited(k, k') && Line(k', lock, a, w) && NamesAreOld(k') && Occupied(k', a)
  {
    var k' := Leave(Enter(k, b), k.next);
    assert k'.procs == k.procs;
    if k.locks[a] !in k.held {
      var q :| q in k.procs && Queues(k, q, k.locks[a]);
      assert Queues(k', q, k.locks[a]);
    }
  }

  /** While the watcher goes on: the agent's line is as it was, and a new dispatch finds nothing to do. */
  ghost predicate GoesOn(s: State, lock: nat, a: AgentId, w: nat, id: JobId) {
    && AckReady(s) && !CancelReady(s.loop) && !TimerReady(s.timer) && NamesAreOld(s.loop)
    && Sole(s.table, id) && s.table.rows[id].agentId == a && Spares(s.ack, id)
    && Line(s.loop, lock, a, w) && Occupied(s.loop, a)
  }

  lemma NothingElse(t: Table, id: JobId, a: AgentId, b: AgentId)
    requires Sole(t, id) && t.rows[id].agentId == a && b != a && Truthy(b)
    ensures NoCandidate(t, b)
  {
  }

  /** It comes to rest, and the line is still there. */
  lemma {:induction false} WatcherGoesOn(cfg: Config, s0: State, t0: Option<nat>, run: seq<Label>, s: State,
                                         lock: nat, a: AgentId, w: nat, id: JobId)
    returns (run': seq<Label>, s': State)
    requires Leads(cfg, s0, t0, run, s, None) && Harmless(run) && GoesOn(s, lock, a, w, id)
    ensures Leads(cfg, s0, t0, run', s', None) && Harmless(run') && Rests(s')
    ensures s'.table == s.table && Waited(s.loop, s'.loop) && Line(s'.loop, lock, a, w)
    decreases |s.ack.worklist| - s.ack.next
  {
    if !HasEntry(s.ack) {
      run', s' := ThenScanEnds(cfg, s0, t0, run, s);
    } else {
      var entry, pid, turn := s.ack.worklist[s.ack.next], s.loop.next, None;
      EnteringWaits(s.loop, a, entry.agentId, lock, w);
      run', s', turn := ThenHandles(cfg, s0, t0, run, s);
      if turn.Some? {
        NothingElse(s.table, id, a, entry.agentId);
        EnteringLeaves(s.loop, a, entry.agentId, lock, w);
        run', s' := ThenPass(cfg, s0, t0, run', s', turn, pid);
      }
      if entry.attempts >= cfg.maxAttempts || turn.Some? {
        run', s' := WatcherGoesOn(cfg, s0, t0, run', s', lock, a, w, id);
      }
    }
  }

  // ---------------------------------------------------------------- somebody holds the lock

  /** Coroutine `p` sends the only job left, and its idle agent has a line for another lock, free or held. */
  ghost predicate Fight(s: State, p: nat, lock: nat, a: AgentId, w: nat, id: JobId) {
    && Rests(s) && NamesAreOld(s.loop) && InSend(s.loop, p, id) && Balanced(s.table, s.loop, id)
    && Sole(s.table, id) && s.table.rows[id].agentId == a && Truthy(a) && Spares(s.ack, id) && Idle(s.loop, a)
    && Line(s.loop, lock, a, w) && a in s.loop.locks && (s.loop.locks[a] == lock || s.loop.locks[a] in s.loop.held)
    && (lock in s.loop.held ==>
          var h := s.loop.held[lock]; h != p && h in s.loop.procs && s.loop.procs[h].Sending? && s.loop.procs[h].lock == lock)
  }

  lemma ReleaseKeepsLine(k: Loop, h: nat, lock: nat, a: AgentId, w: nat)
    requires NamesAreOld(k) && Line(k, lock, a, w) && h in k.procs && k.procs[h].Sending? && k.procs[h].lock == lock
    requires a in k.locks && (k.locks[a] == lock || k.locks[a] in k.held)
    ensures Line(Release(k, h), lock, a, w) && Occupied(Release(k, h), a) && NamesAreOld(Release(k, h))
  {
    assert Queues(Release(k, h), w, lock);
  }

  lemma FightIsLost(cfg: Config, s0: State, t0: Option<nat>, run: seq<Label>, s: State, p: nat, lock: nat, a: AgentId,
                    w: nat, id: JobId)
    returns (run': seq<Label>, end: State)
    requires Leads(cfg, s0, t0, run, s, None) && Harmless(run) && Fight(s, p, lock, a, w, id)
    ensures Miscounts(cfg, s0, t0, run', end, id)
  {
    SoleIsFirst(s.table, a, id);
    if lock !in s.loop.held {
      run', end := LinePicks(cfg, s0, t0, run, s, p, lock, a, w, id);
    } else {
      var h := s.loop.held[lock];
      var s1;
      ReleaseKeepsLine(s.loop, h, lock, a, w);
      run', s1 := ThenSendFails(cfg, s0, t0, run, s, h);
      if AckReady(s1) {
        run', s1 := WatcherGoesOn(cfg, s0, t0, run', s1, lock, a, w, id);
      }
      run', end := LinePicks(cfg, s0, t0, run', s1, p, lock, a, w, id);
    }
  }

  lemma SoleIsFirst(t: Table, a: AgentId, id: JobId)
    requires Sole(t, id) && t.rows[id].state == Pending && t.rows[id].agentId == a
    ensures IsFirst(t, a, id)
  {
  }
}
