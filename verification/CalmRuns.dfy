/** Runs from the start through points at which nothing is suspended: agents come, and jobs are submitted and sent. */
module CalmRuns {
  import opened Jobs
  import opened Store
  import opened System
  import opened Scheduling
  import opened Moves

  /** Registered agents have connections of their own. */
  ghost predicate OwnConnections(k: Loop) {
    && (forall c :: c in k.conns ==> c < k.next)
    && (forall a :: a in k.registry ==> k.registry[a] in k.conns)
    && (forall a, b :: a in k.registry && b in k.registry && k.registry[a] == k.registry[b] ==> a == b)
  }

  /** No coroutine is suspended, no lock is held, and no scan is under way. */
  ghost predicate Calm(s: State) {
    && Rests(s) && s.loop.procs == map[] && s.loop.held == map[] && s.ack == AckIdle && OwnConnections(s.loop)
    && (forall a :: a in s.loop.locks ==> s.loop.locks[a] < s.loop.next)
  }

  /** A calm point that the event loop can come to, with a clock that does not go back. */
  ghost predicate CalmAt(cfg: Config, run: seq<Label>, s: State) {
    Leads(cfg, INITIAL, None, run, s, None) && Calm(s)
  }

  /** What the job table has on a job. */
  predicate JobIs(t: Table, id: JobId, a: AgentId, state: JobState, attempts: nat) {
    && id in t.rows && t.rows[id].jobId == id && t.rows[id].agentId == a
    && t.rows[id].state == state && t.rows[id].attempts == attempts
  }

  /** Agents but this one are idle as before. */
  ghost predicate OthersIdle(k: Loop, k': Loop, a: AgentId) {
    forall x :: x != a ==> (Idle(k', x) <==> Idle(k, x))
  }

  /** The only coroutine there is has just got its lock. */
  ghost predicate Begins(s: State, turn: Option<nat>, a: AgentId) {
    && Rests(s) && s.loop.held == map[] && turn.Some? && s.loop.procs.Keys == {turn.value}
    && s.loop.procs[turn.value].Waiting? && s.loop.procs[turn.value].agent == a && OwnConnections(s.loop)
    && (forall x :: x in s.loop.locks ==> s.loop.locks[x] < s.loop.next)
    && turn.value < s.loop.next && s.loop.procs[turn.value].lock < s.loop.next
  }

  lemma ThenArrives(cfg: Config, run: seq<Label>, s: State, a: AgentId)
    returns (run': seq<Label>, s': State, turn: Option<nat>)
    requires CalmAt(cfg, run, s)
    ensures Leads(cfg, INITIAL, None, run', s', turn) && Begins(s', turn, a) && Idle(s'.loop, a)
    ensures s'.loop.conns[s'.loop.registry[a]].agentId == a
    ensures s'.table == s.table && s'.ack == AckIdle && OthersIdle(s.loop, s'.loop, a) && s'.clock == s.clock
    ensures s'.loop.sent == s.loop.sent
  {
    run', s', turn := ThenRegister(cfg, INITIAL, None, run, s, a);
  }

  lemma ThenFindsNothing(cfg: Config, run: seq<Label>, s: State, turn: Option<nat>, a: AgentId)
    returns (run': seq<Label>, s': State)
    requires Leads(cfg, INITIAL, None, run, s, turn) && Begins(s, turn, a) && s.ack == AckIdle
    requires NoCandidate(s.table, a) || !Idle(s.loop, a)
    ensures CalmAt(cfg, run', s') && s'.table == s.table && s'.clock == s.clock && s'.loop.sent == s.loop.sent
    ensures forall x :: Idle(s'.loop, x) <==> Idle(s.loop, x)
  {
    run', s' := ThenPass(cfg, INITIAL, None, run, s, turn, turn.value);
    assert s'.loop.procs == map[];
  }

  /** A job is picked and sent, which counts one attempt and leaves the agent busy. */
  lemma ThenSends(cfg: Config, run: seq<Label>, s: State, turn: Option<nat>, a: AgentId, id: JobId, n: nat)
    returns (run': seq<Label>, s': State)
    requires Leads(cfg, INITIAL, None, run, s, turn) && Begins(s, turn, a) && s.ack == AckIdle
    requires Idle(s.loop, a) && IsFirst(s.table, a, id) && JobIs(s.table, id, a, Pending, n)
    ensures CalmAt(cfg, run', s') && s'.clock == s.clock && JobIs(s'.table, id, a, Dispatched, n + 1)
    ensures s'.table.rows == s.table.rows[id := s'.table.rows[id]]
    ensures s'.table.rows[id].createdAt == s.table.rows[id].createdAt
    ensures !Idle(s'.loop, a) && OthersIdle(s.loop, s'.loop, a)
  {
    var s1;
    run', s1 := ThenPick(cfg, INITIAL, None, run, s, turn, turn.value, id);
    SentLoop(s.loop, turn.value, a, s.table.rows[id]);
    MarksIt(s.table, id, s.clock);
    run', s' := ThenSent(cfg, INITIAL, None, run', s1, turn.value);
  }

  lemma MarksIt(t: Table, id: JobId, time: int)
    requires id in t.rows && t.rows[id].state == Pending
    ensures var t' := Exec(t, MarkDispatched(id, time, time));
            && t'.rows == t.rows[id := t.rows[id].(state := Dispatched, attempts := t.rows[id].attempts + 1, updatedAt := time)]
  {
  }

  lemma SentLoop(k: Loop, p: nat, a: AgentId, job: Row)
    requires k.held == map[] && k.procs.Keys == {p} && k.procs[p].Waiting? && k.procs[p].agent == a && Idle(k, a)
    ensures var k1 := StartSend(k, p, k.registry[a], job);
            && k1.procs[p].conn in k1.conns
            && var k2 := Finish(k1, p);
               && k2.procs == map[] && k2.held == map[] && k2.registry == k.registry && k2.next == k.next && k2.locks == k.locks
               && k2.conns == k.conns[k.registry[a] := MarkBusy(k.conns[k.registry[a]])]
  {
    var k2 := Finish(StartSend(k, p, k.registry[a], job), p);
    assert k2.procs == map[] && k2.held == map[];
  }

  lemma ThenSubmits(cfg: Config, run: seq<Label>, s: State, job: Row)
    returns (run': seq<Label>, s': State, turn: Option<nat>)
    requires CalmAt(cfg, run, s) && IsNewRow(job) && Accepts(job) && job.key.None? && job.jobId !in s.table.rows
    requires NoCandidate(s.table, job.agentId) && job.createdAt == job.updatedAt == s.clock
    ensures Leads(cfg, INITIAL, None, run', s', turn) && Begins(s', turn, job.agentId) && s'.ack == AckIdle
    ensures s'.table.rows == s.table.rows[job.jobId := job] && IsFirst(s'.table, job.agentId, job.jobId)
    ensures s'.loop.registry == s.loop.registry && s'.loop.conns == s.loop.conns && s'.clock == s.clock
    ensures s'.loop.sent == s.loop.sent
  {
    run', s', turn := ThenSubmit(cfg, INITIAL, None, run, s, job);
    OnlyJobIsFirst(s.table, job, s'.table);
  }
}
