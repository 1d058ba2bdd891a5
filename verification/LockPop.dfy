/**
 The condition under which dispatch stays mutually exclusive is exact: dropping an agent's lock is safe, whatever
 the event loop does later, if and only if no dispatch of that agent holds or waits for it, and no other segment
 is unsafe.
 */
module LockPop {
  import opened Jobs
  import opened System
  import opened Scheduling
  import opened Moves
  import opened Watchers
  import opened Wiring
  import opened Dispatching

  /** Whatever safe segments the event loop runs after this one, dispatch of every agent stays mutually exclusive. */
  ghost predicate KeepsExclusion(cfg: Config, s: State, l: Label) {
    forall run :: LoopRun(cfg, Apply(cfg, s, l), Turn(cfg, s, l), run) && LockSafeRun(cfg, Apply(cfg, s, l), run)
                  && Ticking(Apply(cfg, s, l).clock, run) ==>
      Exclusive(After(cfg, Apply(cfg, s, l), run).loop)
  }

  lemma {:induction false} HarmlessIsLockSafe(cfg: Config, s: State, turn: Option<nat>, run: seq<Label>)
    requires LoopRun(cfg, s, turn, run) && Harmless(run)
    ensures LockSafeRun(cfg, s, run)
    decreases |run|
  {
    if run != [] {
      assert forall i :: 0 <= i < |run[1..]| ==> run[1..][i] == run[i + 1];
      HarmlessIsLockSafe(cfg, Apply(cfg, s, run[0]), Turn(cfg, s, run[0]), run[1..]);
    }
  }

  /** If a dispatch of the agent is active, one of them sends, or is first in line for a lock that is free. */
  lemma SendsOrMay(s: State, a: AgentId) returns (p: nat)
    requires LoopOk(s.table, s.loop) && LocksInv(s.loop) && Active(s.loop, a)
    ensures Dispatches(s.loop, p, a)
    ensures s.loop.procs[p].Waiting? ==> s.loop.procs[p].lock !in s.loop.held && FirstInLine(s.loop, p)
  {
    p :| p in s.loop.procs && Dispatches(s.loop, p, a);
    var lock := s.loop.procs[p].lock;
    if s.loop.procs[p].Waiting? {
      if lock in s.loop.held {
        assert HolderOk(s.loop, lock);
        p := s.loop.held[lock];
      } else {
        p := LineHasFirst(s.loop, p);
      }
    }
  }

  // ---------------------------------------------------------------- the agent comes back

  /** Coroutine `w` has begun to send for the agent, which is idle; the older coroutines are where they were. */
  ghost predicate Joined(k: Loop, k': Loop, a: AgentId, w: nat) {
    && SendingFor(k', w, a) && w !in k.procs && Idle(k', a)
    && (forall p :: p in k.procs ==> p in k'.procs && k'.procs[p] == k.procs[p])
    && (forall p :: p in k'.procs && k'.procs[p].Waiting? ==> p in k.procs)
    && (forall l :: l < k.next && l !in k.held ==> l !in k'.held)
  }

  /** The agent's connection is gone. */
  predicate Gone(s: State, s0: State, a: AgentId) {
    s0.table == s.table && s0.loop == Dropped(s.loop, a) && s0.ack == s.ack && s0.clock == s.clock && Rests(s0)
  }

  /** It comes back, and its dispatch has a new lock at once. */
  lemma Returns(cfg: Config, s: State, s0: State, a: AgentId) returns (run: seq<Label>, end: State)
    requires Gone(s, s0, a) && NamesAreOld(s.loop) && Truthy(a)
    ensures Leads(cfg, s0, None, run, end, Some(s.loop.next + 1)) && Harmless(run)
    ensures MayAcquire(end, Some(s.loop.next + 1), s.loop.next + 1) && !Awaits(end, s.loop.next + 1)
    ensures end.table == s.table && end.loop == Enter(Connect(Dropped(s.loop, a), a, s.clock), a) && end.clock == s.clock
  {
    var turn;
    run, end, turn := ThenRegister(cfg, s0, None, [], s0, a);
    NewLockIsFree(s.loop, end.loop, a, s.clock);
    FreeToAcquire(end, s.loop.next + 1);
  }

  lemma NewLockIsFree(k: Loop, k': Loop, a: AgentId, t: int)
    requires NamesAreOld(k) && k' == Enter(Connect(Dropped(k, a), a, t), a)
    ensures Uncontended(k', k.next + 1)
  {
  }

  lemma FreeToAcquire(s: State, pid: nat)
    requires Rests(s) && Uncontended(s.loop, pid)
    ensures MayAcquire(s, Some(pid), pid)
  {
  }

  /** The returning agent's own dispatch picks a job that is pending already. */
  lemma PicksOnReturn(cfg: Config, s: State, s0: State, a: AgentId)
    returns (run: seq<Label>, end: State, w: nat, pick: JobId)
    requires Gone(s, s0, a) && NamesAreOld(s.loop) && Truthy(a) && !NoCandidate(s.table, a)
    ensures Leads(cfg, s0, None, run, end, None) && Harmless(run) && Rests(end)
    ensures Joined(s.loop, end.loop, a, w) && IsFirst(end.table, a, pick)
  {
    var s1;
    run, s1 := Returns(cfg, s, s0, a);
    w := s.loop.next + 1;
    pick := FirstExists(s.table, a);
    run, end := ThenPick(cfg, s0, None, run, s1, Some(w), w, pick);
    ReturnJoins(s.loop, end.loop, a, s.clock, s.table.rows[pick]);
  }

  lemma ReturnJoins(k: Loop, k': Loop, a: AgentId, t: int, job: Row)
    requires NamesAreOld(k)
    requires var k1 := Enter(Connect(Dropped(k, a), a, t), a); k' == StartSend(k1, k.next + 1, k.next, job)
    ensures Joined(k, k', a, k.next + 1)
  {
  }

  /** It leaves, and the dispatch of the next job that is submitted takes its lock at once. */
  lemma SubmitsOnReturn(cfg: Config, s: State, s0: State, a: AgentId)
    returns (run: seq<Label>, end: State, w: nat, pick: JobId)
    requires Gone(s, s0, a) && NamesAreOld(s.loop) && Truthy(a) && NoCandidate(s.table, a)
    ensures Leads(cfg, s0, None, run, end, None) && Harmless(run) && Rests(end)
    ensures Joined(s.loop, end.loop, a, w) && IsFirst(end.table, a, pick)
  {
    var s1, s2, s3, turn;
    run, s1 := Returns(cfg, s, s0, a);
    run, s2 := ThenPass(cfg, s0, None, run, s1, Some(s.loop.next + 1), s.loop.next + 1);
    ReturnLeaves(s0.loop, s2.loop, a, s.clock);
    var job := AcceptedJob(s.table, a, s2.clock);
    run, s3, turn := ThenSubmit(cfg, s0, None, run, s2, job);
    OnlyJobIsFirst(s.table, job, s3.table);
    pick, w := job.jobId, s2.loop.next;
    SubmitJoins(s.loop, s2.loop, a, job);
    run, end := ThenPick(cfg, s0, None, run, s3, turn, w, pick);
  }

  /** The agent is back, and its own dispatch has come and gone: it is idle and has a new lock that nobody uses. */
  ghost predicate Back(k: Loop, k': Loop, a: AgentId) {
    && Idle(k', a) && k'.procs == k.procs && k'.held == k.held && k'.sent == k.sent && k.next < k'.next
    && a in k'.locks && k.next <= k'.locks[a] < k'.next && k'.locks == k.locks[a := k'.locks[a]]
  }

  lemma ReturnLeaves(k: Loop, k': Loop, a: AgentId, t: int)
    requires NamesAreOld(k) && a !in k.locks && k' == Leave(Enter(Connect(k, a, t), a), k.next + 1)
    ensures Back(k, k', a) && NamesAreOld(k')
  {
    assert k'.procs == k.procs;
  }

  lemma SubmitJoins(k: Loop, k': Loop, a: AgentId, job: Row)
    requires NamesAreOld(k) && Back(Dropped(k, a), k', a)
    ensures var k1 := Enter(k', a);
            && k'.next !in k'.procs && Uncontended(k1, k'.next) && Idle(k1, a)
            && Joined(k, StartSend(k1, k'.next, k1.registry[a], job), a, k'.next)
  {
  }

  /** From any state that satisfies the invariants, dropping a lock in use can be continued to two sends for one agent
      at a time. */
  lemma DropInUseBreaksExclusion(cfg: Config, s: State, a: AgentId) returns (run: seq<Label>, end: State)
    requires DispatchInv(s) && Rests(s) && Truthy(a) && Active(s.loop, a)
    ensures Leads(cfg, Apply(cfg, s, Disconnect(a)), None, run, end, None) && Harmless(run)
    ensures !Exclusive(end.loop)
  {
    LoopIsOld(s.table, s.loop);
    var p := SendsOrMay(s, a);
    DropMove(cfg, s, a);
    run, end := SecondSender(cfg, s, Apply(cfg, s, Disconnect(a)), a, p);
  }

  lemma SecondSender(cfg: Config, s: State, s0: State, a: AgentId, p: nat) returns (run: seq<Label>, end: State)
    requires Gone(s, s0, a) && NamesAreOld(s.loop) && Truthy(a) && Dispatches(s.loop, p, a)
    requires s.loop.procs[p].Waiting? ==> s.loop.procs[p].lock !in s.loop.held && FirstInLine(s.loop, p)
    ensures Leads(cfg, s0, None, run, end, None) && Harmless(run) && !Exclusive(end.loop)
  {
    var w, pick;
    if NoCandidate(s.table, a) {
      run, end, w, pick := SubmitsOnReturn(cfg, s, s0, a);
    } else {
      run, end, w, pick := PicksOnReturn(cfg, s, s0, a);
    }
    if s.loop.procs[p].Waiting? {
      run, end := ThenPick(cfg, s0, None, run, end, None, p, pick);
    }
    assert SendingFor(end.loop, p, a) && SendingFor(end.loop, w, a);
  }

  /** The condition is exact: in any state that satisfies the invariants, a segment that may run keeps exclusion,
      whatever safe segments follow, if and only if it drops no lock that a dispatch holds or waits for. */
  lemma LockSafeIsExact(cfg: Config, s: State, turn: Option<nat>, l: Label)
    requires Inv(cfg, s) && DispatchInv(s) && Enabled(cfg, s, l) && MayRun(s, turn, l) && cfg.maxAttempts >= 1
    ensures KeepsExclusion(cfg, s, l) <==> LockSafe(s, l)
  {
    var s1 := Apply(cfg, s, l);
    if LockSafe(s, l) {
      DispatchKept(cfg, s, l);
      InvKept(cfg, s, l);
      forall run | LoopRun(cfg, s1, Turn(cfg, s, l), run) && LockSafeRun(cfg, s1, run) && Ticking(s1.clock, run)
        ensures Exclusive(After(cfg, s1, run).loop)
      {
        RunKeepsDispatch(cfg, s1, run);
        LocksGiveExclusion(After(cfg, s1, run).table, After(cfg, s1, run).loop);
      }
    } else {
      var run, end := DropInUseBreaksExclusion(cfg, s, l.agent);
      HarmlessIsLockSafe(cfg, s1, None, run);
    }
  }
}
