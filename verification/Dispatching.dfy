/**
 Mutual exclusion of dispatch_pending: at most one send per agent at a time, and in-flight counters that are 0 or 1.

 The disconnect path drops the agent's lock from the dictionary. This therefore holds for runs in which no
 disconnect drops a lock that a dispatch of that agent holds or waits for; LockPop shows that this condition is
 exact.
 */
module Dispatching {
  import opened Jobs
  import opened Store
  import opened System
  import opened Watchers
  import opened Wiring

  /** The agent whose dispatch_pending the coroutine runs, if it runs one. */
  predicate Dispatches(k: Loop, pid: nat, a: AgentId) {
    pid in k.procs && !k.procs[pid].Cancelling? && k.procs[pid].agent == a
  }

  predicate Active(k: Loop, a: AgentId) {
    exists pid :: pid in k.procs && Dispatches(k, pid, a)
  }

  /** The condition on the environment that mutual exclusion needs. */
  predicate LockSafe(s: State, l: Label) {
    l.Disconnect? ==> !Active(s.loop, l.agent)
  }

  ghost predicate LockSafeRun(cfg: Config, s: State, run: seq<Label>)
    decreases |run|
  {
    run == [] ||
    (Enabled(cfg, s, run[0]) && LockSafe(s, run[0]) && LockSafeRun(cfg, Apply(cfg, s, run[0]), run[1..]))
  }

  lemma {:induction false} LockSafeRunIsValid(cfg: Config, s: State, run: seq<Label>)
    requires LockSafeRun(cfg, s, run)
    ensures ValidRun(cfg, s, run)
    decreases |run|
  {
    if run != [] {
      LockSafeRunIsValid(cfg, Apply(cfg, s, run[0]), run[1..]);
    }
  }

  /** Every dispatch of an agent uses the one lock the dictionary has for it, and agents share no lock. */
  ghost predicate LocksInv(k: Loop) {
    && (forall pid :: pid in k.procs && !k.procs[pid].Cancelling? ==>
          k.procs[pid].agent in k.locks && k.locks[k.procs[pid].agent] == k.procs[pid].lock)
    && (forall a, b :: a in k.locks && b in k.locks && k.locks[a] == k.locks[b] ==> a == b)
  }

  predicate SendingFor(k: Loop, pid: nat, a: AgentId) {
    pid in k.procs && k.procs[pid].Sending? && k.procs[pid].agent == a
  }

  /** At most one coroutine per agent is between pick and mark. */
  ghost predicate Exclusive(k: Loop) {
    forall p, q, a :: SendingFor(k, p, a) && SendingFor(k, q, a) ==> p == q
  }

  lemma LocksGiveExclusion(t: Table, k: Loop)
    requires LoopOk(t, k) && LocksInv(k)
    ensures Exclusive(k)
  {
    forall p, q, a | SendingFor(k, p, a) && SendingFor(k, q, a) ensures p == q {
      assert ProcOk(t, k, p) && ProcOk(t, k, q);
    }
  }

  lemma EnterKeepsLocks(t: Table, k: Loop, a: AgentId)
    requires LoopOk(t, k) && LocksInv(k)
    ensures LocksInv(Enter(k, a))
  {
  }

  lemma LocksKept(cfg: Config, s: State, l: Label)
    requires WiringInv(s) && LocksInv(s.loop) && Enabled(cfg, s, l) && LockSafe(s, l)
    ensures LocksInv(LoopNext(cfg, s, l))
  {
    var t, k := s.table, s.loop;
    match l
    case SubmitJob(job) => EnterKeepsLocks(t, k, job.agentId);
    case Register(a, time) =>
      ConnectKeeps(t, k, a, time);
      EnterKeepsLocks(t, Connect(k, a, time), a);
    case Result(session, _, _, _, _, _, _) =>
      if session.Some? && Truthy(session.value) {
        FreeSessionKeeps(t, k, session.value);
        EnterKeepsLocks(t, FreeSession(k, session.value), session.value);
      }
    case AckHandle(_, _) => EnterKeepsLocks(t, k, s.ack.worklist[s.ack.next].agentId);
    case Disconnect(a) =>
      forall pid | pid in k.procs && !k.procs[pid].Cancelling? ensures k.procs[pid].agent != a {
        assert !Dispatches(k, pid, a);
      }
    case Restart =>
    case _ => NoNewDispatch(cfg, s, l);
  }

  /** The other segments start no dispatch and touch no lock entry. */
  lemma NoNewDispatch(cfg: Config, s: State, l: Label)
    requires !l.SubmitJob? && !l.Register? && !l.Result? && !l.AckHandle? && !l.Disconnect? && !l.Restart?
    ensures var k, k' := s.loop, LoopNext(cfg, s, l);
            && k'.locks == k.locks
            && forall pid :: pid in k'.procs && !k'.procs[pid].Cancelling? ==>
                 && pid in k.procs && !k.procs[pid].Cancelling?
                 && k'.procs[pid].agent == k.procs[pid].agent && k'.procs[pid].lock == k.procs[pid].lock
  {
    match l
    case CancelBegin(_) =>
    case CancelEnd(_, _, _) =>
    case Acquire(_, _) =>
    case SendOk(_, _, _) =>
    case _ =>
  }

  // ---------------------------------------------------------------- in-flight counters

  /** The connection of a send under way has nothing in flight. */
  predicate SendIdle(k: Loop, pid: nat) {
    pid in k.procs && k.procs[pid].Sending? && k.procs[pid].conn in k.conns && k.conns[k.procs[pid].conn].inFlight == 0
  }

  ghost predicate CountersInv(k: Loop) {
    && (forall pid :: pid in k.procs && k.procs[pid].Sending? ==> SendIdle(k, pid))
    && (forall c :: c in k.conns ==> k.conns[c].inFlight <= 1)
  }

  /** No send starts, and no counter goes up. */
  ghost predicate Calm(k: Loop, k': Loop) {
    && (forall pid :: pid in k'.procs && k'.procs[pid].Sending? ==> pid in k.procs && k.procs[pid] == k'.procs[pid])
    && (forall c :: c in k.conns ==> c in k'.conns)
    && (forall c :: c in k'.conns ==> k'.conns[c].inFlight <= if c in k.conns then k.conns[c].inFlight else 0)
  }

  lemma OtherSegmentsAreCalm(cfg: Config, s: State, l: Label)
    requires Enabled(cfg, s, l) && !l.Acquire? && !l.SendOk?
    ensures Calm(s.loop, LoopNext(cfg, s, l))
  {
  }

  lemma CalmKeepsCounters(k: Loop, k': Loop)
    requires CountersInv(k) && Calm(k, k')
    ensures CountersInv(k')
  {
    forall pid | pid in k'.procs && k'.procs[pid].Sending? ensures SendIdle(k', pid) {
      assert SendIdle(k, pid);
    }
  }

  lemma FinishKeepsCounters(t: Table, k: Loop, pid: nat)
    requires CountersInv(k) && LoopOk(t, k) && LocksInv(k) && SendIdle(k, pid)
    ensures CountersInv(Finish(k, pid))
  {
    var p := k.procs[pid];
    var k' := Finish(k, pid);
    LocksGiveExclusion(t, k);
    assert ProcOk(t, k, pid) && SendingFor(k, pid, p.agent);
    forall q | q in k'.procs && k'.procs[q].Sending? ensures SendIdle(k', q) {
      assert ProcOk(t, k, q) && SendIdle(k, q);
      assert !SendingFor(k, q, p.agent);
    }
  }

  lemma AcquireKeepsCounters(cfg: Config, s: State, pid: nat, pick: Option<JobId>)
    requires CountersInv(s.loop) && Enabled(cfg, s, Acquire(pid, pick))
    ensures CountersInv(LoopNext(cfg, s, Acquire(pid, pick)))
  {
    var k, k' := s.loop, LoopNext(cfg, s, Acquire(pid, pick));
    forall q | q in k'.procs && k'.procs[q].Sending? ensures SendIdle(k', q) {
      assert q != pid ==> SendIdle(k, q);
    }
  }

  lemma CountersKept(cfg: Config, s: State, l: Label)
    requires WiringInv(s) && LocksInv(s.loop) && CountersInv(s.loop) && Enabled(cfg, s, l)
    ensures CountersInv(LoopNext(cfg, s, l))
  {
    if l.SendOk? {
      assert SendIdle(s.loop, l.pid);
      FinishKeepsCounters(s.table, s.loop, l.pid);
    } else if l.Acquire? {
      AcquireKeepsCounters(cfg, s, l.pid, l.pick);
    } else {
      OtherSegmentsAreCalm(cfg, s, l);
      CalmKeepsCounters(s.loop, LoopNext(cfg, s, l));
    }
  }

  ghost predicate DispatchInv(s: State) {
    WiringInv(s) && LocksInv(s.loop) && CountersInv(s.loop)
  }

  lemma DispatchKept(cfg: Config, s: State, l: Label)
    requires Inv(cfg, s) && DispatchInv(s) && Enabled(cfg, s, l) && LockSafe(s, l)
    ensures DispatchInv(Apply(cfg, s, l))
  {
    WiringKept(cfg, s, l);
    LocksKept(cfg, s, l);
    CountersKept(cfg, s, l);
  }

  lemma {:induction false} RunKeepsDispatch(cfg: Config, s: State, run: seq<Label>)
    requires Inv(cfg, s) && DispatchInv(s) && LockSafeRun(cfg, s, run) && cfg.maxAttempts >= 1
    ensures Inv(cfg, After(cfg, s, run)) && DispatchInv(After(cfg, s, run))
    decreases |run|
  {
    if run != [] {
      DispatchKept(cfg, s, run[0]);
      InvKept(cfg, s, run[0]);
      RunKeepsDispatch(cfg, Apply(cfg, s, run[0]), run[1..]);
    }
  }

  /** With any number of concurrent dispatch_pending calls, for agents of any name: one send per agent at a time,
      counters 0 or 1. */
  lemma {:induction false} DispatchIsExclusive(cfg: Config, run: seq<Label>)
    requires cfg.maxAttempts >= 1 && LockSafeRun(cfg, INITIAL, run)
    ensures var k := After(cfg, INITIAL, run).loop;
            Exclusive(k) && forall c :: c in k.conns ==> k.conns[c].inFlight <= 1
  {
    RunKeepsDispatch(cfg, INITIAL, run);
    LocksGiveExclusion(After(cfg, INITIAL, run).table, After(cfg, INITIAL, run).loop);
  }
}
