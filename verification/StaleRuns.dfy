/**
 Runs in which the ack watcher meets a RUNNING job. While it waits for a dispatch it can be brought to one, if its
 next entry is to be given up and that job is not finished; and from the start there is such a run for every limit
 of at least two attempts.
 */
module StaleRuns {
  import opened Jobs
  import opened Store
  import opened System
  import opened Scheduling
  import opened Moves
  import opened Watchers
  import opened Wiring
  import opened History
  import opened StaleCopies
  import opened CalmRuns

  // ---------------------------------------------------------------- the dispatch that the watcher waits for ends

  function Line(k: Loop, lock: nat): set<nat> {
    set q | q in k.procs && Queues(k, q, lock)
  }

  /** Who sends holds its lock, and who holds a lock sends. */
  ghost predicate SendersHold(k: Loop) {
    && (forall q :: q in k.procs && k.procs[q].Sending? ==> k.procs[q].lock in k.held && k.held[k.procs[q].lock] == q)
    && (forall l :: l in k.held ==> k.held[l] in k.procs && k.procs[k.held[l]].Sending? && k.procs[k.held[l]].lock == l)
  }

  lemma WiredSendersHold(s: State)
    requires WiringInv(s)
    ensures SendersHold(s.loop)
  {
    forall q | q in s.loop.procs && s.loop.procs[q].Sending?
      ensures s.loop.procs[q].lock in s.loop.held && s.loop.held[s.loop.procs[q].lock] == q
    {
      assert ProcOk(s.table, s.loop, q);
    }
    forall l | l in s.loop.held
      ensures s.loop.held[l] in s.loop.procs && s.loop.procs[s.loop.held[l]].Sending? && s.loop.procs[s.loop.held[l]].lock == l
    {
      assert HolderOk(s.loop, l);
    }
  }

  /** One coroutine less waits for the lock; it is gone, or sends. */
  ghost predicate HasGone(k: Loop, k': Loop, q: nat) {
    && q in k.procs && k.procs[q].Waiting? && SendersHold(k') && Line(k', k.procs[q].lock) == Line(k, k.procs[q].lock) - {q}
    && (forall x :: x in k.procs && x != q ==> x in k'.procs && k'.procs[x] == k.procs[x])
    && (q in k'.procs ==> k'.procs[q].Sending? && k'.procs[q].lock == k.procs[q].lock)
  }

  lemma LeavingGoes(k: Loop, q: nat)
    requires q in k.procs && k.procs[q].Waiting? && SendersHold(k)
    ensures HasGone(k, Leave(k, q), q)
  {
  }

  lemma SendingGoes(k: Loop, q: nat, conn: nat, job: Row)
    requires q in k.procs && k.procs[q].Waiting? && k.procs[q].lock !in k.held && SendersHold(k)
    ensures HasGone(k, StartSend(k, q, conn, job), q)
  {
  }

  /** The first in line has its turn. */
  lemma ThenFirstGoes(cfg: Config, s0: State, t0: Option<nat>, run: seq<Label>, s: State, p: nat, q: nat)
    returns (run': seq<Label>, s': State)
    requires Leads(cfg, s0, t0, run, s, None) && Rests(s) && Awaits(s, p) && p in s.loop.procs && SendersHold(s.loop)
    requires q in s.loop.procs && s.loop.procs[q].Waiting? && FirstInLine(s.loop, q) && s.loop.procs[q].lock !in s.loop.held
    ensures Leads(cfg, s0, t0, run', s', None) && s'.table == s.table && s'.ack == s.ack && HasGone(s.loop, s'.loop, q)
    ensures if p in s'.loop.procs then Rests(s') else AckReady(s')
  {
    var a := s.loop.procs[q].agent;
    if Idle(s.loop, a) && !NoCandidate(s.table, a) {
      var pick := FirstExists(s.table, a);
      SendingGoes(s.loop, q, s.loop.registry[a], s.table.rows[pick]);
      run', s' := ThenPick(cfg, s0, t0, run, s, None, q, pick);
    } else {
      LeavingGoes(s.loop, q);
      run', s' := ThenPass(cfg, s0, t0, run, s, None, q);
    }
  }

  /** Sends fail and dispatches go, until the watcher can go on. Nothing is stored. */
  lemma {:induction false} ThenDispatchEnds(cfg: Config, s0: State, t0: Option<nat>, run: seq<Label>, s: State, p: nat)
    returns (run': seq<Label>, s': State)
    requires Leads(cfg, s0, t0, run, s, None) && Rests(s) && Awaits(s, p) && SendersHold(s.loop)
    requires p in s.loop.procs && !s.loop.procs[p].Cancelling?
    ensures Leads(cfg, s0, t0, run', s', None) && s'.table == s.table && s'.ack == s.ack && AckReady(s')
    decreases |Line(s.loop, s.loop.procs[p].lock)|, if s.loop.procs[p].lock in s.loop.held then 1 else 0
  {
    var lock := s.loop.procs[p].lock;
    if s.loop.procs[p].Sending? {
      run', s' := ThenSendFails(cfg, s0, t0, run, s, p);
    } else if lock in s.loop.held {
      run', s' := ThenSendFails(cfg, s0, t0, run, s, s.loop.held[lock]);
      assert Line(s'.loop, lock) == Line(s.loop, lock);
      run', s' := ThenDispatchEnds(cfg, s0, t0, run', s', p);
    } else {
      var q := LineHasFirst(s.loop, p);
      run', s' := ThenFirstGoes(cfg, s0, t0, run, s, p, q);
      assert q in Line(s.loop, lock);
      if p in s'.loop.procs {
        assert s'.loop.procs[p].lock == lock;
        run', s' := ThenDispatchEnds(cfg, s0, t0, run', s', p);
      }
    }
  }

  // ---------------------------------------------------------------- what a waiting scan can still do

  /** The event loop brings the watcher, in the same scan, to a next entry that is RUNNING. */
  ghost predicate BringsToRunning(cfg: Config, s: State, run: seq<Label>) {
    && LoopRun(cfg, s, None, run) && Ticking(s.clock, run)
    && After(cfg, s, run).ack == s.ack && MeetsRunning(cfg, After(cfg, s, run))
  }

  /** While the watcher waits, and its next entry is to be given up: it can meet that job RUNNING if and only if the
      job is not finished yet. */
  lemma WaitingScanExact(cfg: Config, s: State)
    requires Inv(cfg, s) && WiringInv(s) && Rests(s) && ScanWaits(cfg, s, None) && cfg.maxAttempts >= 1
    requires HasEntry(s.ack) && s.ack.worklist[s.ack.next].attempts >= cfg.maxAttempts
    ensures var id := s.ack.worklist[s.ack.next].jobId;
            && id in s.table.rows
            && ((exists run :: BringsToRunning(cfg, s, run)) <==> !IsTerminal(s.table.rows[id].state))
  {
    var id := s.ack.worklist[s.ack.next].jobId;
    assert Unhandled(s.table, s.ack.worklist[s.ack.next]);
    if IsTerminal(s.table.rows[id].state) {
      forall run ensures !BringsToRunning(cfg, s, run) {
        if BringsToRunning(cfg, s, run) {
          LoopRunIsValid(cfg, s, None, run);
          TerminalFrozen(cfg, s, run, id);
        }
      }
    } else {
      var run := BroughtToRunning(cfg, s, id);
    }
  }

  lemma BroughtToRunning(cfg: Config, s: State, id: JobId) returns (run: seq<Label>)
    requires WiringInv(s) && Rests(s) && ScanWaits(cfg, s, None)
    requires HasEntry(s.ack) && s.ack.worklist[s.ack.next].attempts >= cfg.maxAttempts
    requires id == s.ack.worklist[s.ack.next].jobId && id in s.table.rows
    requires s.table.rows[id].state == Dispatched || s.table.rows[id].state == Running
    ensures BringsToRunning(cfg, s, run)
  {
    var s1;
    WiredSendersHold(s);
    run, s1 := ThenStarts(cfg, s, None, [], s, id);
    StartsIt(s.table, id, s.clock);
    run, s1 := ThenDispatchEnds(cfg, s, None, run, s1, s.ack.awaiting.value);
  }

  lemma StartsIt(t: Table, id: JobId, time: int)
    requires id in t.rows && (t.rows[id].state == Dispatched || t.rows[id].state == Running)
    ensures var t' := Exec(t, MarkRunning(id, time)); id in t'.rows && t'.rows[id].state == Running
  {
  }

  // ---------------------------------------------------------------- until one attempt is left

  /** Late enough for the copy of the job to be overdue. */
  function Late(cfg: Config, clock: int, r: Row): int {
    if clock - r.updatedAt > cfg.ackTimeout then clock else r.updatedAt + cfg.ackTimeout + 1
  }

  /** The only job was dispatched, was not acknowledged, and is requeued; its agent is busy. */
  lemma ThenRequeuesAlone(cfg: Config, run: seq<Label>, s: State, a: AgentId, id: JobId, n: nat)
    returns (run': seq<Label>, s': State)
    requires CalmAt(cfg, run, s) && s.table.rows.Keys == {id} && JobIs(s.table, id, a, Dispatched, n)
    requires n < cfg.maxAttempts && !Idle(s.loop, a)
    ensures CalmAt(cfg, run', s') && s'.table.rows.Keys == {id} && JobIs(s'.table, id, a, Pending, n)
    ensures s'.table.rows[id].createdAt == s.table.rows[id].createdAt && s.clock <= s'.clock
  {
    var row := s.table.rows[id];
    var s1, turn;
    assert [row][0].jobId == id && Lists([row], id);
    run', s1 := ThenScans(cfg, INITIAL, None, run, s, Late(cfg, s.clock, row), [row]);
    RequeuesIt(s.table, id, s1.clock);
    run', s1, turn := ThenRequeues(cfg, INITIAL, None, run', s1);
    run', s1 := ThenPass(cfg, INITIAL, None, run', s1, turn, s.loop.next);
    assert s1.loop.procs == map[];
    run', s' := ThenScanEnds(cfg, INITIAL, None, run', s1);
  }

  lemma RequeuesIt(t: Table, id: JobId, time: int)
    requires id in t.rows && t.rows[id].state == Dispatched
    ensures var t' := Exec(t, Requeue(id, time));
            t'.rows == t.rows[id := t.rows[id].(state := Pending, updatedAt := time)]
  {
  }

  lemma FirstAttempt(cfg: Config, a: AgentId, id: JobId) returns (run: seq<Label>, s: State)
    requires Truthy(a)
    ensures CalmAt(cfg, run, s) && s.table.rows.Keys == {id} && JobIs(s.table, id, a, Dispatched, 1)
    ensures !Idle(s.loop, a) && s.table.rows[id].createdAt <= s.clock
  {
    var s1, s2, turn;
    run, s1, turn := ThenArrives(cfg, [], INITIAL, a);
    run, s2 := ThenFindsNothing(cfg, run, s1, turn, a);
    run, s1, turn := ThenSubmits(cfg, run, s2, NewRow(id, a, "", 1, None, 0, s2.clock, s2.clock));
    run, s := ThenSends(cfg, run, s1, turn, a, id, 0);
  }

  /** The agent registers again, which makes it idle, and its dispatch sends the requeued job. */
  lemma NextAttempt(cfg: Config, run: seq<Label>, s: State, a: AgentId, id: JobId, n: nat)
    returns (run': seq<Label>, s': State)
    requires CalmAt(cfg, run, s) && s.table.rows.Keys == {id} && JobIs(s.table, id, a, Dispatched, n)
    requires n < cfg.maxAttempts && !Idle(s.loop, a) && Truthy(a) && s.table.rows[id].createdAt <= s.clock
    ensures CalmAt(cfg, run', s') && s'.table.rows.Keys == {id} && JobIs(s'.table, id, a, Dispatched, n + 1)
    ensures !Idle(s'.loop, a) && s'.table.rows[id].createdAt <= s'.clock
  {
    var s1, s2, turn;
    run', s1 := ThenRequeuesAlone(cfg, run, s, a, id, n);
    run', s2, turn := ThenArrives(cfg, run', s1, a);
    run', s' := ThenSends(cfg, run', s2, turn, a, id, n);
  }

  lemma {:induction false} Attempts(cfg: Config, a: AgentId, id: JobId, n: nat) returns (run: seq<Label>, s: State)
    requires Truthy(a) && 1 <= n <= cfg.maxAttempts
    ensures CalmAt(cfg, run, s) && s.table.rows.Keys == {id} && JobIs(s.table, id, a, Dispatched, n)
    ensures !Idle(s.loop, a) && s.table.rows[id].createdAt <= s.clock
  {
    if n == 1 {
      run, s := FirstAttempt(cfg, a, id);
    } else {
      run, s := Attempts(cfg, a, id, n - 1);
      run, s := NextAttempt(cfg, run, s, a, id, n - 1);
    }
  }

  // ---------------------------------------------------------------- a second job makes the watcher wait

  /** Two dispatched jobs: one with an attempt left, whose agent is idle, and an older one without. */
  ghost predicate TwoOverdue(cfg: Config, s: State, a: AgentId, id: JobId, last: JobId) {
    && id != last && Truthy(a) && s.table.rows.Keys == {id, last} && Idle(s.loop, a)
    && JobIs(s.table, id, a, Dispatched, 1)
    && last in s.table.rows && s.table.rows[last].jobId == last
    && s.table.rows[last].state == Dispatched && s.table.rows[last].attempts == cfg.maxAttempts
    && s.table.rows[last].createdAt <= s.table.rows[id].createdAt
  }

  /** A job dispatched as often as it may be. */
  ghost predicate Spent(cfg: Config, t: Table, last: JobId, now: int) {
    && last in t.rows && t.rows[last].jobId == last && t.rows[last].state == Dispatched
    && t.rows[last].attempts == cfg.maxAttempts && t.rows[last].createdAt <= now
  }

  /** The last attempt of one job, and another agent that finds nothing to do. */
  lemma FirstJob(cfg: Config, a: AgentId, b: AgentId, last: JobId) returns (run: seq<Label>, s: State)
    requires Truthy(a) && Truthy(b) && a != b && cfg.maxAttempts >= 2
    ensures CalmAt(cfg, run, s) && s.table.rows.Keys == {last} && Spent(cfg, s.table, last, s.clock) && Idle(s.loop, a)
  {
    var s1, s2, turn;
    run, s1 := Attempts(cfg, b, last, cfg.maxAttempts);
    run, s2, turn := ThenArrives(cfg, run, s1, a);
    run, s := ThenFindsNothing(cfg, run, s2, turn, a);
  }

  /** A job for that agent, which registers again after its first attempt. */
  lemma SecondJob(cfg: Config, a: AgentId, b: AgentId, id: JobId, last: JobId) returns (run: seq<Label>, s: State)
    requires Truthy(a) && Truthy(b) && a != b && id != last && cfg.maxAttempts >= 2
    ensures CalmAt(cfg, run, s) && TwoOverdue(cfg, s, a, id, last)
  {
    var s1, s2, turn;
    run, s1 := FirstJob(cfg, a, b, last);
    run, s2, turn := ThenSubmits(cfg, run, s1, NewRow(id, a, "", 1, None, 0, s1.clock, s1.clock));
    run, s1 := ThenSends(cfg, run, s2, turn, a, id, 0);
    run, s2, turn := ThenArrives(cfg, run, s1, a);
    run, s := ThenFindsNothing(cfg, run, s2, turn, a);
  }

  /** Both are overdue: the watcher requeues the first and waits for its send. */
  lemma ThenWaits(cfg: Config, run: seq<Label>, s: State, a: AgentId, id: JobId, last: JobId)
    returns (run': seq<Label>, s': State)
    requires CalmAt(cfg, run, s) && TwoOverdue(cfg, s, a, id, last) && cfg.maxAttempts >= 2
    ensures Leads(cfg, INITIAL, None, run', s', None) && Rests(s') && HasEntry(s'.ack) && s'.ack.awaiting.Some?
    ensures s'.ack.awaiting.value in s'.loop.procs && s'.loop.procs[s'.ack.awaiting.value].Sending?
    ensures s'.ack.worklist[s'.ack.next].jobId == last && s'.ack.worklist[s'.ack.next].attempts == cfg.maxAttempts
    ensures last in s'.table.rows && s'.table.rows[last].state == Dispatched
  {
    var first, second := s.table.rows[id], s.table.rows[last];
    var late1, late2 := Late(cfg, s.clock, first), Late(cfg, s.clock, second);
    var now := if late1 < late2 then late2 else late1;
    BothListed(cfg, s, a, id, last, now);
    var s1, turn;
    run', s1 := ThenScans(cfg, INITIAL, None, run, s, now, [first, second]);
    RequeuesIt(s.table, id, now);
    run', s1, turn := ThenRequeues(cfg, INITIAL, None, run', s1);
    assert IsFirst(s1.table, a, id);
    run', s' := ThenPick(cfg, INITIAL, None, run', s1, turn, s.loop.next, id);
  }

  lemma BothListed(cfg: Config, s: State, a: AgentId, id: JobId, last: JobId, now: int)
    requires TwoOverdue(cfg, s, a, id, last)
    requires Late(cfg, s.clock, s.table.rows[id]) <= now && Late(cfg, s.clock, s.table.rows[last]) <= now
    ensures Snapshot(cfg, AckWatch(now), s.table, [s.table.rows[id], s.table.rows[last]])
  {
    var worklist := [s.table.rows[id], s.table.rows[last]];
    assert worklist[0].jobId == id && worklist[1].jobId == last;
    assert Lists(worklist, id) && Lists(worklist, last);
  }

  /** For every limit of at least two attempts, any two agents and any two jobs there is a run, with a clock that does
      not go back, that brings the watcher to a RUNNING job. */
  lemma WatcherMeetsRunning(cfg: Config, a: AgentId, b: AgentId, id: JobId, last: JobId)
    returns (run: seq<Label>, s: State)
    requires Truthy(a) && Truthy(b) && a != b && id != last && cfg.maxAttempts >= 2
    ensures Leads(cfg, INITIAL, None, run, s, None) && MeetsRunning(cfg, s)
    ensures s.ack.worklist[s.ack.next].jobId == last
  {
    run, s := SecondJob(cfg, a, b, id, last);
    run, s := ThenWaits(cfg, run, s, a, id, last);
    StartsIt(s.table, last, s.clock);
    run, s := ThenStarts(cfg, INITIAL, None, run, s, last);
    run, s := ThenSendFails(cfg, INITIAL, None, run, s, s.ack.awaiting.value);
  }

  /** A run from the start that brings the watcher to a RUNNING job. */
  ghost predicate StartsToRunning(cfg: Config, run: seq<Label>) {
    LoopRun(cfg, INITIAL, None, run) && MeetsRunning(cfg, After(cfg, INITIAL, run))
  }

  /** So the watcher can meet a RUNNING job if and only if the limit is at least two attempts. */
  lemma {:induction false} LimitIsExact(cfg: Config)
    requires cfg.maxAttempts >= 1
    ensures (exists run :: StartsToRunning(cfg, run)) <==> cfg.maxAttempts >= 2
  {
    if cfg.maxAttempts >= 2 {
      var run, s := WatcherMeetsRunning(cfg, AgentId("a"), AgentId("b"), JobId("1"), JobId("2"));
      assert StartsToRunning(cfg, run);
    } else {
      forall run ensures !StartsToRunning(cfg, run) {
        if StartsToRunning(cfg, run) {
          LimitOneMeetsNone(cfg, INITIAL, None, run);
        }
      }
    }
  }
}
