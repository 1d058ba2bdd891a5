/** Runs of the event loop, built segment by segment, and what single segments do on the way. */
module Moves {
  import opened Jobs
  import opened Ordering
  import opened Store
  import opened System
  import opened Scheduling
  import opened Wiring
  import opened FreshNames

  /** The run leads from one point of the event loop to another, and the clock does not go back on the way. */
  ghost predicate Leads(cfg: Config, s: State, turn: Option<nat>, run: seq<Label>, s': State, turn': Option<nat>) {
    && LoopRun(cfg, s, turn, run) && After(cfg, s, run) == s' && TurnAfter(cfg, s, turn, run) == turn'
    && Ticking(s.clock, run)
  }

  /** Nobody disconnects, and nobody registers with an empty id. */
  predicate Harmless(run: seq<Label>) {
    forall i :: 0 <= i < |run| ==> !run[i].Disconnect? && (run[i].Register? ==> Truthy(run[i].agent))
  }

  lemma {:induction false} TickingSplit(cfg: Config, s: State, r1: seq<Label>, r2: seq<Label>)
    ensures Ticking(s.clock, r1 + r2) <==> Ticking(s.clock, r1) && Ticking(After(cfg, s, r1).clock, r2)
    decreases |r1|
  {
    if r1 == [] {
      assert r1 + r2 == r2;
    } else {
      assert (r1 + r2)[1..] == r1[1..] + r2;
      TickingSplit(cfg, Apply(cfg, s, r1[0]), r1[1..], r2);
    }
  }

  /** The readings of a segment are taken in order, and not before the last one. */
  predicate InTime(clock: int, l: Label) {
    var times := Times(l);
    && (forall i :: 0 <= i < |times| ==> clock <= times[i])
    && (forall i, j :: 0 <= i < j < |times| ==> times[i] <= times[j])
  }

  lemma {:induction false} TickingOfOne(clock: int, l: Label)
    requires InTime(clock, l)
    ensures Ticking(clock, [l])
  {
    assert [l][1..] == [];
  }

  /** One more segment. */
  lemma {:induction false} Extend(cfg: Config, s: State, turn: Option<nat>, run: seq<Label>, s1: State, turn1: Option<nat>,
                                  l: Label)
    returns (run': seq<Label>, s2: State, turn2: Option<nat>)
    requires Leads(cfg, s, turn, run, s1, turn1) && Enabled(cfg, s1, l) && MayRun(s1, turn1, l) && InTime(s1.clock, l)
    ensures Leads(cfg, s, turn, run', s2, turn2) && s2 == Apply(cfg, s1, l) && turn2 == Turn(cfg, s1, l)
    ensures Harmless(run) && !l.Disconnect? && (l.Register? ==> Truthy(l.agent)) ==> Harmless(run')
  {
    LoopRunSplit(cfg, s, turn, run, [l]);
    LoopRunOfOne(cfg, s1, turn1, l);
    TickingSplit(cfg, s, run, [l]);
    TickingOfOne(s1.clock, l);
    run', s2, turn2 := run + [l], Apply(cfg, s1, l), Turn(cfg, s1, l);
  }

  // ---------------------------------------------------------------- picks

  lemma {:induction false} FirstAmong(t: Table, a: AgentId, ids: set<JobId>) returns (pick: JobId)
    requires ids != {} && forall id :: id in ids ==> id in t.rows
    ensures pick in ids && forall id :: id in ids ==> !Before(t.rows[id], t.rows[pick])
    decreases |ids|
  {
    var id :| id in ids;
    pick := id;
    var rest := ids - {id};
    assert forall other :: other in ids ==> other == id || other in rest;
    if rest != {} {
      var best := FirstAmong(t, a, rest);
      if !Before(t.rows[id], t.rows[best]) {
        pick := best;
      }
    }
  }

  lemma FirstExists(t: Table, a: AgentId) returns (pick: JobId)
    requires !NoCandidate(t, a)
    ensures IsFirst(t, a, pick)
  {
    var candidates := set id | id in t.rows && Candidate(a, t.rows[id]);
    var one :| one in t.rows && Candidate(a, t.rows[one]);
    assert one in candidates;
    pick := FirstAmong(t, a, candidates);
  }

  /** A job for the agent that POST /jobs accepts. */
  lemma AcceptedJob(t: Table, a: AgentId, clock: int) returns (job: Row)
    requires Truthy(a)
    ensures IsNewRow(job) && Accepts(job) && job.agentId == a && job.key.None? && job.jobId !in t.rows
    ensures job.createdAt == job.updatedAt == clock
  {
    var id := FreshJob(t.rows.Keys);
    job := NewRow(id, a, "", 1, None, 0, clock, clock);
  }

  /** If nothing was pending for its agent, it is first. */
  lemma OnlyJobIsFirst(t: Table, job: Row, t': Table)
    requires t' == Exec(t, Submit(job)) && IsNewRow(job) && job.key.None? && job.jobId !in t.rows
    requires Truthy(job.agentId) && NoCandidate(t, job.agentId)
    ensures job.jobId in t'.rows && t'.rows[job.jobId] == job && IsFirst(t', job.agentId, job.jobId)
    ensures forall id :: id in t'.rows && Candidate(job.agentId, t'.rows[id]) ==> id == job.jobId
  {
  }

  // ---------------------------------------------------------------- what rests goes on resting

  /** The watchers are where they were, and no suspended coroutine is gone. */
  ghost predicate Stays(s: State, s': State) {
    && s'.ack == s.ack && s'.timer == s.timer
    && (forall pid :: pid in s.loop.procs ==> pid in s'.loop.procs)
    && (forall pid :: CancelsAtOnce(s'.loop, pid) ==> CancelsAtOnce(s.loop, pid))
  }

  lemma StaysAtRest(s: State, s': State)
    requires Rests(s) && Stays(s, s')
    ensures Rests(s')
  {
  }

  // ---------------------------------------------------------------- single segments

  lemma RegisterMove(cfg: Config, s: State, a: AgentId, t: int)
    requires Rests(s)
    ensures var l := Register(a, t);
            var s' := Apply(cfg, s, l);
            && Enabled(cfg, s, l) && MayRun(s, None, l)
            && s'.table == s.table && s'.loop == Enter(Connect(s.loop, a, t), a)
            && (s.loop.next + 1 !in s.loop.procs ==> Stays(s, s') && Rests(s'))
            && Turn(cfg, s, l) == if Uncontended(s'.loop, s.loop.next + 1) then Some(s.loop.next + 1) else None
  {
    var s' := Apply(cfg, s, Register(a, t));
    if s.loop.next + 1 !in s.loop.procs {
      StaysAtRest(s, s');
    }
  }

  lemma SubmitMove(cfg: Config, s: State, job: Row)
    requires Rests(s) && IsNewRow(job) && Accepts(job) && job.jobId !in s.table.rows
    ensures var l := SubmitJob(job);
            var s' := Apply(cfg, s, l);
            && Enabled(cfg, s, l) && MayRun(s, None, l)
            && s'.table == Exec(s.table, Submit(job)) && s'.loop == Enter(s.loop, job.agentId)
            && (s.loop.next !in s.loop.procs ==> Stays(s, s') && Rests(s'))
            && Turn(cfg, s, l) == if Uncontended(s'.loop, s.loop.next) then Some(s.loop.next) else None
  {
    var s' := Apply(cfg, s, SubmitJob(job));
    if s.loop.next !in s.loop.procs {
      StaysAtRest(s, s');
    }
  }

  /** It is this coroutine's turn to take its lock, which is free. */
  predicate MayAcquire(s: State, turn: Option<nat>, pid: nat) {
    && pid in s.loop.procs && s.loop.procs[pid].Waiting? && s.loop.procs[pid].lock !in s.loop.held && Rests(s)
    && (turn == Some(pid) || (turn == None && FirstInLine(s.loop, pid)))
  }

  lemma PickMove(cfg: Config, s: State, turn: Option<nat>, pid: nat, id: JobId)
    requires MayAcquire(s, turn, pid) && Idle(s.loop, s.loop.procs[pid].agent)
    requires IsFirst(s.table, s.loop.procs[pid].agent, id)
    ensures var l := Acquire(pid, Some(id));
            var s' := Apply(cfg, s, l);
            && Enabled(cfg, s, l) && MayRun(s, turn, l) && Turn(cfg, s, l) == None
            && s'.table == s.table && Stays(s, s') && Rests(s')
            && s'.loop == StartSend(s.loop, pid, s.loop.registry[s.loop.procs[pid].agent], s.table.rows[id])
  {
    StaysAtRest(s, Apply(cfg, s, Acquire(pid, Some(id))));
  }

  lemma PassMove(cfg: Config, s: State, turn: Option<nat>, pid: nat)
    requires MayAcquire(s, turn, pid)
    requires NoCandidate(s.table, s.loop.procs[pid].agent) || !Idle(s.loop, s.loop.procs[pid].agent)
    ensures var l := Acquire(pid, None);
            var s' := Apply(cfg, s, l);
            && Enabled(cfg, s, l) && MayRun(s, turn, l) && Turn(cfg, s, l) == None
            && s'.table == s.table && s'.loop == Leave(s.loop, pid) && s'.ack == s.ack && s'.timer == s.timer
            && !CancelReady(s'.loop) && (!Awaits(s, pid) ==> Rests(s')) && (Awaits(s, pid) ==> AckReady(s'))
  {
  }

  /** The ack watcher waits for this dispatch. */
  predicate Awaits(s: State, pid: nat) {
    s.ack.AckScanning? && s.ack.awaiting == Some(pid)
  }

  lemma SendFailMove(cfg: Config, s: State, pid: nat)
    requires Rests(s) && pid in s.loop.procs && s.loop.procs[pid].Sending?
    ensures var l := SendFailed(pid);
            var s' := Apply(cfg, s, l);
            && Enabled(cfg, s, l) && MayRun(s, None, l) && Turn(cfg, s, l) == None
            && s'.table == s.table && s'.loop == Release(s.loop, pid) && s'.ack == s.ack && s'.timer == s.timer
            && !CancelReady(s'.loop) && (!Awaits(s, pid) ==> Rests(s')) && (Awaits(s, pid) ==> AckReady(s'))
  {
  }

  lemma SendOkMove(cfg: Config, s: State, pid: nat, t1: int, t2: int)
    requires Rests(s) && pid in s.loop.procs && s.loop.procs[pid].Sending? && s.loop.procs[pid].conn in s.loop.conns
    ensures var l := SendOk(pid, t1, t2);
            var s' := Apply(cfg, s, l);
            && Enabled(cfg, s, l) && MayRun(s, None, l) && Turn(cfg, s, l) == None
            && s'.table == Exec(s.table, MarkDispatched(s.loop.procs[pid].job.jobId, t1, t2))
            && s'.loop == Finish(s.loop, pid) && s'.ack == s.ack && s'.timer == s.timer
            && !CancelReady(s'.loop) && (!Awaits(s, pid) ==> Rests(s')) && (Awaits(s, pid) ==> AckReady(s'))
  {
    var s' := Apply(cfg, s, SendOk(pid, t1, t2));
    assert s'.loop == Finish(s.loop, pid);
  }

  /** The loop after an agent's connection is gone. */
  function Dropped(k: Loop, a: AgentId): Loop {
    k.(registry := k.registry - {a}, locks := k.locks - {a})
  }

  lemma DropMove(cfg: Config, s: State, a: AgentId)
    requires Rests(s)
    ensures var s' := Apply(cfg, s, Disconnect(a));
            && s'.table == s.table && s'.loop == Dropped(s.loop, a) && s'.clock == s.clock
            && Stays(s, s') && Rests(s') && Turn(cfg, s, Disconnect(a)) == None
  {
    StaysAtRest(s, Apply(cfg, s, Disconnect(a)));
  }

  // ---------------------------------------------------------------- one move further

  lemma ThenRegister(cfg: Config, s0: State, t0: Option<nat>, run: seq<Label>, s: State, a: AgentId)
    returns (run': seq<Label>, s': State, turn: Option<nat>)
    requires Leads(cfg, s0, t0, run, s, None) && Rests(s) && s.loop.next + 1 !in s.loop.procs
    ensures Leads(cfg, s0, t0, run', s', turn) && (Harmless(run) && Truthy(a) ==> Harmless(run'))
    ensures s'.clock == s.clock
    ensures s'.table == s.table && s'.loop == Enter(Connect(s.loop, a, s.clock), a) && Rests(s')
    ensures s'.ack == s.ack
    ensures turn == if Uncontended(s'.loop, s.loop.next + 1) then Some(s.loop.next + 1) else None
  {
    RegisterMove(cfg, s, a, s.clock);
    run', s', turn := Extend(cfg, s0, t0, run, s, None, Register(a, s.clock));
  }

  lemma ThenSubmit(cfg: Config, s0: State, t0: Option<nat>, run: seq<Label>, s: State, job: Row)
    returns (run': seq<Label>, s': State, turn: Option<nat>)
    requires Leads(cfg, s0, t0, run, s, None) && Rests(s) && s.loop.next !in s.loop.procs
    requires IsNewRow(job) && Accepts(job) && job.jobId !in s.table.rows && s.clock == job.createdAt == job.updatedAt
    ensures Leads(cfg, s0, t0, run', s', turn) && (Harmless(run) ==> Harmless(run'))
    ensures s'.clock == s.clock
    ensures s'.table == Exec(s.table, Submit(job)) && s'.loop == Enter(s.loop, job.agentId) && Rests(s')
    ensures s'.ack == s.ack
    ensures turn == if Uncontended(s'.loop, s.loop.next) then Some(s.loop.next) else None
  {
    SubmitMove(cfg, s, job);
    run', s', turn := Extend(cfg, s0, t0, run, s, None, SubmitJob(job));
  }

  lemma ThenPick(cfg: Config, s0: State, t0: Option<nat>, run: seq<Label>, s: State, turn: Option<nat>, pid: nat, id: JobId)
    returns (run': seq<Label>, s': State)
    requires Leads(cfg, s0, t0, run, s, turn) && MayAcquire(s, turn, pid)
    requires Idle(s.loop, s.loop.procs[pid].agent) && IsFirst(s.table, s.loop.procs[pid].agent, id)
    ensures Leads(cfg, s0, t0, run', s', None) && (Harmless(run) ==> Harmless(run'))
    ensures s'.clock == s.clock
    ensures s'.table == s.table && Rests(s') && s'.ack == s.ack
    ensures s'.loop == StartSend(s.loop, pid, s.loop.registry[s.loop.procs[pid].agent], s.table.rows[id])
  {
    PickMove(cfg, s, turn, pid, id);
    var turn';
    run', s', turn' := Extend(cfg, s0, t0, run, s, turn, Acquire(pid, Some(id)));
  }

  lemma ThenPass(cfg: Config, s0: State, t0: Option<nat>, run: seq<Label>, s: State, turn: Option<nat>, pid: nat)
    returns (run': seq<Label>, s': State)
    requires Leads(cfg, s0, t0, run, s, turn) && MayAcquire(s, turn, pid)
    requires NoCandidate(s.table, s.loop.procs[pid].agent) || !Idle(s.loop, s.loop.procs[pid].agent)
    ensures Leads(cfg, s0, t0, run', s', None) && (Harmless(run) ==> Harmless(run'))
    ensures s'.clock == s.clock
    ensures s'.table == s.table && s'.loop == Leave(s.loop, pid) && s'.ack == s.ack && s'.timer == s.timer
    ensures !CancelReady(s'.loop) && (!Awaits(s, pid) ==> Rests(s')) && (Awaits(s, pid) ==> AckReady(s'))
  {
    PassMove(cfg, s, turn, pid);
    var turn';
    run', s', turn' := Extend(cfg, s0, t0, run, s, turn, Acquire(pid, None));
  }

  lemma ThenSendFails(cfg: Config, s0: State, t0: Option<nat>, run: seq<Label>, s: State, pid: nat)
    returns (run': seq<Label>, s': State)
    requires Leads(cfg, s0, t0, run, s, None) && Rests(s) && pid in s.loop.procs && s.loop.procs[pid].Sending?
    ensures Leads(cfg, s0, t0, run', s', None) && (Harmless(run) ==> Harmless(run'))
    ensures s'.clock == s.clock
    ensures s'.table == s.table && s'.loop == Release(s.loop, pid) && s'.ack == s.ack && s'.timer == s.timer
    ensures !CancelReady(s'.loop) && (!Awaits(s, pid) ==> Rests(s')) && (Awaits(s, pid) ==> AckReady(s'))
  {
    SendFailMove(cfg, s, pid);
    var turn';
    run', s', turn' := Extend(cfg, s0, t0, run, s, None, SendFailed(pid));
  }

  lemma ThenSent(cfg: Config, s0: State, t0: Option<nat>, run: seq<Label>, s: State, pid: nat)
    returns (run': seq<Label>, s': State)
    requires Leads(cfg, s0, t0, run, s, None) && Rests(s) && pid in s.loop.procs && s.loop.procs[pid].Sending?
    requires s.loop.procs[pid].conn in s.loop.conns
    ensures Leads(cfg, s0, t0, run', s', None) && (Harmless(run) ==> Harmless(run'))
    ensures s'.clock == s.clock
    ensures s'.table == Exec(s.table, MarkDispatched(s.loop.procs[pid].job.jobId, s.clock, s.clock))
    ensures s'.loop == Finish(s.loop, pid) && s'.ack == s.ack && s'.timer == s.timer
    ensures !CancelReady(s'.loop) && (!Awaits(s, pid) ==> Rests(s')) && (Awaits(s, pid) ==> AckReady(s'))
  {
    SendOkMove(cfg, s, pid, s.clock, s.clock);
    var turn';
    run', s', turn' := Extend(cfg, s0, t0, run, s, None, SendOk(pid, s.clock, s.clock));
  }

  // ---------------------------------------------------------------- cancelling jobs

  /** A job that is not finished is cancelled; its agent is not told. */
  lemma ThenCancels(cfg: Config, s0: State, t0: Option<nat>, run: seq<Label>, s: State, id: JobId)
    returns (run': seq<Label>, s': State)
    requires Leads(cfg, s0, t0, run, s, None) && Rests(s) && s.loop.next !in s.loop.procs
    requires IdsOk(s.table) && id in s.table.rows && !IsTerminal(s.table.rows[id].state)
    ensures Leads(cfg, s0, t0, run', s', None) && (Harmless(run) ==> Harmless(run'))
    ensures s'.clock == s.clock
    ensures s'.table == Exec(s.table, MarkCancelled(id, s.clock)) && s'.loop == s.loop.(next := s.loop.next + 1)
    ensures s'.ack == s.ack && s'.timer == s.timer && Rests(s')
  {
    var s1, turn, turn';
    CancelBegins(cfg, s, id);
    run', s1, turn := Extend(cfg, s0, t0, run, s, None, CancelBegin(id));
    CancelIsDone(cfg, s, s1, id);
    run', s', turn' := Extend(cfg, s0, t0, run', s1, turn, CancelEnd(s.loop.next, false, s.clock));
  }

  /** Between the two segments: the cancel has nothing to send, or waits for its send. */
  predicate Cancels(s: State, s1: State, id: JobId) {
    && id in s.table.rows && s1.table == s.table && s1.ack == s.ack && s1.timer == s.timer && s1.clock == s.clock
    && s1.loop == Suspend(s.loop, Cancelling(s.table.rows[id], Lookup(s.loop, s.table.rows[id].agentId)))
  }

  lemma CancelBegins(cfg: Config, s: State, id: JobId)
    requires Rests(s) && id in s.table.rows && !IsTerminal(s.table.rows[id].state)
    ensures var l := CancelBegin(id);
            Enabled(cfg, s, l) && MayRun(s, None, l) && Turn(cfg, s, l) == None && Cancels(s, Apply(cfg, s, l), id)
  {
  }

  lemma CancelIsDone(cfg: Config, s: State, s1: State, id: JobId)
    requires Rests(s) && Cancels(s, s1, id) && s.loop.next !in s.loop.procs && IdsOk(s.table)
    ensures var l := CancelEnd(s.loop.next, false, s.clock);
            var s2 := Apply(cfg, s1, l);
            && Enabled(cfg, s1, l) && MayRun(s1, None, l) && Turn(cfg, s1, l) == None
            && s2.table == Exec(s.table, MarkCancelled(id, s.clock)) && s2.loop == s.loop.(next := s.loop.next + 1)
            && s2.ack == s.ack && s2.timer == s.timer && s2.clock == s.clock && Rests(s2)
  {
    var s2 := Apply(cfg, s1, CancelEnd(s.loop.next, false, s.clock));
    assert Leave(s1.loop, s.loop.next).procs == s.loop.procs;
    assert s2.loop == s.loop.(next := s.loop.next + 1);
    forall pid | CancelsAtOnce(s1.loop, pid) ensures pid == s.loop.next {
      assert pid in s.loop.procs ==> CancelsAtOnce(s.loop, pid);
    }
    StaysAtRest(s, s2);
  }

  /** All jobs of a set are cancelled, one by one. */
  lemma {:induction false} ThenCancelsAll(cfg: Config, s0: State, t0: Option<nat>, run: seq<Label>, s: State,
                                          ids: set<JobId>)
    returns (run': seq<Label>, s': State)
    requires Leads(cfg, s0, t0, run, s, None) && Rests(s) && NamesAreOld(s.loop) && IdsOk(s.table)
    requires forall id :: id in ids ==> id in s.table.rows && !IsTerminal(s.table.rows[id].state)
    ensures Leads(cfg, s0, t0, run', s', None) && (Harmless(run) ==> Harmless(run'))
    ensures s'.clock == s.clock
    ensures s'.loop == s.loop.(next := s'.loop.next) && s.loop.next <= s'.loop.next
    ensures s'.ack == s.ack && Rests(s') && IdsOk(s'.table) && s'.table.rows.Keys == s.table.rows.Keys
    ensures forall id :: id in s.table.rows ==>
              if id in ids then s'.table.rows[id].state == Cancelled else s'.table.rows[id] == s.table.rows[id]
    decreases |ids|
  {
    run', s' := run, s;
    if ids != {} {
      var id :| id in ids;
      run', s' := ThenCancels(cfg, s0, t0, run, s, id);
      OneCancelled(s.table, s'.table, id, s.clock);
      run', s' := ThenCancelsAll(cfg, s0, t0, run', s', ids - {id});
    }
  }

  lemma OneCancelled(t: Table, t': Table, id: JobId, time: int)
    requires IdsOk(t) && id in t.rows && !IsTerminal(t.rows[id].state) && t' == Exec(t, MarkCancelled(id, time))
    ensures IdsOk(t') && t'.rows.Keys == t.rows.Keys && t'.rows[id].state == Cancelled
    ensures forall other :: other in t.rows && other != id ==> t'.rows[other] == t.rows[other]
  {
  }

  // ---------------------------------------------------------------- the ack watcher goes on

  /** It handles an entry whose job is finished, and gives up or has to wait, or gets a lock at once. */
  lemma ThenHandles(cfg: Config, s0: State, t0: Option<nat>, run: seq<Label>, s: State)
    returns (run': seq<Label>, s': State, turn: Option<nat>)
    requires Leads(cfg, s0, t0, run, s, None) && AckReady(s) && !CancelReady(s.loop) && !TimerReady(s.timer)
    requires HasEntry(s.ack) && s.loop.next !in s.loop.procs
    requires var id := s.ack.worklist[s.ack.next].jobId; id in s.table.rows ==> IsTerminal(s.table.rows[id].state)
    ensures Leads(cfg, s0, t0, run', s', turn) && (Harmless(run) ==> Harmless(run'))
    ensures s'.clock == s.clock
    ensures s'.table == s.table && s'.timer == s.timer
    ensures var entry := s.ack.worklist[s.ack.next];
            var requeued := entry.attempts < cfg.maxAttempts;
            && s'.loop == (if requeued then Enter(s.loop, entry.agentId) else s.loop)
            && s'.ack == AckScanning(s.ack.worklist, s.ack.next + 1, if requeued then Some(s.loop.next) else None)
            && turn == (if requeued && Uncontended(s'.loop, s.loop.next) then Some(s.loop.next) else None)
            && (if requeued then Rests(s') else AckReady(s') && !CancelReady(s'.loop))
  {
    HandleMove(cfg, s);
    run', s', turn := Extend(cfg, s0, t0, run, s, None, AckHandle(s.clock, s.clock));
  }

  lemma HandleMove(cfg: Config, s: State)
    requires AckReady(s) && !CancelReady(s.loop) && !TimerReady(s.timer)
    requires HasEntry(s.ack) && s.loop.next !in s.loop.procs
    requires var id := s.ack.worklist[s.ack.next].jobId; id in s.table.rows ==> IsTerminal(s.table.rows[id].state)
    ensures var l, entry := AckHandle(s.clock, s.clock), s.ack.worklist[s.ack.next];
            var s', requeued := Apply(cfg, s, l), entry.attempts < cfg.maxAttempts;
            && Enabled(cfg, s, l) && MayRun(s, None, l)
            && s'.table == s.table && s'.timer == s.timer
            && s'.loop == (if requeued then Enter(s.loop, entry.agentId) else s.loop)
            && s'.ack == AckScanning(s.ack.worklist, s.ack.next + 1, if requeued then Some(s.loop.next) else None)
            && Turn(cfg, s, l) == (if requeued && Uncontended(s'.loop, s.loop.next) then Some(s.loop.next) else None)
            && (if requeued then Rests(s') else AckReady(s') && !CancelReady(s'.loop))
  {
    var s' := Apply(cfg, s, AckHandle(s.clock, s.clock));
    assert s'.timer == s.timer;
    assert s'.loop == if s.ack.worklist[s.ack.next].attempts < cfg.maxAttempts then
                        Enter(s.loop, s.ack.worklist[s.ack.next].agentId) else s.loop;
  }

  lemma ThenScanEnds(cfg: Config, s0: State, t0: Option<nat>, run: seq<Label>, s: State)
    returns (run': seq<Label>, s': State)
    requires Leads(cfg, s0, t0, run, s, None) && AckReady(s) && !CancelReady(s.loop) && !TimerReady(s.timer)
    requires !HasEntry(s.ack)
    ensures Leads(cfg, s0, t0, run', s', None) && (Harmless(run) ==> Harmless(run'))
    ensures s'.clock == s.clock
    ensures s'.table == s.table && s'.loop == s.loop && s'.ack == AckIdle && s'.timer == s.timer && Rests(s')
  {
    var turn;
    run', s', turn := Extend(cfg, s0, t0, run, s, None, AckEnd);
  }

  lemma ThenScans(cfg: Config, s0: State, t0: Option<nat>, run: seq<Label>, s: State, now: int, worklist: seq<Row>)
    returns (run': seq<Label>, s': State)
    requires Leads(cfg, s0, t0, run, s, None) && Rests(s) && s.ack == AckIdle
    requires Snapshot(cfg, AckWatch(now), s.table, worklist) && s.clock <= now
    ensures s'.clock == now
    ensures Leads(cfg, s0, t0, run', s', None) && (Harmless(run) ==> Harmless(run'))
    ensures s'.table == s.table && s'.loop == s.loop && s'.ack == AckScanning(worklist, 0, None) && s'.timer == s.timer
  {
    var turn;
    run', s', turn := Extend(cfg, s0, t0, run, s, None, AckBegin(now, worklist));
  }

  /** The watcher requeues the job of its next entry, and a dispatch for its agent gets the lock at once, or waits. */
  lemma ThenRequeues(cfg: Config, s0: State, t0: Option<nat>, run: seq<Label>, s: State)
    returns (run': seq<Label>, s': State, turn: Option<nat>)
    requires Leads(cfg, s0, t0, run, s, None) && AckReady(s) && !CancelReady(s.loop) && !TimerReady(s.timer)
    requires HasEntry(s.ack) && s.ack.worklist[s.ack.next].attempts < cfg.maxAttempts && s.loop.next !in s.loop.procs
    ensures Leads(cfg, s0, t0, run', s', turn) && (Harmless(run) ==> Harmless(run'))
    ensures s'.clock == s.clock
    ensures var entry := s.ack.worklist[s.ack.next];
            && s'.table == Exec(s.table, Requeue(entry.jobId, s.clock)) && s'.loop == Enter(s.loop, entry.agentId)
            && s'.ack == AckScanning(s.ack.worklist, s.ack.next + 1, Some(s.loop.next)) && s'.timer == s.timer
    ensures Rests(s') && turn == if Uncontended(s'.loop, s.loop.next) then Some(s.loop.next) else None
  {
    RequeueMove(cfg, s);
    run', s', turn := Extend(cfg, s0, t0, run, s, None, AckHandle(s.clock, s.clock));
  }

  lemma RequeueMove(cfg: Config, s: State)
    requires AckReady(s) && !CancelReady(s.loop) && !TimerReady(s.timer)
    requires HasEntry(s.ack) && s.ack.worklist[s.ack.next].attempts < cfg.maxAttempts && s.loop.next !in s.loop.procs
    ensures var l, entry := AckHandle(s.clock, s.clock), s.ack.worklist[s.ack.next];
            var s' := Apply(cfg, s, l);
            && Enabled(cfg, s, l) && MayRun(s, None, l)
            && s'.table == Exec(s.table, Requeue(entry.jobId, s.clock)) && s'.loop == Enter(s.loop, entry.agentId)
            && s'.ack == AckScanning(s.ack.worklist, s.ack.next + 1, Some(s.loop.next)) && s'.timer == s.timer
            && Rests(s') && Turn(cfg, s, l) == if Uncontended(s'.loop, s.loop.next) then Some(s.loop.next) else None
  {
    var s' := Apply(cfg, s, AckHandle(s.clock, s.clock));
    assert s'.loop == Enter(s.loop, s.ack.worklist[s.ack.next].agentId);
  }

  lemma ThenStarts(cfg: Config, s0: State, t0: Option<nat>, run: seq<Label>, s: State, id: JobId)
    returns (run': seq<Label>, s': State)
    requires Leads(cfg, s0, t0, run, s, None) && Rests(s)
    ensures Leads(cfg, s0, t0, run', s', None) && (Harmless(run) ==> Harmless(run'))
    ensures s'.clock == s.clock
    ensures s'.table == Exec(s.table, MarkRunning(id, s.clock)) && s'.loop == s.loop && s'.ack == s.ack && s'.timer == s.timer
    ensures Rests(s')
  {
    var turn;
    run', s', turn := Extend(cfg, s0, t0, run, s, None, Started(id, s.clock));
    StaysAtRest(s, s');
  }
}
