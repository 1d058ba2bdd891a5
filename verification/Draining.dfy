/**
 Draining: an idle registered agent, no arrivals, every send succeeds, and the agent answers each job with
 started and some result, whatever the exit code, the outputs, the error and the clock. The loop dispatch,
 started, result sends every pending job of the agent exactly once, sorted by priority and creation time; with
 the in-memory store, jobs that tie keep the order they were submitted in.
 */
module Draining {
  import opened Jobs
  import opened Ordering
  import opened Store
  import opened Repositories
  import opened System
  import opened History
  import opened Wiring
  import opened Dispatching
  import opened Listings

  /** What one round brings: the clock readings of the dispatch mark, of the start and of the end, and the result. */
  datatype Answer = Answer(
    mark1: int, mark2: int, started: int,
    exit: int, out: string, err: string, error: Option<string>, finished: int)

  function ResultLabel(a: AgentId, j: JobId, x: Answer): Label {
    Result(Some(a), j, x.exit, x.out, x.err, x.error, x.finished)
  }

  function ResultCallOf(j: JobId, x: Answer): Call {
    ResultCall(j, x.exit, x.out, x.err, x.error, x.finished)
  }

  /** One job: picked by coroutine `pid`, sent, started, and finished by a result that dispatches again. */
  function Round(a: AgentId, pid: nat, j: JobId, x: Answer): seq<Label> {
    [Acquire(pid, Some(j)), SendOk(pid, x.mark1, x.mark2), Started(j, x.started), ResultLabel(a, j, x)]
  }

  /** One round after the other. Each result starts the next dispatch coroutine, named by the next fresh name. */
  function AfterRounds(cfg: Config, s: State, a: AgentId, pid: nat, picks: seq<JobId>, answers: seq<Answer>): State
    requires |answers| == |picks|
    decreases |picks|
  {
    if picks == [] then s
    else AfterRounds(cfg, After(cfg, s, Round(a, pid, picks[0], answers[0])), a, s.loop.next, picks[1..], answers[1..])
  }

  ghost predicate ValidRounds(cfg: Config, s: State, a: AgentId, pid: nat, picks: seq<JobId>, answers: seq<Answer>)
    decreases |picks|
  {
    |answers| == |picks| &&
    (picks == [] ||
     (ValidRun(cfg, s, Round(a, pid, picks[0], answers[0]))
      && ValidRounds(cfg, After(cfg, s, Round(a, pid, picks[0], answers[0])), a, s.loop.next, picks[1..], answers[1..])))
  }

  /** The agent is idle and coroutine `pid` is about to enter its free critical section. */
  ghost predicate Ready(s: State, a: AgentId, pid: nat) {
    && LoopOk(s.table, s.loop) && LocksInv(s.loop) && TableOk(s.table) && Truthy(a)
    && Idle(s.loop, a)
    && pid in s.loop.procs && s.loop.procs[pid].Waiting? && s.loop.procs[pid].agent == a
    && s.loop.procs[pid].lock !in s.loop.held
    && (forall id :: id in s.table.rows && s.table.rows[id].state == Pending ==> s.table.rows[id].startedAt == None)
  }

  /** The error that a result leaves on the record: only a truthy one. */
  function ErrorOf(x: Answer): Option<ErrorText> {
    if x.error.Some? && x.error.value != "" then Some(Reported(x.error.value)) else None
  }

  /** The record of a job after its round: one attempt more, and the result. */
  function Done(r: Row, x: Answer): Row {
    r.(state := if ErrorOf(x).None? && x.exit == 0 then Succeeded else Failed, attempts := r.attempts + 1,
       updatedAt := x.finished, startedAt := Some(x.started), finishedAt := Some(x.finished),
       exitCode := Some(x.exit), error := ErrorOf(x), stdout := x.out, stderr := x.err)
  }

  lemma DoneByCalls(t: Table, j: JobId, x: Answer)
    requires j in t.rows && t.rows[j].state == Pending && t.rows[j].startedAt == None
    ensures var t1 := Exec(t, MarkDispatched(j, x.mark1, x.mark2));
            var t2 := Exec(t1, MarkRunning(j, x.started));
            var t3 := Exec(t2, ResultCallOf(j, x));
            t3 == WithRow(t, j, Done(t.rows[j], x))
  {
    var t1 := Exec(t, MarkDispatched(j, x.mark1, x.mark2));
    var t2 := Exec(t1, MarkRunning(j, x.started));
    assert t2.rows[j].state == Running;
    var t3 := Exec(t2, ResultCallOf(j, x));
    assert t3.rows == t.rows[j := Done(t.rows[j], x)];
  }

  /** What a round does to the loop: the job is sent on the agent's connection, which is free again. */
  lemma RoundLoop(t: Table, k: Loop, a: AgentId, pid: nat, job: Row)
    requires LoopOk(t, k) && LocksInv(k) && Truthy(a) && Idle(k, a)
    requires pid in k.procs && k.procs[pid].Waiting? && k.procs[pid].agent == a && k.procs[pid].lock !in k.held
    ensures var k1 := StartSend(k, pid, k.registry[a], job);
            && k1.procs[pid].conn in k1.conns
            && var k2 := Finish(k1, pid);
               var k3 := Enter(FreeSession(k2, a), a);
               && k3.registry == k.registry && k3.conns == k.conns && k3.next == k.next + 2
               && k3.sent == k.sent + [JobMessage(k.registry[a], job.jobId)]
               && k.next in k3.procs && k3.procs[k.next] == Waiting(a, k.locks[a])
               && k3.locks == k.locks && k3.held == k.held && k.locks[a] !in k3.held
  {
    var k1 := StartSend(k, pid, k.registry[a], job);
    var k2 := Finish(k1, pid);
    var f := FreeSession(k2, a);
    var c := k.registry[a];
    assert f.conns[c] == MarkFree(MarkBusy(k.conns[c])) == k.conns[c];
    assert f.conns == k.conns;
    assert k2.held == k.held;
    assert k.locks == k.locks[a := k.locks[a]];
  }

  /** The first half of a round: picked and sent. */
  lemma PickedAndSent(cfg: Config, s: State, a: AgentId, pid: nat, j: JobId, x: Answer)
    requires Ready(s, a, pid) && IsFirst(s.table, a, j)
    ensures var s1 := Apply(cfg, s, Acquire(pid, Some(j)));
            var s2 := Apply(cfg, s1, SendOk(pid, x.mark1, x.mark2));
            && Enabled(cfg, s, Acquire(pid, Some(j))) && Enabled(cfg, s1, SendOk(pid, x.mark1, x.mark2))
            && s1.loop == StartSend(s.loop, pid, s.loop.registry[a], s.table.rows[j])
            && s2.loop == Finish(s1.loop, pid) && s2.table == Exec(s.table, MarkDispatched(j, x.mark1, x.mark2))
  {
    var s1 := Apply(cfg, s, Acquire(pid, Some(j)));
    assert s1.table == s.table;
    assert s1.loop == StartSend(s.loop, pid, s.loop.registry[a], s.table.rows[j]);
  }

  /** The second half: started and finished. */
  lemma StartedAndFinished(cfg: Config, s: State, a: AgentId, j: JobId, x: Answer)
    requires Truthy(a)
    ensures var s1 := Apply(cfg, s, Started(j, x.started));
            var s2 := Apply(cfg, s1, ResultLabel(a, j, x));
            && s2.loop == Enter(FreeSession(s.loop, a), a)
            && s2.table == Exec(Exec(s.table, MarkRunning(j, x.started)), ResultCallOf(j, x))
  {
    var s1 := Apply(cfg, s, Started(j, x.started));
    assert s1.loop == s.loop && s1.table == Exec(s.table, MarkRunning(j, x.started));
  }

  lemma {:induction false} RoundEffect(cfg: Config, s: State, a: AgentId, pid: nat, j: JobId, x: Answer)
    requires Ready(s, a, pid) && IsFirst(s.table, a, j)
    ensures ValidRun(cfg, s, Round(a, pid, j, x))
    ensures var s' := After(cfg, s, Round(a, pid, j, x));
            && Ready(s', a, s.loop.next) && s'.loop.next == s.loop.next + 2
            && s'.table == WithRow(s.table, j, Done(s.table.rows[j], x))
            && s'.loop.sent == s.loop.sent + [JobMessage(s.loop.registry[a], j)]
            && s'.loop.registry == s.loop.registry
  {
    PickedAndSent(cfg, s, a, pid, j, x);
    StartedAndFinished(cfg, Apply(cfg, Apply(cfg, s, Acquire(pid, Some(j))), SendOk(pid, x.mark1, x.mark2)), a, j, x);
    RunOfFour(cfg, s, Acquire(pid, Some(j)), SendOk(pid, x.mark1, x.mark2), Started(j, x.started), ResultLabel(a, j, x));
    RoundLoop(s.table, s.loop, a, pid, s.table.rows[j]);
    DoneByCalls(s.table, j, x);
    RoundKeepsReady(s, After(cfg, s, Round(a, pid, j, x)), a, pid, j, x);
  }

  lemma {:induction false} RunOfFour(cfg: Config, s: State, l1: Label, l2: Label, l3: Label, l4: Label)
    ensures var s1 := Apply(cfg, s, l1);
            var s2 := Apply(cfg, s1, l2);
            var s3 := Apply(cfg, s2, l3);
            && After(cfg, s, [l1, l2, l3, l4]) == Apply(cfg, s3, l4)
            && (ValidRun(cfg, s, [l1, l2, l3, l4]) <==>
                  Enabled(cfg, s, l1) && Enabled(cfg, s1, l2) && Enabled(cfg, s2, l3) && Enabled(cfg, s3, l4))
  {
    RunOfOne(cfg, s, l1);
    RunOfOne(cfg, After(cfg, s, [l1]), l2);
    RunSplit(cfg, s, [l1], [l2]);
    RunOfOne(cfg, After(cfg, s, [l1] + [l2]), l3);
    RunSplit(cfg, s, [l1] + [l2], [l3]);
    RunOfOne(cfg, After(cfg, s, [l1] + [l2] + [l3]), l4);
    RunSplit(cfg, s, [l1] + [l2] + [l3], [l4]);
    assert [l1] + [l2] + [l3] + [l4] == [l1, l2, l3, l4];
  }

  lemma RoundLoopKeeps(t: Table, k: Loop, a: AgentId, pid: nat, j: JobId)
    requires LoopOk(t, k) && LocksInv(k) && IdsOk(t) && Truthy(a) && Idle(k, a)
    requires pid in k.procs && k.procs[pid].Waiting? && k.procs[pid].agent == a && k.procs[pid].lock !in k.held
    requires j in t.rows && Candidate(a, t.rows[j])
    ensures var k1 := StartSend(k, pid, k.registry[a], t.rows[j]);
            && k1.procs[pid].conn in k1.conns
            && LoopOk(t, Enter(FreeSession(Finish(k1, pid), a), a))
            && LocksInv(Enter(FreeSession(Finish(k1, pid), a), a))
  {
    StartSendKeeps(t, k, pid, j);
    var k1 := StartSend(k, pid, k.registry[a], t.rows[j]);
    FinishKeeps(t, k1, pid);
    var k2 := Finish(k1, pid);
    FreeSessionKeeps(t, k2, a);
    EnterKeeps(t, FreeSession(k2, a), a);
    EnterKeepsLocks(t, FreeSession(k2, a), a);
  }

  lemma RoundKeepsReady(s: State, s': State, a: AgentId, pid: nat, j: JobId, x: Answer)
    requires Ready(s, a, pid) && j in s.table.rows && Candidate(a, s.table.rows[j])
    requires s'.table == WithRow(s.table, j, Done(s.table.rows[j], x))
    requires var k1 := StartSend(s.loop, pid, s.loop.registry[a], s.table.rows[j]);
             k1.procs[pid].conn in k1.conns && s'.loop == Enter(FreeSession(Finish(k1, pid), a), a)
    ensures Ready(s', a, s.loop.next)
  {
    RoundLoop(s.table, s.loop, a, pid, s.table.rows[j]);
    RoundLoopKeeps(s.table, s.loop, a, pid, j);
    DoneKeepsTable(s.table, j, x);
    GrowthKeeps(s.table, s'.table, s'.loop);
  }

  lemma DoneKeepsTable(t: Table, j: JobId, x: Answer)
    requires TableOk(t) && j in t.rows
    ensures TableOk(WithRow(t, j, Done(t.rows[j], x))) && Grows(t, WithRow(t, j, Done(t.rows[j], x)))
  {
    RowUpdateKeepsTableOk(t, j, Done(t.rows[j], x));
  }

  lemma {:induction false} RoundPicksFirst(cfg: Config, s: State, a: AgentId, pid: nat, j: JobId, x: Answer)
    requires Ready(s, a, pid) && ValidRun(cfg, s, Round(a, pid, j, x))
    ensures IsFirst(s.table, a, j)
  {
    assert Enabled(cfg, s, Round(a, pid, j, x)[0]);
  }

  // ---------------------------------------------------------------- whatever picks the rounds make

  /** Every pick was pending for the agent, none twice, and none was passed over for a later one. */
  ghost predicate DrainsInOrder(t: Table, a: AgentId, picks: seq<JobId>) {
    && (forall i :: 0 <= i < |picks| ==> picks[i] in t.rows && Candidate(a, t.rows[picks[i]]))
    && (forall i, j :: 0 <= i < j < |picks| ==> picks[i] != picks[j] && !Before(t.rows[picks[j]], t.rows[picks[i]]))
  }

  function JobMessages(conn: nat, picks: seq<JobId>): seq<Message> {
    if picks == [] then [] else [JobMessage(conn, picks[0])] + JobMessages(conn, picks[1..])
  }

  lemma OrderGrows(t: Table, t1: Table, a: AgentId, picks: seq<JobId>, x: Answer)
    requires picks != [] && IsFirst(t, a, picks[0]) && t1 == WithRow(t, picks[0], Done(t.rows[picks[0]], x))
    requires DrainsInOrder(t1, a, picks[1..])
    ensures DrainsInOrder(t, a, picks)
  {
    var rest := picks[1..];
    forall i | 0 <= i < |picks| ensures picks[i] in t.rows && Candidate(a, t.rows[picks[i]]) {
      assert i == 0 || picks[i] == rest[i - 1];
    }
    forall i, k | 0 <= i < k < |picks| ensures picks[i] != picks[k] && !Before(t.rows[picks[k]], t.rows[picks[i]]) {
      assert picks[k] == rest[k - 1] && Candidate(a, t1.rows[picks[k]]);
      if i > 0 {
        assert picks[i] == rest[i - 1];
      }
    }
  }

  /** Rows after a drain: the picked ones are finished, each with its own answer, the others are as they were. */
  ghost predicate Drained(t: Table, t': Table, picks: seq<JobId>, answers: seq<Answer>)
    requires |answers| == |picks|
  {
    && t'.rows.Keys == t.rows.Keys && t'.order == t.order
    && (forall i :: 0 <= i < |picks| ==> picks[i] in t.rows && t'.rows[picks[i]] == Done(t.rows[picks[i]], answers[i]))
    && (forall id :: id in t.rows && id !in picks ==> t'.rows[id] == t.rows[id])
  }

  lemma DrainedGrows(t: Table, t1: Table, t': Table, picks: seq<JobId>, answers: seq<Answer>)
    requires |answers| == |picks| > 0
    requires picks[0] in t.rows && t1 == WithRow(t, picks[0], Done(t.rows[picks[0]], answers[0]))
    requires Drained(t1, t', picks[1..], answers[1..]) && picks[0] !in picks[1..]
    ensures Drained(t, t', picks, answers)
  {
    assert forall id :: id in picks <==> id == picks[0] || id in picks[1..];
    assert t1.rows.Keys == t.rows.Keys;
    forall i | 0 <= i < |picks|
      ensures picks[i] in t.rows && t'.rows[picks[i]] == Done(t.rows[picks[i]], answers[i])
    {
      if i > 0 {
        assert picks[i] == picks[1..][i - 1] && answers[i] == answers[1..][i - 1];
      }
    }
  }

  lemma {:induction false} RoundsKeepOrder(cfg: Config, s: State, a: AgentId, pid: nat, picks: seq<JobId>,
                                           answers: seq<Answer>)
    requires Ready(s, a, pid) && ValidRounds(cfg, s, a, pid, picks, answers)
    ensures DrainsInOrder(s.table, a, picks)
    ensures Drained(s.table, AfterRounds(cfg, s, a, pid, picks, answers).table, picks, answers)
    decreases |picks|
  {
    if picks != [] {
      RoundPicksFirst(cfg, s, a, pid, picks[0], answers[0]);
      RoundEffect(cfg, s, a, pid, picks[0], answers[0]);
      var s1 := After(cfg, s, Round(a, pid, picks[0], answers[0]));
      RoundsKeepOrder(cfg, s1, a, s.loop.next, picks[1..], answers[1..]);
      OrderGrows(s.table, s1.table, a, picks, answers[0]);
      FirstNotAgain(picks, s.table, a);
      DrainedGrows(s.table, s1.table, AfterRounds(cfg, s, a, pid, picks, answers).table, picks, answers);
    }
  }

  /** Along the picks the priority numbers never fall, and within one priority the creation times never fall. */
  lemma PrioritiesRise(t: Table, a: AgentId, picks: seq<JobId>)
    requires DrainsInOrder(t, a, picks)
    ensures forall i, j :: 0 <= i < j < |picks| ==>
              var r1, r2 := t.rows[picks[i]], t.rows[picks[j]];
              r1.priority < r2.priority || (r1.priority == r2.priority && r1.createdAt <= r2.createdAt)
  {
  }

  /** Whatever picks the rounds make, ties included: each is a pending job of the agent, none comes twice, they
      are sorted for dispatch, and exactly the picked jobs have changed, each into its own result. */
  lemma {:induction false} RoundsDrain(cfg: Config, s: State, a: AgentId, pid: nat, picks: seq<JobId>, answers: seq<Answer>)
    requires Ready(s, a, pid) && ValidRounds(cfg, s, a, pid, picks, answers)
    ensures DrainsInOrder(s.table, a, picks)
    ensures Drained(s.table, AfterRounds(cfg, s, a, pid, picks, answers).table, picks, answers)
    ensures forall i, j :: 0 <= i < j < |picks| ==>
              var r1, r2 := s.table.rows[picks[i]], s.table.rows[picks[j]];
              r1.priority < r2.priority || (r1.priority == r2.priority && r1.createdAt <= r2.createdAt)
  {
    RoundsKeepOrder(cfg, s, a, pid, picks, answers);
    PrioritiesRise(s.table, a, picks);
  }

  lemma {:induction false} SentMore(sent: seq<Message>, sent1: seq<Message>, sent2: seq<Message>, conn: nat,
                                    picks: seq<JobId>)
    requires picks != [] && sent1 == sent + [JobMessage(conn, picks[0])] && sent2 == sent1 + JobMessages(conn, picks[1..])
    ensures sent2 == sent + JobMessages(conn, picks)
  {
  }

  /** The messages sent are the picks, in order, on the agent's connection. */
  lemma {:induction false} RoundsSend(cfg: Config, s: State, a: AgentId, pid: nat, picks: seq<JobId>, answers: seq<Answer>)
    requires Ready(s, a, pid) && ValidRounds(cfg, s, a, pid, picks, answers)
    ensures AfterRounds(cfg, s, a, pid, picks, answers).loop.sent == s.loop.sent + JobMessages(s.loop.registry[a], picks)
    decreases |picks|
  {
    if picks != [] {
      RoundPicksFirst(cfg, s, a, pid, picks[0], answers[0]);
      RoundEffect(cfg, s, a, pid, picks[0], answers[0]);
      var s1 := After(cfg, s, Round(a, pid, picks[0], answers[0]));
      RoundsSend(cfg, s1, a, s.loop.next, picks[1..], answers[1..]);
      SentMore(s.loop.sent, s1.loop.sent, AfterRounds(cfg, s, a, pid, picks, answers).loop.sent, s.loop.registry[a], picks);
    }
  }

  lemma FirstNotAgain(picks: seq<JobId>, t: Table, a: AgentId)
    requires picks != [] && DrainsInOrder(t, a, picks)
    ensures picks[0] !in picks[1..]
  {
  }

  // ---------------------------------------------------------------- the picks of the in-memory store

  /** The agent's pending jobs in submission order. */
  function PendingOf(t: Table, a: AgentId): seq<Row> {
    Matching(t.rows, t.order, Some(a), Some(Pending))
  }

  /** The dispatch order of the in-memory store: its newest-first listing, sorted for dispatch. */
  function InMemoryOrder(t: Table, a: AgentId): seq<Row> {
    StableSort(ByPriority, StableSort(NewestFirst, PendingOf(t, a)))
  }

  /** Every round picks the head of the in-memory store's order as it is then. */
  ghost predicate InMemoryPicks(cfg: Config, s: State, a: AgentId, pid: nat, picks: seq<JobId>, answers: seq<Answer>)
    requires |answers| == |picks|
    decreases |picks|
  {
    picks == [] ||
    (InMemoryOrder(s.table, a) != [] && picks[0] == InMemoryOrder(s.table, a)[0].jobId
     && InMemoryPicks(cfg, After(cfg, s, Round(a, pid, picks[0], answers[0])), a, s.loop.next, picks[1..], answers[1..]))
  }

  function Ids(rows: seq<Row>): seq<JobId> {
    if rows == [] then [] else [rows[0].jobId] + Ids(rows[1..])
  }

  lemma {:induction false} WithoutConcat(a: seq<Row>, b: seq<Row>, id: JobId)
    ensures Without(a + b, id) == Without(a, id) + Without(b, id)
  {
    if a == [] {
      assert a + b == b;
    } else {
      assert (a + b)[1..] == a[1..] + b;
      WithoutConcat(a[1..], b, id);
    }
  }

  /** A finished job is gone from the pending list, and nothing else is. */
  lemma {:induction false} MatchingWithout(rows: map<JobId, Row>, order: seq<JobId>, agent: Option<AgentId>, state: JobState,
                                           j: JobId, r: Row)
    requires forall id :: id in rows ==> rows[id].jobId == id
    requires j in rows && r.jobId == j && r.state != state
    ensures Matching(rows[j := r], order, agent, Some(state)) == Without(Matching(rows, order, agent, Some(state)), j)
  {
    if order != [] {
      var init, last := order[..|order| - 1], order[|order| - 1];
      MatchingWithout(rows, init, agent, state, j, r);
      var tail := if last in rows && Matches(rows[last], agent, Some(state)) then [rows[last]] else [];
      WithoutConcat(Matching(rows, init, agent, Some(state)), tail, j);
      assert tail != [] ==> tail[1..] == [];
    }
  }

  /** Any number of rounds with the in-memory picks takes, again and again, the first of what is left. */
  lemma {:induction false} InMemoryRounds(cfg: Config, s: State, a: AgentId, pid: nat, picks: seq<JobId>, answers: seq<Answer>)
    requires Ready(s, a, pid) && ValidRounds(cfg, s, a, pid, picks, answers)
    requires InMemoryPicks(cfg, s, a, pid, picks, answers)
    ensures picks == Ids(TakeFirsts(ByPriority, PendingOf(s.table, a), |picks|))
    ensures |PendingOf(AfterRounds(cfg, s, a, pid, picks, answers).table, a)| == |PendingOf(s.table, a)| - |picks|
    decreases |picks|
  {
    if picks != [] {
      var s1 := After(cfg, s, Round(a, pid, picks[0], answers[0]));
      InMemoryRound(cfg, s, a, pid, picks, answers);
      InMemoryRounds(cfg, s1, a, s.loop.next, picks[1..], answers[1..]);
      TakeMore(PendingOf(s.table, a), picks);
    }
  }

  /** The first of them. */
  lemma {:induction false} InMemoryRound(cfg: Config, s: State, a: AgentId, pid: nat, picks: seq<JobId>, answers: seq<Answer>)
    requires Ready(s, a, pid) && ValidRounds(cfg, s, a, pid, picks, answers) && picks != []
    requires InMemoryPicks(cfg, s, a, pid, picks, answers)
    ensures var s1, pending := After(cfg, s, Round(a, pid, picks[0], answers[0])), PendingOf(s.table, a);
            && Ready(s1, a, s.loop.next) && |PendingOf(s1.table, a)| == |pending| - 1
            && StableSort(ByPriority, pending) != [] && picks[0] == StableSort(ByPriority, pending)[0].jobId
            && PendingOf(s1.table, a) == Without(pending, picks[0])
  {
    DispatchOrderKeepsSubmissionOrder(PendingOf(s.table, a));
    RoundPicksFirst(cfg, s, a, pid, picks[0], answers[0]);
    RoundEffect(cfg, s, a, pid, picks[0], answers[0]);
    var s1 := After(cfg, s, Round(a, pid, picks[0], answers[0]));
    OneTaken(s.table, s1.table, a, picks[0], answers[0]);
  }

  lemma {:induction false} TakeMore(pending: seq<Row>, picks: seq<JobId>)
    requires picks != [] && StableSort(ByPriority, pending) != [] && picks[0] == StableSort(ByPriority, pending)[0].jobId
    requires picks[1..] == Ids(TakeFirsts(ByPriority, Without(pending, picks[0]), |picks[1..]|))
    ensures picks == Ids(TakeFirsts(ByPriority, pending, |picks|))
  {
    var taken := TakeFirsts(ByPriority, pending, |picks|);
    assert taken[1..] == TakeFirsts(ByPriority, Without(pending, picks[0]), |picks| - 1);
  }

  /** One round on the pending list. */
  lemma {:induction false} OneTaken(t: Table, t1: Table, a: AgentId, j: JobId, x: Answer)
    requires TableOk(t) && IsFirst(t, a, j) && t1 == WithRow(t, j, Done(t.rows[j], x))
    ensures PendingOf(t1, a) == Without(PendingOf(t, a), j) && |PendingOf(t1, a)| == |PendingOf(t, a)| - 1
  {
    var pending := PendingOf(t, a);
    MatchingWithout(t.rows, t.order, Some(a), Pending, j, Done(t.rows[j], x));
    MatchingDistinct(t.rows, t.order, Some(a), Some(Pending));
    MatchingMembers(t.rows, t.order, Some(a), Some(Pending), t.rows[j]);
    WithoutOne(pending, t.rows[j]);
  }

  /** A full drain of the in-memory store: the picks are the pending jobs, stably sorted from submission order. */
  lemma {:induction false} InMemoryDrain(cfg: Config, s: State, a: AgentId, pid: nat, picks: seq<JobId>, answers: seq<Answer>)
    requires Ready(s, a, pid) && ValidRounds(cfg, s, a, pid, picks, answers)
    requires InMemoryPicks(cfg, s, a, pid, picks, answers)
    requires NoCandidate(AfterRounds(cfg, s, a, pid, picks, answers).table, a)
    ensures picks == Ids(StableSort(ByPriority, PendingOf(s.table, a)))
  {
    var end := AfterRounds(cfg, s, a, pid, picks, answers);
    InMemoryRounds(cfg, s, a, pid, picks, answers);
    RoundsKeepReady(cfg, s, a, pid, picks, answers);
    PendingIffCandidate(end.table, a);
    MatchingDistinct(s.table.rows, s.table.order, Some(a), Some(Pending));
    DrainingSorts(ByPriority, PendingOf(s.table, a));
  }

  lemma PendingIffCandidate(t: Table, a: AgentId)
    requires TableOk(t)
    ensures PendingOf(t, a) == [] <==> NoCandidate(t, a)
    ensures PendingOf(t, a) != [] ==> InMemoryOrder(t, a) != [] && IsFirst(t, a, InMemoryOrder(t, a)[0].jobId)
  {
    PermutationIsListed(t, Some(a), Some(Pending), PendingOf(t, a));
    FirstOfPending(t, a, PendingOf(t, a));
    DispatchOrderKeepsSubmissionOrder(PendingOf(t, a));
  }

  lemma {:induction false} RoundsKeepReady(cfg: Config, s: State, a: AgentId, pid: nat, picks: seq<JobId>, answers: seq<Answer>)
    requires Ready(s, a, pid) && ValidRounds(cfg, s, a, pid, picks, answers)
    ensures TableOk(AfterRounds(cfg, s, a, pid, picks, answers).table)
    decreases |picks|
  {
    if picks != [] {
      RoundPicksFirst(cfg, s, a, pid, picks[0], answers[0]);
      RoundEffect(cfg, s, a, pid, picks[0], answers[0]);
      RoundsKeepReady(cfg, After(cfg, s, Round(a, pid, picks[0], answers[0])), a, s.loop.next, picks[1..], answers[1..]);
    }
  }

  // ---------------------------------------------------------------- a drain exists

  /** Whatever the answers, the loop can go on until nothing is pending, with the in-memory picks. */
  lemma {:induction false} RoundsExhaust(cfg: Config, s: State, a: AgentId, pid: nat, answers: seq<Answer>)
    returns (picks: seq<JobId>)
    requires Ready(s, a, pid) && |answers| == |PendingOf(s.table, a)|
    ensures ValidRounds(cfg, s, a, pid, picks, answers) && InMemoryPicks(cfg, s, a, pid, picks, answers)
    ensures NoCandidate(AfterRounds(cfg, s, a, pid, picks, answers).table, a)
    decreases |answers|
  {
    PendingIffCandidate(s.table, a);
    picks := [];
    if answers != [] {
      var j := InMemoryOrder(s.table, a)[0].jobId;
      RoundEffect(cfg, s, a, pid, j, answers[0]);
      var s1 := After(cfg, s, Round(a, pid, j, answers[0]));
      OneTaken(s.table, s1.table, a, j, answers[0]);
      var more := RoundsExhaust(cfg, s1, a, s.loop.next, answers[1..]);
      picks := [j] + more;
      assert picks[1..] == more;
    }
  }

  /** Together: whatever the agent answers, a drain exists; it sends each of the n pending jobs exactly once, sorted
      by priority then age, and with the in-memory picks in the stably sorted submission order. */
  lemma {:induction false} AgentDrains(cfg: Config, s: State, a: AgentId, pid: nat, answers: seq<Answer>)
    returns (picks: seq<JobId>)
    requires Ready(s, a, pid) && |answers| == |PendingOf(s.table, a)|
    ensures ValidRounds(cfg, s, a, pid, picks, answers) && DrainsInOrder(s.table, a, picks)
    ensures forall id :: id in picks <==> id in s.table.rows && Candidate(a, s.table.rows[id])
    ensures AfterRounds(cfg, s, a, pid, picks, answers).loop.sent == s.loop.sent + JobMessages(s.loop.registry[a], picks)
    ensures picks == Ids(StableSort(ByPriority, PendingOf(s.table, a)))
    ensures forall i, j :: 0 <= i < j < |picks| ==>
              var r1, r2 := s.table.rows[picks[i]], s.table.rows[picks[j]];
              r1.priority < r2.priority || (r1.priority == r2.priority && r1.createdAt <= r2.createdAt)
  {
    picks := RoundsExhaust(cfg, s, a, pid, answers);
    RoundsDrain(cfg, s, a, pid, picks, answers);
    RoundsSend(cfg, s, a, pid, picks, answers);
    InMemoryDrain(cfg, s, a, pid, picks, answers);
    AllPicked(s.table, AfterRounds(cfg, s, a, pid, picks, answers).table, a, picks, answers);
  }

  lemma AllPicked(t: Table, t': Table, a: AgentId, picks: seq<JobId>, answers: seq<Answer>)
    requires |answers| == |picks| && DrainsInOrder(t, a, picks) && Drained(t, t', picks, answers) && NoCandidate(t', a)
    ensures forall id :: id in picks <==> id in t.rows && Candidate(a, t.rows[id])
  {
    assert forall id :: id in t.rows ==> !Candidate(a, t'.rows[id]);
  }
}
