/** Runs of the event loop, from the start, on which the code does not do what its documentation says. */
module Witnesses {
  import opened Jobs
  import opened System
  import opened Scheduling
  import opened Moves
  import opened Counting
  import opened DoubleSends
  import opened CalmRuns

  function NewJob(a: AgentId, id: JobId): Row {
    NewRow(id, a, "", 1, None, 0, 0, 0)
  }

  /** The agent is there, its job has been submitted, and coroutine `p` is sending it. */
  lemma SendUnderWay(cfg: Config, a: AgentId, id: JobId) returns (run: seq<Label>, s: State, p: nat)
    requires Truthy(a)
    ensures Leads(cfg, INITIAL, None, run, s, None) && Rests(s) && s.ack == AckIdle && s.clock == 0
    ensures s.loop.procs.Keys == {p} && p < s.loop.next && InSend(s.loop, p, id) && s.loop.sent == []
    ensures s.table.rows == map[id := NewJob(a, id)]
    ensures forall l :: l in s.loop.held ==> l < s.loop.next
    ensures forall c :: c in s.loop.conns ==> c < s.loop.next
  {
    var s1, s2, turn;
    run, s1, turn := ThenArrives(cfg, [], INITIAL, a);
    run, s2 := ThenFindsNothing(cfg, run, s1, turn, a);
    run, s1, turn := ThenSubmits(cfg, run, s2, NewJob(a, id));
    p := turn.value;
    run, s := ThenPick(cfg, INITIAL, None, run, s1, turn, p, id);
  }

  /** A disconnect drops the lock of an agent while a send for it is under way. The agent returns, and the same job is
      sent again, with one attempt recorded. Any agent, any job. */
  lemma DroppedLockSendsTwice(cfg: Config, a: AgentId, id: JobId) returns (run: seq<Label>, s: State)
    requires Truthy(a)
    ensures Leads(cfg, INITIAL, None, run, s, None)
    ensures id in s.table.rows && s.table.rows[id].state == Dispatched && s.table.rows[id].attempts == 1
    ensures Sends(s.loop.sent, id) == 2
  {
    var s1, s2, p, turn;
    run, s1, p := SendUnderWay(cfg, a, id);
    DropMove(cfg, s1, a);
    run, s2, turn := Extend(cfg, INITIAL, None, run, s1, None, Disconnect(a));
    run, s := SentBySecond(cfg, run, s2, a, p, id);
  }

  lemma SentBySecond(cfg: Config, run: seq<Label>, s: State, a: AgentId, p: nat, id: JobId)
    returns (run': seq<Label>, s': State)
    requires Leads(cfg, INITIAL, None, run, s, None) && Rests(s) && s.ack == AckIdle && Truthy(a) && a !in s.loop.locks
    requires s.loop.procs.Keys == {p} && p < s.loop.next && InSend(s.loop, p, id) && s.loop.sent == []
    requires s.table.rows == map[id := NewJob(a, id)]
    requires forall l :: l in s.loop.held ==> l < s.loop.next
    requires forall c :: c in s.loop.conns ==> c < s.loop.next
    ensures Leads(cfg, INITIAL, None, run', s', None)
    ensures id in s'.table.rows && s'.table.rows[id].state == Dispatched && s'.table.rows[id].attempts == 1
    ensures Sends(s'.loop.sent, id) == 2
  {
    var s1, s2, w, turn;
    w := s.loop.next + 1;
    run', s1, turn := ThenRegister(cfg, INITIAL, None, run, s, a);
    assert Uncontended(s1.loop, w) && IsFirst(s1.table, a, id);
    run', s2 := ThenPick(cfg, INITIAL, None, run', s1, turn, w, id);
    run', s' := BothSent(cfg, run', s2, p, w, id);
  }

  lemma BothSent(cfg: Config, run: seq<Label>, s: State, p: nat, q: nat, id: JobId)
    returns (run': seq<Label>, s': State)
    requires Leads(cfg, INITIAL, None, run, s, None) && Rests(s) && s.ack == AckIdle && s.loop.sent == []
    requires InSend(s.loop, p, id) && InSend(s.loop, q, id) && p != q
    requires id in s.table.rows && s.table.rows[id].state == Pending && s.table.rows[id].attempts == 0
    ensures Leads(cfg, INITIAL, None, run', s', None)
    ensures id in s'.table.rows && s'.table.rows[id].state == Dispatched && s'.table.rows[id].attempts == 1
    ensures Sends(s'.loop.sent, id) == 2
  {
    var s1;
    OneSendEnds(s.loop, p, q, id);
    run', s1 := ThenSent(cfg, INITIAL, None, run, s, p);
    LastSendEnds(s1.loop, q, id);
    OneAttempt(s.table, id, s.clock);
    run', s' := ThenSent(cfg, INITIAL, None, run', s1, q);
  }

  // ---------------------------------------------------------------- an empty agent id

  /** A job is submitted for an agent that is not there; an agent that registers with an empty id is sent it. */
  lemma EmptyIdMisroutes(cfg: Config, n: AgentId, a: AgentId, id: JobId) returns (run: seq<Label>, s: State)
    requires !Truthy(n) && Truthy(a)
    ensures Leads(cfg, INITIAL, None, run, s, None)
    ensures |s.loop.sent| == 1 && s.loop.sent[0].JobMessage? && s.loop.sent[0].job == id && id in s.table.rows
    ensures s.loop.sent[0].conn in s.loop.conns && s.loop.conns[s.loop.sent[0].conn].agentId == n
    ensures s.table.rows[id].agentId == a && n != a
  {
    var s1, s2, turn;
    run, s1, turn := ThenSubmits(cfg, [], INITIAL, NewJob(a, id));
    run, s2 := ThenFindsNothing(cfg, run, s1, turn, a);
    run, s := SentToNameless(cfg, run, s2, n, a, id);
  }

  lemma SentToNameless(cfg: Config, run: seq<Label>, s: State, n: AgentId, a: AgentId, id: JobId)
    returns (run': seq<Label>, s': State)
    requires CalmAt(cfg, run, s) && !Truthy(n) && Truthy(a) && s.table.rows == map[id := NewJob(a, id)] && s.loop.sent == []
    ensures Leads(cfg, INITIAL, None, run', s', None)
    ensures |s'.loop.sent| == 1 && s'.loop.sent[0].JobMessage? && s'.loop.sent[0].job == id && id in s'.table.rows
    ensures s'.loop.sent[0].conn in s'.loop.conns && s'.loop.conns[s'.loop.sent[0].conn].agentId == n
    ensures s'.table.rows[id].agentId == a && n != a
  {
    var s1, turn;
    run', s1, turn := ThenArrives(cfg, run, s, n);
    run', s' := PickedByNameless(cfg, run', s1, turn, n, a, id);
  }

  lemma PickedByNameless(cfg: Config, run: seq<Label>, s: State, turn: Option<nat>, n: AgentId, a: AgentId, id: JobId)
    returns (run': seq<Label>, s': State)
    requires Leads(cfg, INITIAL, None, run, s, turn) && Begins(s, turn, n) && Idle(s.loop, n) && s.loop.sent == []
    requires s.loop.conns[s.loop.registry[n]].agentId == n
    requires !Truthy(n) && Truthy(a) && s.table.rows == map[id := NewJob(a, id)]
    ensures Leads(cfg, INITIAL, None, run', s', None)
    ensures |s'.loop.sent| == 1 && s'.loop.sent[0].JobMessage? && s'.loop.sent[0].job == id && id in s'.table.rows
    ensures s'.loop.sent[0].conn in s'.loop.conns && s'.loop.conns[s'.loop.sent[0].conn].agentId == n
    ensures s'.table.rows[id].agentId == a && n != a
  {
    var s1;
    assert IsFirst(s.table, n, id);
    run', s1 := ThenPick(cfg, INITIAL, None, run, s, turn, turn.value, id);
    MarksIt(s.table, id, s.clock);
    run', s' := ThenSent(cfg, INITIAL, None, run', s1, turn.value);
  }
}
