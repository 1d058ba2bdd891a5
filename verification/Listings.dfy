/** What a listing of the job table lets its reader conclude, whichever order it leaves ties in. */
module Listings {
  import opened Jobs
  import opened Ordering
  import opened Store
  import opened Repositories
  import opened System

  /** The listing holds exactly the stored rows that pass the filter, once each. */
  ghost predicate Listed(t: Table, agent: Option<AgentId>, state: Option<JobState>, rows: seq<Row>) {
    && DistinctIds(rows)
    && forall r :: r in rows <==>
         && r.jobId in t.rows && t.rows[r.jobId] == r
         && (agent == None || agent.value.text == "" || agent.value == r.agentId)
         && (state == None || state.value == r.state)
  }

  lemma {:induction false} MatchingMembers(rows: map<JobId, Row>, order: seq<JobId>, agent: Option<AgentId>,
                                           state: Option<JobState>, r: Row)
    requires forall id :: id in rows ==> rows[id].jobId == id
    ensures r in Matching(rows, order, agent, state) <==>
              r.jobId in order && r.jobId in rows && rows[r.jobId] == r && Matches(r, agent, state)
  {
    if order != [] {
      MatchingMembers(rows, order[..|order| - 1], agent, state, r);
      assert order == order[..|order| - 1] + [order[|order| - 1]];
    }
  }

  lemma {:induction false} MatchingDistinct(rows: map<JobId, Row>, order: seq<JobId>, agent: Option<AgentId>,
                                            state: Option<JobState>)
    requires forall id :: id in rows ==> rows[id].jobId == id
    requires forall i, j :: 0 <= i < j < |order| ==> order[i] != order[j]
    ensures DistinctIds(Matching(rows, order, agent, state))
  {
    if order != [] {
      var init, last := order[..|order| - 1], order[|order| - 1];
      MatchingDistinct(rows, init, agent, state);
      var before := Matching(rows, init, agent, state);
      forall k | 0 <= k < |before| ensures before[k].jobId != last {
        MatchingMembers(rows, init, agent, state, before[k]);
      }
    }
  }

  /** The matching rows come in insertion order. */
  lemma {:induction false} MatchingInOrder(rows: map<JobId, Row>, order: seq<JobId>, agent: Option<AgentId>,
                                           state: Option<JobState>, i: nat, j: nat)
    returns (p: nat, q: nat)
    requires forall id :: id in rows ==> rows[id].jobId == id
    requires i < j < |Matching(rows, order, agent, state)|
    ensures var m := Matching(rows, order, agent, state);
            p < q < |order| && order[p] == m[i].jobId && order[q] == m[j].jobId
  {
    var n := |order| - 1;
    var before := Matching(rows, order[..n], agent, state);
    if j < |before| {
      p, q := MatchingInOrder(rows, order[..n], agent, state, i, j);
    } else {
      q := n;
      MatchingMembers(rows, order[..n], agent, state, before[i]);
      p :| 0 <= p < n && order[..n][p] == before[i].jobId;
    }
  }

  lemma {:induction false} DistinctOnce(rows: seq<Row>, r: Row)
    requires DistinctIds(rows)
    ensures multiset(rows)[r] <= 1
  {
    if rows != [] {
      DistinctOnce(rows[1..], r);
      assert rows == [rows[0]] + rows[1..];
    }
  }

  lemma TwiceCounted(rows: seq<Row>, i: nat, j: nat)
    requires i < j < |rows| && rows[i] == rows[j]
    ensures multiset(rows)[rows[i]] >= 2
  {
    assert rows == rows[..j] + rows[j..];
    assert rows[..j][i] == rows[i] && rows[j..][0] == rows[i];
    assert multiset(rows) == multiset(rows[..j]) + multiset(rows[j..]);
  }

  /** Any permutation of the matching rows is such a listing. */
  lemma {:induction false} PermutationIsListed(t: Table, agent: Option<AgentId>, state: Option<JobState>,
                                               rows: seq<Row>)
    requires TableOk(t) && multiset(rows) == multiset(Matching(t.rows, t.order, agent, state))
    ensures Listed(t, agent, state, rows)
  {
    var matching := Matching(t.rows, t.order, agent, state);
    MatchingDistinct(t.rows, t.order, agent, state);
    forall r
      ensures r in rows <==>
                && r.jobId in t.rows && t.rows[r.jobId] == r
                && (agent == None || agent.value.text == "" || agent.value == r.agentId)
                && (state == None || state.value == r.state)
    {
      MatchingMembers(t.rows, t.order, agent, state, r);
      assert r in rows <==> r in multiset(rows);
      assert r in matching <==> r in multiset(matching);
    }
    forall i, j | 0 <= i < j < |rows| ensures rows[i].jobId != rows[j].jobId {
      if rows[i].jobId == rows[j].jobId {
        assert rows[i] in rows && rows[j] in rows;
        TwiceCounted(rows, i, j);
        DistinctOnce(matching, rows[i]);
      }
    }
  }

  /** What a first candidate is, on the numbers: a PENDING job of the agent such that every other one has a greater
      priority number, or the same one and is not older. An agent with an empty id has every job. */
  lemma MostUrgent(t: Table, a: AgentId, pick: JobId)
    requires IsFirst(t, a, pick)
    ensures pick in t.rows && t.rows[pick].state == Pending && (a.text == "" || t.rows[pick].agentId == a)
    ensures forall id :: id in t.rows && t.rows[id].state == Pending && (a.text == "" || t.rows[id].agentId == a) ==>
              || t.rows[id].priority > t.rows[pick].priority
              || (t.rows[id].priority == t.rows[pick].priority && t.rows[id].createdAt >= t.rows[pick].createdAt)
  {
    forall id | id in t.rows && t.rows[id].state == Pending && (a.text == "" || t.rows[id].agentId == a)
      ensures || t.rows[id].priority > t.rows[pick].priority
              || (t.rows[id].priority == t.rows[pick].priority && t.rows[id].createdAt >= t.rows[pick].createdAt)
    {
      assert Candidate(a, t.rows[id]);
    }
  }

  lemma NothingIsPending(t: Table, a: AgentId)
    ensures NoCandidate(t, a) <==>
            forall id :: id in t.rows ==> !(t.rows[id].state == Pending && (a.text == "" || t.rows[id].agentId == a))
  {
    forall id | id in t.rows
      ensures Candidate(a, t.rows[id]) <==> t.rows[id].state == Pending && (a.text == "" || t.rows[id].agentId == a)
    {
    }
  }

  /** What the critical section may decide: it picks if and only if the agent is registered with nothing in flight and
      has a PENDING job, and then it picks a most urgent one. */
  lemma PickIsMostUrgent(t: Table, k: Loop, a: AgentId, pick: Option<JobId>)
    requires PickOk(t, k, a, pick)
    ensures pick.Some? <==>
            && a in k.registry && k.registry[a] in k.conns && k.conns[k.registry[a]].inFlight == 0
            && exists id :: id in t.rows && t.rows[id].state == Pending && (a.text == "" || t.rows[id].agentId == a)
    ensures pick.Some? ==>
              && pick.value in t.rows
              && var p := t.rows[pick.value];
                 && p.state == Pending && (a.text == "" || p.agentId == a)
                 && forall id :: id in t.rows && t.rows[id].state == Pending && (a.text == "" || t.rows[id].agentId == a) ==>
                      || t.rows[id].priority > p.priority
                      || (t.rows[id].priority == p.priority && t.rows[id].createdAt >= p.createdAt)
  {
    NothingIsPending(t, a);
    if pick.Some? {
      MostUrgent(t, a, pick.value);
    }
  }

  /** The dispatcher's pick: the first of the pending jobs, sorted by priority and age. */
  lemma {:induction false} FirstOfPending(t: Table, a: AgentId, rows: seq<Row>)
    requires TableOk(t) && Listed(t, Some(a), Some(Pending), rows)
    ensures rows == [] <==> NoCandidate(t, a)
    ensures |StableSort(ByPriority, rows)| == |rows|
    ensures rows != [] ==> var first := StableSort(ByPriority, rows)[0];
                           IsFirst(t, a, first.jobId) && t.rows[first.jobId] == first
  {
    forall id | id in t.rows ensures Candidate(a, t.rows[id]) <==> t.rows[id] in rows {
    }
    var sorted := StableSort(ByPriority, rows);
    var anyRow: Row :| true;
    StableSortSpec(ByPriority, rows, anyRow);
    assert |multiset(sorted)| == |multiset(rows)|;
    if rows != [] {
      assert rows[0] in rows;
      assert sorted[0] in multiset(sorted);
      var first := sorted[0];
      assert first in rows;
      forall id | id in t.rows && Candidate(a, t.rows[id]) ensures !Before(t.rows[id], t.rows[first.jobId]) {
        assert t.rows[id] in multiset(rows);
        assert t.rows[id] in sorted;
      }
    }
  }

  /** With the in-memory store, whose listing is a stable sort too, the pick is the first submitted of the jobs
      that tie: it is the head of the stable sort of the pending jobs in submission order. */
  lemma {:induction false} PickIsFirstSubmitted(t: Table, a: AgentId)
    requires TableOk(t) && !NoCandidate(t, a)
    ensures var pending := Matching(t.rows, t.order, Some(a), Some(Pending));
            var sorted := StableSort(ByPriority, StableSort(NewestFirst, pending));
            sorted != [] && IsFirst(t, a, sorted[0].jobId)
            && Ties(ByPriority, pending, sorted[0]) != [] && Ties(ByPriority, pending, sorted[0])[0] == sorted[0]
  {
    var pending := Matching(t.rows, t.order, Some(a), Some(Pending));
    PermutationIsListed(t, Some(a), Some(Pending), pending);
    FirstOfPending(t, a, pending);
    DispatchOrderKeepsSubmissionOrder(pending);
    StableSortSpec(ByPriority, pending, StableSort(ByPriority, pending)[0]);
  }

  /** A scan's filter over a listing in one state: the rows that are due, in listing order. */
  method CollectDue(cfg: Config, w: Watch, rows: seq<Row>) returns (due: seq<Row>)
    requires DistinctIds(rows) && Sorted(NewestFirst, rows)
    ensures DistinctIds(due) && Sorted(NewestFirst, due) && forall r :: r in due <==> r in rows && Due(cfg, w, r)
    ensures w.AckWatch? ==> forall r :: r in due <==>
              r in rows && r.state == Dispatched && w.now - r.updatedAt > cfg.ackTimeout
    ensures w.TimerWatch? ==> forall r :: r in due <==>
              r in rows && r.state == Running && r.startedAt.Some? && w.now - r.startedAt.value > r.timeoutMs
  {
    due := [];
    for i := 0 to |rows|
      invariant DistinctIds(due) && Sorted(NewestFirst, due)
      invariant forall r :: r in due <==> r in rows[..i] && Due(cfg, w, r)
    {
      assert rows[..i + 1] == rows[..i] + [rows[i]];
      if Due(cfg, w, rows[i]) {
        forall k | 0 <= k < |due| ensures due[k].jobId != rows[i].jobId && !Less(NewestFirst, rows[i], due[k]) {
          assert due[k] in rows[..i];
        }
        due := due + [rows[i]];
      }
    }
    assert rows[..|rows|] == rows;
  }

  /** The state each watcher lists. */
  function Watched(w: Watch): JobState {
    if w.AckWatch? then Dispatched else Running
  }

  lemma DueIsSnapshot(cfg: Config, w: Watch, t: Table, rows: seq<Row>, due: seq<Row>)
    requires TableOk(t) && Listed(t, None, Some(Watched(w)), rows)
    requires DistinctIds(due) && Sorted(NewestFirst, due) && forall r :: r in due <==> r in rows && Due(cfg, w, r)
    ensures Snapshot(cfg, w, t, due)
  {
    forall k | 0 <= k < |due|
      ensures due[k].jobId in t.rows && t.rows[due[k].jobId] == due[k] && Due(cfg, w, due[k])
    {
      assert due[k] in due;
    }
    forall id | id in t.rows && Due(cfg, w, t.rows[id]) ensures Lists(due, id) {
      assert t.rows[id] in rows;
      assert t.rows[id] in due;
      var k :| 0 <= k < |due| && due[k] == t.rows[id];
      assert due[k].jobId == id;
    }
  }

  /** What the worklist of an ack scan lists: copies of exactly the rows that are DISPATCHED for too long. */
  lemma AckWorklist(cfg: Config, t: Table, now: int, worklist: seq<Row>)
    requires Snapshot(cfg, AckWatch(now), t, worklist)
    ensures forall k :: 0 <= k < |worklist| ==>
              worklist[k].jobId in t.rows && t.rows[worklist[k].jobId] == worklist[k]
    ensures forall i, j :: 0 <= i < j < |worklist| ==>
              worklist[i].jobId != worklist[j].jobId && worklist[i].createdAt >= worklist[j].createdAt
    ensures forall id :: (exists k :: 0 <= k < |worklist| && worklist[k].jobId == id) <==>
              id in t.rows && t.rows[id].state == Dispatched && now - t.rows[id].updatedAt > cfg.ackTimeout
  {
    forall id | id in t.rows && t.rows[id].state == Dispatched && now - t.rows[id].updatedAt > cfg.ackTimeout
      ensures exists k :: 0 <= k < |worklist| && worklist[k].jobId == id
    {
      assert Lists(worklist, id);
    }
  }

  /** What the worklist of a timeout scan lists: copies of exactly the rows that are RUNNING for too long. */
  lemma TimerWorklist(cfg: Config, t: Table, now: int, worklist: seq<Row>)
    requires Snapshot(cfg, TimerWatch(now), t, worklist)
    ensures forall k :: 0 <= k < |worklist| ==>
              worklist[k].jobId in t.rows && t.rows[worklist[k].jobId] == worklist[k]
    ensures forall i, j :: 0 <= i < j < |worklist| ==>
              worklist[i].jobId != worklist[j].jobId && worklist[i].createdAt >= worklist[j].createdAt
    ensures forall id :: (exists k :: 0 <= k < |worklist| && worklist[k].jobId == id) <==>
              && id in t.rows && t.rows[id].state == Running
              && t.rows[id].startedAt.Some? && now - t.rows[id].startedAt.value > t.rows[id].timeoutMs
  {
    forall id | id in t.rows && t.rows[id].state == Running && t.rows[id].startedAt.Some?
                && now - t.rows[id].startedAt.value > t.rows[id].timeoutMs
      ensures exists k :: 0 <= k < |worklist| && worklist[k].jobId == id
    {
      assert Lists(worklist, id);
    }
  }
}
