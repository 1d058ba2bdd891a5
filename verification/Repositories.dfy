/**
 The two job repositories. The in-memory one keeps shared, mutable job objects in dictionaries; the SQLite one
 keeps rows, returns copies, and changes rows by UPDATE statements. Both are proved against Store.
 */
module Repositories {
  import opened Jobs
  import opened Ordering
  import opened Store

  /** The record as an object: identity and request fields never change, the others are assigned in place. */
  class Job {
    const jobId: JobId
    const agentId: AgentId
    const request: string
    const timeoutMs: int
    const key: Option<Key>
    const priority: int
    const createdAt: int
    var state: JobState
    var updatedAt: int
    var startedAt: Option<int>
    var finishedAt: Option<int>
    var attempts: nat
    var exitCode: Option<int>
    var error: Option<ErrorText>
    var stdout: string
    var stderr: string

    function View(): (r: Row)
      reads this
      ensures r.jobId == jobId && r.key == key
    {
      Row(jobId, agentId, request, timeoutMs, key, priority, createdAt, state, updatedAt, startedAt, finishedAt,
          attempts, exitCode, error, stdout, stderr)
    }

    constructor (r: Row)
      ensures View() == r
    {
      jobId, agentId, request, timeoutMs := r.jobId, r.agentId, r.request, r.timeoutMs;
      key, priority, createdAt := r.key, r.priority, r.createdAt;
      state, updatedAt, startedAt, finishedAt := r.state, r.updatedAt, r.startedAt, r.finishedAt;
      attempts, exitCode, error, stdout, stderr := r.attempts, r.exitCode, r.error, r.stdout, r.stderr;
    }

    /** The assignments of a transition whose guard has been checked. */
    method Move(target: JobState, t: int)
      modifies this
      ensures View() == Transition(old(View()), old(state), target, t)
    {
      state := target;
      updatedAt := t;
      if target == Running && startedAt == None {
        startedAt := Some(updatedAt);
      }
      if IsTerminal(target) {
        finishedAt := Some(updatedAt);
      }
    }

    /** The assignments of a dispatch mark whose guard has been checked. */
    method CountAttempt(t: int)
      modifies this
      ensures View() == old(View()).(state := Dispatched, attempts := old(attempts) + 1, updatedAt := t)
    {
      state := Dispatched;
      attempts := attempts + 1;
      updatedAt := t;
    }

    /** The assignments of a stale failure whose guard has been checked. */
    method GiveUp(reason: ErrorText, t: int)
      modifies this
      ensures View() == old(View()).(exitCode := Some(1), error := Some(reason), state := Failed, finishedAt := Some(t))
    {
      exitCode := Some(1);
      error := Some(reason);
      state := Failed;
      finishedAt := Some(t);
    }

    /** The assignments of a completion whose guard has been checked. */
    method Finish(target: JobState, exit: int, out: string, err: string, error: Option<ErrorText>, t: int)
      requires state == Running
      modifies this
      ensures View() == Complete(old(View()), target, exit, out, err, error, t)
    {
      exitCode, stdout, stderr, this.error := Some(exit), out, err, error;
      state := target;
      updatedAt := t;
      finishedAt := Some(updatedAt);
    }
  }

  /** The records of a list of jobs, as they are now. */
  function Views(jobs: seq<Job>): (rows: seq<Row>)
    reads jobs
    ensures |rows| == |jobs|
  {
    if jobs == [] then [] else [jobs[0].View()] + Views(jobs[1..])
  }

  lemma {:induction false} ViewsAt(jobs: seq<Job>, i: nat)
    requires i < |jobs|
    ensures Views(jobs)[i] == jobs[i].View()
  {
    if i > 0 {
      ViewsAt(jobs[1..], i - 1);
    }
  }

  /** Sorted records, read off the objects. */
  lemma {:induction false} NewestComeFirst(jobs: seq<Job>)
    requires Sorted(NewestFirst, Views(jobs))
    ensures forall i, k :: 0 <= i < k < |jobs| ==> jobs[i].createdAt >= jobs[k].createdAt
  {
    forall i, k | 0 <= i < k < |jobs| ensures jobs[i].createdAt >= jobs[k].createdAt {
      ComesFirst(jobs, i, k);
    }
  }

  lemma {:induction false} ComesFirst(jobs: seq<Job>, i: nat, k: nat)
    requires Sorted(NewestFirst, Views(jobs)) && i < k < |jobs|
    ensures jobs[i].createdAt >= jobs[k].createdAt
  {
    ViewsAt(jobs, i);
    ViewsAt(jobs, k);
  }

  lemma {:induction false} ViewsAppend(jobs: seq<Job>, x: Job)
    ensures Views(jobs + [x]) == Views(jobs) + [x.View()]
  {
    if jobs == [] {
      assert jobs + [x] == [x];
    } else {
      ViewsAppend(jobs[1..], x);
      assert (jobs + [x])[1..] == jobs[1..] + [x];
    }
  }

  /** The sort keys of a job object. They are constant fields, so sorting a list of objects reads no state. */
  predicate JobLess(o: Order, a: Job, b: Job) {
    match o
    case NewestFirst => b.createdAt < a.createdAt
    case ByPriority => a.priority < b.priority || (a.priority == b.priority && a.createdAt < b.createdAt)
  }

  function InsertJob(o: Order, x: Job, jobs: seq<Job>): (r: seq<Job>)
    ensures multiset(r) == multiset([x] + jobs)
  {
    if jobs == [] || !JobLess(o, jobs[0], x) then [x] + jobs
    else
      assert jobs == [jobs[0]] + jobs[1..];
      [jobs[0]] + InsertJob(o, x, jobs[1..])
  }

  function SortJobs(o: Order, jobs: seq<Job>): (r: seq<Job>)
    ensures multiset(r) == multiset(jobs)
  {
    if jobs == [] then []
    else
      assert jobs == [jobs[0]] + jobs[1..];
      InsertJob(o, jobs[0], SortJobs(o, jobs[1..]))
  }

  lemma SameMembers(a: seq<Job>, b: seq<Job>)
    requires multiset(a) == multiset(b)
    ensures forall j :: j in a ==> j in b
  {
    assert forall j :: j in a ==> j in multiset(a);
  }

  lemma {:induction false} InsertJobByView(o: Order, x: Job, jobs: seq<Job>)
    ensures Views(InsertJob(o, x, jobs)) == Insert(o, x.View(), Views(jobs))
  {
    if jobs == [] || !JobLess(o, jobs[0], x) {
      assert ([x] + jobs)[1..] == jobs;
    } else {
      InsertJobByView(o, x, jobs[1..]);
      assert InsertJob(o, x, jobs)[1..] == InsertJob(o, x, jobs[1..]);
      assert Views(jobs)[1..] == Views(jobs[1..]);
    }
  }

  /** Sorting the objects sorts their records. */
  lemma {:induction false} SortJobsByView(o: Order, jobs: seq<Job>)
    ensures Views(SortJobs(o, jobs)) == StableSort(o, Views(jobs))
  {
    if jobs != [] {
      SortJobsByView(o, jobs[1..]);
      assert Views(jobs)[1..] == Views(jobs[1..]);
      InsertJobByView(o, jobs[0], SortJobs(o, jobs[1..]));
    }
  }

  /** The optional filters of `list`; an empty agent id is no filter. */
  predicate Matches(r: Row, agent: Option<AgentId>, state: Option<JobState>) {
    && (agent.Some? && Truthy(agent.value) ==> r.agentId == agent.value)
    && (state.Some? ==> r.state == state.value)
  }

  /** The matching rows in insertion order. */
  function Matching(rows: map<JobId, Row>, order: seq<JobId>, agent: Option<AgentId>, state: Option<JobState>): seq<Row> {
    if order == [] then []
    else
      var last := order[|order| - 1];
      Matching(rows, order[..|order| - 1], agent, state) +
      (if last in rows && Matches(rows[last], agent, state) then [rows[last]] else [])
  }

  lemma {:induction false} MatchingNext(rows: map<JobId, Row>, order: seq<JobId>, i: nat, agent: Option<AgentId>,
                                        state: Option<JobState>)
    requires i < |order| && order[i] in rows
    ensures Matching(rows, order[..i + 1], agent, state) ==
              Matching(rows, order[..i], agent, state) + (if Matches(rows[order[i]], agent, state) then [rows[order[i]]] else [])
  {
    assert order[..i + 1][..i] == order[..i];
  }

  /** The table after one row was replaced by what a function of the source says about it. */
  function WithRow(t: Table, id: JobId, r: Row): Table {
    t.(rows := t.rows[id := r])
  }

  /** Replace a stored row, and with it the key the index has for it. */
  function Update(t: Table, r: Row): Table
    requires r.jobId in t.rows
  {
    var was := t.rows[r.jobId].key;
    var others := if was.Some? then t.keys - {was.value} else t.keys;
    Table(t.rows[r.jobId := r],
          if was == r.key then t.keys else if r.key.Some? then others[r.key.value := r.jobId] else others,
          t.order)
  }

  /** The row would take a key that another row has. */
  predicate KeyClash(t: Table, r: Row) {
    r.jobId in t.rows && r.key.Some? && r.key != t.rows[r.jobId].key && r.key.value in t.keys
  }

  /** What an UPDATE of every column keeps: the row becomes the given one, no other row changes, and the key index stays
      the inverse of the keyed rows, unless the key belongs to another row. */
  lemma UpdateKeepsTableOk(t: Table, r: Row)
    requires TableOk(t) && r.jobId in t.rows
    requires r.key.Some? && r.key.value in t.keys ==> t.keys[r.key.value] == r.jobId
    ensures TableOk(Update(t, r)) && Update(t, r).rows == t.rows[r.jobId := r]
  {
    var t' := Update(t, r);
    forall k | k in t'.keys ensures t'.keys[k] in t'.rows && t'.rows[t'.keys[k]].key == Some(k) {
    }
  }

  class InMemoryJobRepository {
    var jobs: map<JobId, Job>
    var idempotency: map<Key, JobId>
    var order: seq<JobId>

    ghost function Repr(): set<object>
      reads this
    {
      {this} + set id | id in jobs :: jobs[id]
    }

    ghost function Rows(): map<JobId, Row>
      reads this`jobs, set id | id in jobs :: jobs[id]
    {
      map id | id in jobs :: jobs[id].View()
    }

    ghost function Contents(): Table
      reads Repr()
    {
      Table(Rows(), idempotency, order)
    }

    /** Objects are stored under their own id, and index and order refer to stored jobs. */
    ghost predicate Valid()
      reads this
    {
      && (forall id :: id in jobs ==> jobs[id].jobId == id)
      && (forall k :: k in idempotency ==> idempotency[k] in jobs)
      && (forall i :: 0 <= i < |order| ==> order[i] in jobs)
    }

    constructor ()
      ensures Valid() && Contents() == EMPTY_TABLE && fresh(Repr())
    {
      jobs, idempotency, order := map[], map[], [];
    }

    /** Store the object, in place of one with the same id, or hand out the owner of its key. */
    method Add(job: Job) returns (stored: Job)
      requires Valid()
      modifies this
      ensures Valid() && Repr() <= old(Repr()) + {job}
      ensures Contents() == Store.Add(old(Contents()), job.View())
      ensures OwnerId(old(Contents()), job.View()) in jobs
      ensures stored == jobs[OwnerId(old(Contents()), job.View())]
    {
      if job.key.Some? {
        if job.key.value in idempotency {
          return jobs[idempotency[job.key.value]];
        }
        idempotency := idempotency[job.key.value := job.jobId];
      }
      Insert(job);
      stored := job;
    }

    method Insert(job: Job)
      modifies this`jobs, this`order
      ensures jobs == old(jobs)[job.jobId := job]
      ensures order == if job.jobId in old(jobs) then old(order) else old(order) + [job.jobId]
      ensures Rows() == old(Rows())[job.jobId := job.View()]
    {
      order := if job.jobId in jobs then order else order + [job.jobId];
      jobs := jobs[job.jobId := job];
    }

    method Get(id: JobId) returns (job: Job?)
      ensures id in jobs ==> job == jobs[id]
      ensures id !in jobs ==> job == null
    {
      job := if id in jobs then jobs[id] else null;
    }

    method GetByIdempotencyKey(key: Key) returns (job: Job?)
      requires Valid()
      ensures key in idempotency ==> idempotency[key] in jobs && job == jobs[idempotency[key]]
      ensures key !in idempotency ==> job == null
    {
      job := if key in idempotency then jobs[idempotency[key]] else null;
    }

    /** The comprehension of list: the stored objects that match, in insertion order. */
    method Find(agent: Option<AgentId>, state: Option<JobState>) returns (found: seq<Job>)
      requires Valid()
      ensures Views(found) == Matching(Rows(), order, agent, state)
      ensures forall j :: j in found ==> j.jobId in jobs && jobs[j.jobId] == j
    {
      found := [];
      for i := 0 to |order|
        invariant Views(found) == Matching(Rows(), order[..i], agent, state)
        invariant forall j :: j in found ==> j.jobId in jobs && jobs[j.jobId] == j
      {
        MatchingNext(Rows(), order, i, agent, state);
        var job := jobs[order[i]];
        if Matches(job.View(), agent, state) {
          ViewsAppend(found, job);
          found := found + [job];
        }
      }
      assert order[..|order|] == order;
    }

    /** Newest first, by a reversed stable sort: jobs of the same age keep their insertion order. What comes back
        are the stored objects themselves. */
    method List(agent: Option<AgentId>, state: Option<JobState>) returns (listed: seq<Job>)
      requires Valid()
      ensures Views(listed) == StableSort(NewestFirst, Matching(Contents().rows, Contents().order, agent, state))
      ensures Sorted(NewestFirst, Views(listed))
      ensures multiset(Views(listed)) == multiset(Matching(Contents().rows, Contents().order, agent, state))
      ensures forall j :: j in listed ==> j.jobId in jobs && jobs[j.jobId] == j
      ensures forall i, k :: 0 <= i < k < |listed| ==> listed[i].createdAt >= listed[k].createdAt
    {
      var found := Find(agent, state);
      ghost var anyRow: Row :| true;
      SortJobsByView(NewestFirst, found);
      StableSortSpec(NewestFirst, Views(found), anyRow);
      listed := SortJobs(NewestFirst, found);
      NewestComeFirst(listed);
      SameMembers(listed, found);
    }

    /** Store the object under its id, whatever was stored there. The caller may have changed it before, and with
        it the stored record, if it is the stored object. */
    method Save(job: Job, t: int) returns (saved: Job)
      requires Valid()
      modifies job`updatedAt, this`jobs, this`order
      ensures Valid() && saved == job && jobs == old(jobs)[job.jobId := job]
      ensures job.View() == old(job.View()).(updatedAt := t)
      ensures Contents() == Put(old(Contents()), job.View())
    {
      job.updatedAt := t;
      Insert(job);
      saved := job;
      assert Rows() == old(Rows())[job.jobId := job.View()];
    }

    method TransitionIf(id: JobId, expected: JobState, target: JobState, t: int) returns (job: Job?)
      requires Valid()
      modifies Repr()
      ensures Valid() && jobs == old(jobs)
      ensures id !in jobs ==> job == null && Contents() == old(Contents())
      ensures id in jobs ==> job == jobs[id]
      ensures id in jobs ==>
                Contents() == WithRow(old(Contents()), id, Transition(old(Contents()).rows[id], expected, target, t))
    {
      job := if id in jobs then jobs[id] else null;
      if job == null {
        return;
      }
      if job.state == expected {
        job.Move(target, t);
      }
      assert job.View() == Transition(old(Contents()).rows[id], expected, target, t);
      OnlyChanged(job);
    }

    method CompleteIfRunning(id: JobId, target: JobState, exit: int, out: string, err: string,
                             error: Option<ErrorText>, t: int) returns (job: Job?)
      requires Valid()
      modifies Repr()
      ensures Valid() && jobs == old(jobs)
      ensures id !in jobs ==> job == null && Contents() == old(Contents())
      ensures id in jobs ==> job == jobs[id]
      ensures id in jobs ==>
                Contents() == WithRow(old(Contents()), id,
                                      Complete(old(Contents()).rows[id], target, exit, out, err, error, t))
    {
      job := if id in jobs then jobs[id] else null;
      if job == null {
        return;
      }
      if job.state == Running {
        job.Finish(target, exit, out, err, error, t);
      }
      assert job.View() == Complete(old(Contents()).rows[id], target, exit, out, err, error, t);
      OnlyChanged(job);
    }

    /** Changing one stored object changes one row. */
    twostate lemma OnlyChanged(job: Job)
      requires jobs == old(jobs) && idempotency == old(idempotency) && order == old(order)
      requires Valid() && job.jobId in jobs && jobs[job.jobId] == job
      requires forall id :: id in jobs && id != job.jobId ==> unchanged(jobs[id])
      ensures Contents() == WithRow(old(Contents()), job.jobId, job.View())
    {
      assert Contents().rows == old(Contents()).rows[job.jobId := job.View()];
    }
  }

  class SqliteJobRepository {
    var rows: map<JobId, Row>
    var keys: map<Key, JobId>
    var order: seq<JobId>

    ghost function Contents(): Table
      reads this
    {
      Table(rows, keys, order)
    }

    /** Rows are stored under their own id, and index and order refer to stored rows. */
    ghost predicate Valid()
      reads this
    {
      && (forall id :: id in rows ==> rows[id].jobId == id)
      && (forall k :: k in keys ==> keys[k] in rows)
      && (forall i :: 0 <= i < |order| ==> order[i] in rows)
    }

    constructor ()
      ensures Valid() && Contents() == EMPTY_TABLE
    {
      rows, keys, order := map[], map[], [];
    }

    /** A copy of the row, as a new object. */
    method Fetch(id: JobId) returns (job: Job?)
      requires Valid()
      ensures id in rows ==> job != null && fresh(job) && job.View() == rows[id]
      ensures id !in rows ==> job == null
    {
      job := null;
      if id in rows {
        job := new Job(rows[id]);
      }
    }

    /** INSERT; on a violated constraint, SELECT the row that owns the key. Without one the error is raised, which
        is the null result. */
    method Add(job: Job) returns (stored: Job?)
      requires Valid()
      modifies this
      ensures Valid()
      ensures job.jobId !in old(rows) ==> Contents() == Store.Add(old(Contents()), job.View())
      ensures job.jobId in old(rows) ==> Contents() == old(Contents())
      ensures stored == null <==> job.jobId in old(rows) && !(job.key.Some? && job.key.value in keys)
      ensures stored != null ==> OwnerId(old(Contents()), job.View()) in rows
      ensures stored != null ==> stored.View() == rows[OwnerId(old(Contents()), job.View())] && (stored == job || fresh(stored))
    {
      stored := null;
      if job.key.Some? && job.key.value in keys {
        stored := new Job(rows[keys[job.key.value]]);
      } else if job.jobId !in rows {
        rows := rows[job.jobId := job.View()];
        keys := if job.key.Some? then keys[job.key.value := job.jobId] else keys;
        order := order + [job.jobId];
        stored := job;
      }
    }

    method GetByIdempotencyKey(key: Key) returns (job: Job?)
      requires Valid()
      ensures key in keys ==> keys[key] in rows && job != null && fresh(job) && job.View() == rows[keys[key]]
      ensures key !in keys ==> job == null
    {
      job := null;
      if key in keys {
        job := new Job(rows[keys[key]]);
      }
    }

    /** The WHERE clause of list: copies of the rows that match. */
    method Select(agent: Option<AgentId>, state: Option<JobState>) returns (found: seq<Job>)
      requires Valid()
      ensures Views(found) == Matching(rows, order, agent, state)
      ensures forall j :: j in found ==> fresh(j)
    {
      found := [];
      for i := 0 to |order|
        invariant Views(found) == Matching(rows, order[..i], agent, state)
        invariant forall j :: j in found ==> fresh(j)
      {
        MatchingNext(rows, order, i, agent, state);
        if Matches(rows[order[i]], agent, state) {
          var job := new Job(rows[order[i]]);
          ViewsAppend(found, job);
          found := found + [job];
        }
      }
      assert order[..|order|] == order;
    }

    /** ORDER BY created_at DESC: copies of the matching rows, newest first, ties in any order. */
    method List(agent: Option<AgentId>, state: Option<JobState>) returns (listed: seq<Job>)
      requires Valid()
      ensures Sorted(NewestFirst, Views(listed))
      ensures forall i, k :: 0 <= i < k < |listed| ==> listed[i].createdAt >= listed[k].createdAt
      ensures multiset(Views(listed)) == multiset(Matching(Contents().rows, Contents().order, agent, state))
      ensures forall j :: j in listed ==> fresh(j)
    {
      var found := Select(agent, state);
      ghost var anyRow: Row :| true;
      SortJobsByView(NewestFirst, found);
      StableSortSpec(NewestFirst, Views(found), anyRow);
      listed := SortJobs(NewestFirst, found);
      NewestComeFirst(listed);
      SameMembers(listed, found);
    }

    /** UPDATE of every column of the row with the job's id, from the caller's copy. A key that another row has
        violates the unique index; the error is the null result. */
    method Save(job: Job, t: int) returns (saved: Job?)
      requires Valid()
      modifies this, job`updatedAt
      ensures Valid() && job.View() == old(job.View()).(updatedAt := t)
      ensures saved == if KeyClash(old(Contents()), job.View()) then null else job
      ensures Contents() ==
                if job.jobId !in old(rows) || saved == null then old(Contents()) else Update(old(Contents()), job.View())
    {
      job.updatedAt := t;
      saved := job;
      if job.jobId in rows {
        if rows[job.jobId].key != job.key {
          if job.key.Some? && job.key.value in keys {
            return null;
          }
          keys := if rows[job.jobId].key.Some? then keys - {rows[job.jobId].key.value} else keys;
          keys := if job.key.Some? then keys[job.key.value := job.jobId] else keys;
        }
        rows := rows[job.jobId := job.View()];
      }
    }

    /** UPDATE ... WHERE job_id = ? AND state = ?, with COALESCE and CASE WHEN in the SET clause; then SELECT. */
    method TransitionIf(id: JobId, expected: JobState, target: JobState, t: int) returns (job: Job?)
      requires Valid()
      modifies this`rows
      ensures Valid()
      ensures rows.Keys == old(rows).Keys
      ensures id !in rows ==> job == null && Contents() == old(Contents())
      ensures id in rows ==> job != null && fresh(job) && job.View() == rows[id]
      ensures id in rows ==>
                Contents() == WithRow(old(Contents()), id, Transition(old(Contents()).rows[id], expected, target, t))
    {
      if id in rows && rows[id].state == expected {
        rows := rows[id := SqlTransitionSet(rows[id], target, t)];
      }
      if id in rows {
        SqlTransitionAgrees(old(rows)[id], expected, target, t);
        assert rows == old(rows)[id := rows[id]];
      }
      job := Fetch(id);
    }

    method CompleteIfRunning(id: JobId, target: JobState, exit: int, out: string, err: string,
                             error: Option<ErrorText>, t: int) returns (job: Job?)
      requires Valid()
      modifies this`rows
      ensures Valid()
      ensures rows.Keys == old(rows).Keys
      ensures id !in rows ==> job == null && Contents() == old(Contents())
      ensures id in rows ==> job != null && fresh(job) && job.View() == rows[id]
      ensures id in rows ==>
                Contents() == WithRow(old(Contents()), id,
                                      Complete(old(Contents()).rows[id], target, exit, out, err, error, t))
    {
      if id in rows && rows[id].state == Running {
        rows := rows[id := rows[id].(state := target, exitCode := Some(exit), stdout := out, stderr := err, error := error,
                                     updatedAt := t, finishedAt := Some(t))];
      }
      assert id in rows ==> rows == old(rows)[id := rows[id]];
      job := Fetch(id);
    }
  }
}
