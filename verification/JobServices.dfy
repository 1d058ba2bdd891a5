/**
 JobService over either repository. Its methods are proved against Store.Exec and Store.Reply whichever
 repository is behind them, although `get` hands out the stored object in one case and a copy in the other.
 */
module JobServices {
  import opened Jobs
  import opened Ordering
  import opened Store
  import opened Repositories

  datatype Backend = Memory(memory: InMemoryJobRepository) | Sqlite(sqlite: SqliteJobRepository)

  class JobService {
    const backend: Backend

    ghost function Repr(): set<object>
      reads if backend.Memory? then {backend.memory} else {}
    {
      if backend.Memory? then backend.memory.Repr() + {this} else {backend.sqlite, this}
    }

    ghost function Contents(): Table
      reads if backend.Memory? then {backend.memory} else {}, Repr()
    {
      if backend.Memory? then backend.memory.Contents() else backend.sqlite.Contents()
    }

    ghost predicate Valid()
      reads if backend.Memory? then {backend.memory} else {}, Repr()
    {
      if backend.Memory? then backend.memory.Valid() else backend.sqlite.Valid()
    }

    /** What `get` returns: the stored object itself, or a new copy of the row. */
    ghost predicate Hands(job: Job?, id: JobId)
      reads if backend.Memory? then {backend.memory} else {}, Repr(), if job == null then {} else {job}
    {
      if id in Contents().rows then
        job != null && job.View() == Contents().rows[id]
        && (backend.Memory? ==> id in backend.memory.jobs && job == backend.memory.jobs[id])
      else job == null
    }

    constructor (backend: Backend)
      ensures this.backend == backend
    {
      this.backend := backend;
    }

    method Get(id: JobId) returns (job: Job?)
      requires Valid()
      ensures Hands(job, id)
      ensures job != null ==> job in Repr() || fresh(job)
      ensures backend.Sqlite? && job != null ==> fresh(job)
    {
      match backend
      case Memory(m) => job := m.Get(id);
      case Sqlite(q) => job := q.Fetch(id);
    }

    method TransitionIf(id: JobId, expected: JobState, target: JobState, t: int) returns (job: Job?)
      requires Valid()
      modifies Repr()
      ensures Valid() && Repr() == old(Repr()) && Hands(job, id)
      ensures id !in old(Contents()).rows ==> Contents() == old(Contents())
      ensures id in old(Contents()).rows ==>
                Contents() == WithRow(old(Contents()), id, Transition(old(Contents()).rows[id], expected, target, t))
    {
      match backend
      case Memory(m) => job := m.TransitionIf(id, expected, target, t);
      case Sqlite(q) => job := q.TransitionIf(id, expected, target, t);
    }

    method CompleteIfRunning(id: JobId, target: JobState, exit: int, out: string, err: string,
                             error: Option<ErrorText>, t: int) returns (job: Job?)
      requires Valid()
      modifies Repr()
      ensures Valid() && Repr() == old(Repr()) && Hands(job, id)
      ensures id !in old(Contents()).rows ==> Contents() == old(Contents())
      ensures id in old(Contents()).rows ==>
                Contents() == WithRow(old(Contents()), id,
                                      Complete(old(Contents()).rows[id], target, exit, out, err, error, t))
    {
      match backend
      case Memory(m) => job := m.CompleteIfRunning(id, target, exit, out, err, error, t);
      case Sqlite(q) => job := q.CompleteIfRunning(id, target, exit, out, err, error, t);
    }

    /** Save a job whose record differs from `before`, the table when the job was got, at most in its own row. */
    method Save(job: Job, t: int, ghost before: Table) returns (saved: Job)
      requires Valid() && job.jobId in Contents().rows && Contents().rows[job.jobId].key == job.key
      requires backend.Memory? ==> job.jobId in backend.memory.jobs && backend.memory.jobs[job.jobId] == job
      requires AgreesExcept(before, Contents(), job.jobId)
      modifies Repr(), job
      ensures Valid() && Repr() == old(Repr()) && saved == job && Hands(job, job.jobId)
      ensures Contents() == WithRow(before, job.jobId, old(job.View()).(updatedAt := t))
    {
      SameExcept(before, Contents(), job.jobId, job.View().(updatedAt := t));
      match backend
      case Memory(m) =>
        saved := m.Save(job, t);
        assert m.jobs == old(m.jobs);
      case Sqlite(q) => saved := q.Save(job, t);
    }

    /** The part of a dispatch mark that follows its guard. */
    method CountDispatch(job: Job, t1: int, t2: int) returns (saved: Job)
      requires Valid() && Hands(job, job.jobId) && job.jobId in Contents().rows && job.state == Pending
      modifies Repr(), job
      ensures Valid() && Repr() == old(Repr()) && saved == job && Hands(job, job.jobId)
      ensures Contents() == Exec(old(Contents()), MarkDispatched(job.jobId, t1, t2))
    {
      ghost var before := Contents();
      DispatchMarkOf(before, job.jobId, t1, t2);
      job.CountAttempt(t1);
      saved := Save(job, t2, before);
    }

    /** The part of a stale failure that follows its guard. */
    method GiveUp(job: Job, reason: ErrorText, t1: int, t2: int) returns (saved: Job)
      requires Valid() && Hands(job, job.jobId) && job.jobId in Contents().rows && !IsTerminal(job.state)
      modifies Repr(), job
      ensures Valid() && Repr() == old(Repr()) && saved == job && Hands(job, job.jobId)
      ensures Contents() == Exec(old(Contents()), FailStale(job.jobId, reason, t1, t2))
    {
      ghost var before := Contents();
      StaleFailureOf(before, job.jobId, reason, t1, t2);
      job.GiveUp(reason, t1);
      saved := Save(job, t2, before);
    }

    method Submit(agent: AgentId, request: string, timeoutMs: int, key: Option<Key>, priority: int,
                  id: JobId, created: int, updated: int) returns (job: Job)
      requires Valid() && id !in Contents().rows
      modifies Repr()
      ensures Valid() && fresh(Repr() - old(Repr()))
      ensures var row := NewRow(id, agent, request, timeoutMs, key, priority, created, updated);
              && Contents() == Exec(old(Contents()), Call.Submit(row))
              && Some(job.View()) == Reply(old(Contents()), Call.Submit(row))
      ensures key == None || key.value !in old(Contents()).keys ==>
                var r := job.View();
                && id in Contents().rows && Contents().rows[id] == r && r.jobId == id
                && r.agentId == agent && r.request == request && r.timeoutMs == timeoutMs && r.key == key && r.priority == priority
                && r.createdAt == created && r.updatedAt == updated && r.state == Pending && r.attempts == 0
                && r.startedAt == None && r.finishedAt == None && r.exitCode == None && r.error == None
                && r.stdout == "" && r.stderr == ""
      ensures key.Some? && key.value in old(Contents()).keys ==>
                Contents() == old(Contents()) && job.jobId == Contents().keys[key.value]
    {
      var built := new Job(NewRow(id, agent, request, timeoutMs, key, priority, created, updated));
      match backend
      case Memory(m) => job := m.Add(built);
      case Sqlite(q) => job := q.Add(built);
    }

    method MarkDispatchedWithAttempt(id: JobId, t1: int, t2: int) returns (job: Job?)
      requires Valid()
      modifies Repr()
      ensures Valid() && Repr() == old(Repr()) && Hands(job, id)
      ensures Contents() == Exec(old(Contents()), MarkDispatched(id, t1, t2))
    {
      job := Get(id);
      DispatchMarkOf(Contents(), id, t1, t2);
      if job != null && job.state == Pending {
        job := CountDispatch(job, t1, t2);
      }
    }

    method MarkRunning(id: JobId, t: int) returns (job: Job?)
      requires Valid()
      modifies Repr()
      ensures Valid() && Repr() == old(Repr()) && Hands(job, id)
      ensures Contents() == Exec(old(Contents()), Call.MarkRunning(id, t))
    {
      job := TransitionIf(id, Dispatched, Running, t);
    }

    method MarkSucceeded(id: JobId, exit: int, out: string, err: string, t: int) returns (job: Job?)
      requires Valid()
      modifies Repr()
      ensures Valid() && Repr() == old(Repr()) && Hands(job, id)
      ensures Contents() == Exec(old(Contents()), Call.MarkSucceeded(id, exit, out, err, t))
    {
      job := CompleteIfRunning(id, Succeeded, exit, out, err, None, t);
    }

    method MarkFailed(id: JobId, exit: int, out: string, err: string, error: Option<ErrorText>, t: int) returns (job: Job?)
      requires Valid()
      modifies Repr()
      ensures Valid() && Repr() == old(Repr()) && Hands(job, id)
      ensures Contents() == Exec(old(Contents()), Call.MarkFailed(id, exit, out, err, error, t))
    {
      job := CompleteIfRunning(id, Failed, exit, out, err, error, t);
    }

    method MarkTimedOut(id: JobId, t: int) returns (job: Job?)
      requires Valid()
      modifies Repr()
      ensures Valid() && Repr() == old(Repr()) && Hands(job, id)
      ensures Contents() == Exec(old(Contents()), Call.MarkTimedOut(id, t))
    {
      job := TransitionIf(id, Running, TimedOut, t);
    }

    method MarkCancelled(id: JobId, t: int) returns (job: Job?)
      requires Valid()
      modifies Repr()
      ensures Valid() && Repr() == old(Repr()) && Hands(job, id)
      ensures Contents() == Exec(old(Contents()), Call.MarkCancelled(id, t))
    {
      job := Get(id);
      if job == null || IsTerminal(job.state) {
        return;
      }
      job := TransitionIf(id, job.state, Cancelled, t);
    }

    method Requeue(id: JobId, t: int) returns (job: Job?)
      requires Valid()
      modifies Repr()
      ensures Valid() && Repr() == old(Repr()) && Hands(job, id)
      ensures Contents() == Exec(old(Contents()), Call.Requeue(id, t))
    {
      job := TransitionIf(id, Dispatched, Pending, t);
    }

    method FailStaleDispatch(id: JobId, reason: ErrorText, t1: int, t2: int) returns (job: Job?)
      requires Valid()
      modifies Repr()
      ensures Valid() && Repr() == old(Repr()) && Hands(job, id)
      ensures Contents() == Exec(old(Contents()), FailStale(id, reason, t1, t2))
    {
      job := Get(id);
      StaleFailureOf(Contents(), id, reason, t1, t2);
      if job != null && !IsTerminal(job.state) {
        job := GiveUp(job, reason, t1, t2);
      }
    }

    /** The matching jobs, newest first: the stored objects, or copies of the rows. Only the in-memory repository
        says how jobs of the same age are ordered. */
    method List(agent: Option<AgentId>, state: Option<JobState>) returns (listed: seq<Job>)
      requires Valid()
      ensures Contents() == old(Contents()) && Sorted(NewestFirst, Views(listed))
      ensures forall i, k :: 0 <= i < k < |listed| ==> listed[i].createdAt >= listed[k].createdAt
      ensures multiset(Views(listed)) == multiset(Matching(Contents().rows, Contents().order, agent, state))
      ensures backend.Memory? ==>
                && Views(listed) == StableSort(NewestFirst, Matching(Contents().rows, Contents().order, agent, state))
                && forall j :: j in listed ==> Hands(j, j.jobId)
      ensures backend.Sqlite? ==> forall j :: j in listed ==> fresh(j)
    {
      match backend
      case Memory(m) => listed := m.List(agent, state);
      case Sqlite(q) => listed := q.List(agent, state);
    }

    /** One call, by name. */
    method Perform(c: Call) returns (reply: Option<Row>)
      requires Valid() && FreshCall(Contents(), c)
      requires c.Submit? ==>
                 c.job == NewRow(c.job.jobId, c.job.agentId, c.job.request, c.job.timeoutMs, c.job.key, c.job.priority,
                                 c.job.createdAt, c.job.updatedAt)
      modifies Repr()
      ensures Valid() && fresh(Repr() - old(Repr()))
      ensures Contents() == Exec(old(Contents()), c) && reply == Reply(old(Contents()), c)
    {
      var job: Job?;
      match c {
        case NoCall => return None;
        case Submit(row) =>
          job := Submit(row.agentId, row.request, row.timeoutMs, row.key, row.priority, row.jobId,
                        row.createdAt, row.updatedAt);
        case MarkDispatched(id, t1, t2) => job := MarkDispatchedWithAttempt(id, t1, t2);
        case MarkRunning(id, t) => job := MarkRunning(id, t);
        case MarkSucceeded(id, exit, out, err, t) => job := MarkSucceeded(id, exit, out, err, t);
        case MarkFailed(id, exit, out, err, error, t) => job := MarkFailed(id, exit, out, err, error, t);
        case MarkTimedOut(id, t) => job := MarkTimedOut(id, t);
        case MarkCancelled(id, t) => job := MarkCancelled(id, t);
        case Requeue(id, t) => job := Requeue(id, t);
        case FailStale(id, reason, t1, t2) => job := FailStaleDispatch(id, reason, t1, t2);
      }
      reply := if job == null then None else Some(job.View());
    }
  }

  /** The two tables differ at most in one row. */
  ghost predicate AgreesExcept(before: Table, after: Table, id: JobId) {
    && id in before.rows && after.rows.Keys == before.rows.Keys
    && after.keys == before.keys && after.order == before.order
    && forall i :: i in before.rows && i != id ==> after.rows[i] == before.rows[i]
  }

  /** A stale failure, whether or not it takes effect. */
  lemma StaleFailureOf(t: Table, id: JobId, reason: ErrorText, t1: int, t2: int)
    ensures Exec(t, FailStale(id, reason, t1, t2)) ==
              if id in t.rows && !IsTerminal(t.rows[id].state) then
                WithRow(t, id, t.rows[id].(exitCode := Some(1), error := Some(reason), state := Failed, finishedAt := Some(t1),
                                           updatedAt := t2))
              else t
  {
    SameRow(t, id);
  }

  /** A dispatch mark, whether or not it takes effect. */
  lemma DispatchMarkOf(t: Table, id: JobId, t1: int, t2: int)
    ensures Exec(t, MarkDispatched(id, t1, t2)) ==
              if id in t.rows && t.rows[id].state == Pending then
                WithRow(t, id, t.rows[id].(state := Dispatched, attempts := t.rows[id].attempts + 1, updatedAt := t2))
              else t
  {
    SameRow(t, id);
  }

  lemma SameRow(t: Table, id: JobId)
    ensures id in t.rows ==> WithRow(t, id, t.rows[id]) == t
  {
    assert id in t.rows ==> t.rows[id := t.rows[id]] == t.rows;
  }

  lemma SameExcept(before: Table, after: Table, id: JobId, r: Row)
    requires AgreesExcept(before, after, id)
    ensures WithRow(after, id, r) == WithRow(before, id, r)
  {
    assert after.rows[id := r] == before.rows[id := r];
  }
}
