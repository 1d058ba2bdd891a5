/**
 The job table and the meaning of every JobService call on it, as one function from table to table.
 Both repositories are proved against this module.
 */
module Store {
  import opened Jobs

  /** Rows by id, the unique index on idempotency keys, and the ids in insertion order. */
  datatype Table = Table(rows: map<JobId, Row>, keys: map<Key, JobId>, order: seq<JobId>)

  const EMPTY_TABLE := Table(map[], map[], [])

  /** The compare-and-swap of one row, branch by branch as the in-memory repository does it. */
  function Transition(r: Row, expected: JobState, target: JobState, t: int): Row {
    if r.state != expected then r
    else
      var moved := r.(state := target, updatedAt := t);
      var started := if target == Running && r.startedAt == None then moved.(startedAt := Some(t)) else moved;
      if IsTerminal(target) then started.(finishedAt := Some(t)) else started
  }

  function Complete(r: Row, target: JobState, exit: int, out: string, err: string, error: Option<ErrorText>, t: int): Row {
    if r.state != Running then r
    else r.(exitCode := Some(exit), stdout := out, stderr := err, error := error, state := target,
            updatedAt := t, finishedAt := Some(t))
  }

  /** SQL COALESCE over nullable columns. */
  function Coalesce<T>(a: Option<T>, b: Option<T>): Option<T> {
    if a.Some? then a else b
  }

  /** The SET clause of the SQL transition statement, applied to a row that the WHERE clause selected. */
  function SqlTransitionSet(r: Row, target: JobState, t: int): Row {
    r.(state := target, updatedAt := t,
       startedAt := Coalesce(r.startedAt, if target == Running then Some(t) else None),
       finishedAt := if IsTerminal(target) then Some(t) else r.finishedAt)
  }

  /** The mutating calls of JobService, with the clock readings each one takes. */
  datatype Call =
    | NoCall
    | Submit(job: Row)
    | MarkDispatched(id: JobId, t1: int, t2: int)
    | MarkRunning(id: JobId, t: int)
    | MarkSucceeded(id: JobId, exit: int, out: string, err: string, t: int)
    | MarkFailed(id: JobId, exit: int, out: string, err: string, error: Option<ErrorText>, t: int)
    | MarkTimedOut(id: JobId, t: int)
    | MarkCancelled(id: JobId, t: int)
    | Requeue(id: JobId, t: int)
    | FailStale(id: JobId, reason: ErrorText, t1: int, t2: int)

  /** What a call does to the one row it names. */
  function Effect(c: Call, r: Row): Row
    requires !c.NoCall? && !c.Submit?
  {
    match c
    case MarkDispatched(_, _, t2) =>
      if r.state != Pending then r else r.(state := Dispatched, attempts := r.attempts + 1, updatedAt := t2)
    case MarkRunning(_, t) => Transition(r, Dispatched, Running, t)
    case MarkSucceeded(_, exit, out, err, t) => Complete(r, Succeeded, exit, out, err, None, t)
    case MarkFailed(_, exit, out, err, error, t) => Complete(r, Failed, exit, out, err, error, t)
    case MarkTimedOut(_, t) => Transition(r, Running, TimedOut, t)
    case MarkCancelled(_, t) => if IsTerminal(r.state) then r else Transition(r, r.state, Cancelled, t)
    case Requeue(_, t) => Transition(r, Dispatched, Pending, t)
    case FailStale(_, reason, t1, t2) =>
      if IsTerminal(r.state) then r
      else r.(exitCode := Some(1), error := Some(reason), state := Failed, finishedAt := Some(t1), updatedAt := t2)
  }

  /** Store a row under its id; a new id goes to the end of the insertion order. */
  function Put(t: Table, r: Row): Table {
    Table(t.rows[r.jobId := r], t.keys, if r.jobId in t.rows then t.order else t.order + [r.jobId])
  }

  /** Insert unless the idempotency key is taken. */
  function Add(t: Table, job: Row): Table {
    if job.key.Some? && job.key.value in t.keys then t
    else Put(t, job).(keys := if job.key.Some? then t.keys[job.key.value := job.jobId] else t.keys)
  }

  /** The id under which a submitted job is found afterwards. */
  function OwnerId(t: Table, job: Row): JobId {
    if job.key.Some? && job.key.value in t.keys then t.keys[job.key.value] else job.jobId
  }

  function Exec(t: Table, c: Call): Table {
    match c
    case NoCall => t
    case Submit(job) => Add(t, job)
    case _ => if c.id in t.rows then t.(rows := t.rows[c.id := Effect(c, t.rows[c.id])]) else t
  }

  /** The job a call returns: always the stored row as it stands after the call. */
  function Reply(t: Table, c: Call): Option<Row> {
    match c
    case NoCall => None
    case Submit(job) => Stored(Add(t, job), OwnerId(t, job))
    case _ => Stored(Exec(t, c), c.id)
  }

  function Stored(t: Table, id: JobId): Option<Row> {
    if id in t.rows then Some(t.rows[id]) else None
  }

  ghost predicate IdsOk(t: Table) {
    forall id :: id in t.rows ==> t.rows[id].jobId == id
  }

  /** Every stored id is listed exactly once. */
  ghost predicate OrderOk(t: Table) {
    && (forall id :: id in t.order <==> id in t.rows)
    && (forall i, j :: 0 <= i < j < |t.order| ==> t.order[i] != t.order[j])
  }

  /** The key index and the keyed rows are mutually inverse. */
  ghost predicate KeysOk(t: Table) {
    && (forall k :: k in t.keys ==> t.keys[k] in t.rows && t.rows[t.keys[k]].key == Some(k))
    && (forall id :: id in t.rows && t.rows[id].key.Some? ==>
          t.rows[id].key.value in t.keys && t.keys[t.rows[id].key.value] == id)
  }

  ghost predicate TableOk(t: Table) {
    IdsOk(t) && OrderOk(t) && KeysOk(t)
  }

  /** Job ids are fresh: no submitted job reuses a stored id. */
  predicate FreshCall(t: Table, c: Call) {
    c.Submit? ==> c.job.jobId !in t.rows
  }

  /** The SQL statement and the Python branches compute the same row. */
  lemma SqlTransitionAgrees(r: Row, expected: JobState, target: JobState, t: int)
    ensures (if r.state == expected then SqlTransitionSet(r, target, t) else r) == Transition(r, expected, target, t)
  {
  }

  lemma EffectKeepsIdentity(c: Call, r: Row)
    requires !c.NoCall? && !c.Submit?
    ensures var e := Effect(c, r);
            e.jobId == r.jobId && e.agentId == r.agentId && e.request == r.request && e.timeoutMs == r.timeoutMs
            && e.key == r.key && e.priority == r.priority && e.createdAt == r.createdAt
  {
  }

  lemma AddKeepsOrder(t: Table, job: Row)
    requires OrderOk(t) && job.jobId !in t.rows
    ensures OrderOk(Add(t, job))
  {
    var t' := Add(t, job);
    if t' != t {
      forall id ensures id in t'.order <==> id in t'.rows {
        assert id in t.order || id == job.jobId <==> id in t'.order;
      }
    }
  }

  lemma ExecKeepsTableOk(t: Table, c: Call)
    requires TableOk(t) && FreshCall(t, c)
    ensures TableOk(Exec(t, c))
  {
    if c.Submit? {
      AddKeepsOrder(t, c.job);
      assert IdsOk(Add(t, c.job));
      assert KeysOk(Add(t, c.job));
    } else if !c.NoCall? && c.id in t.rows {
      var t' := Exec(t, c);
      EffectKeepsIdentity(c, t.rows[c.id]);
      assert t' == t.(rows := t.rows[c.id := Effect(c, t.rows[c.id])]);
      RowUpdateKeepsTableOk(t, c.id, t'.rows[c.id]);
    }
  }

  lemma RowUpdateKeepsTableOk(t: Table, id: JobId, r: Row)
    requires TableOk(t) && id in t.rows && r.jobId == id && r.key == t.rows[id].key
    ensures TableOk(t.(rows := t.rows[id := r]))
  {
  }
}
