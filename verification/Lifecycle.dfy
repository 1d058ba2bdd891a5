/** What one JobService call can do to a record: coherence, freezing of terminal records, and a rank that drops. */
module Lifecycle {
  import opened Jobs
  import opened Store

  /** Everything the fields of one record promise about each other. */
  predicate CoherentRow(max: nat, r: Row) {
    && (r.finishedAt.Some? <==> IsTerminal(r.state))
    && (r.startedAt.Some? ==> r.state == Running || IsTerminal(r.state))
    && (r.state == Running || r.state == Succeeded || r.state == TimedOut ==> r.startedAt.Some?)
    && r.attempts <= max
    && (r.state == Pending ==> r.attempts < max)
    && (r.state == Dispatched || r.startedAt.Some? ==> r.attempts >= 1)
    && (!IsTerminal(r.state) ==> r.exitCode == None && r.error == None && r.stdout == "" && r.stderr == "")
    && (r.state == Succeeded ==> r.exitCode == Some(0) && r.error == None)
    && (r.state == TimedOut || r.state == Cancelled ==> r.exitCode == None && r.error == None)
    && (r.state == Failed ==> r.exitCode.Some?)
    && (r.state == Failed && r.startedAt == None ==> r.error == Some(NoAck(max)))
    && (r.error.Some? && r.error.value.NoAck? ==> r.error.value.limit == max == r.attempts && r.exitCode == Some(1))
  }

  /** With a clock that never goes back: created <= started <= finished <= updated <= now, wherever set. */
  predicate OrderedTimes(clock: int, r: Row) {
    && r.createdAt <= r.updatedAt <= clock
    && (r.startedAt.Some? ==> r.createdAt <= r.startedAt.value <= r.updatedAt)
    && (r.finishedAt.Some? ==> r.createdAt <= r.finishedAt.value <= r.updatedAt)
    && (r.startedAt.Some? && r.finishedAt.Some? ==> r.startedAt.value <= r.finishedAt.value)
  }

  /** What the callers of JobService guarantee. That a stale failure never meets a PENDING job, and meets only
      jobs whose attempts are used up, is no guard in the code: Watchers proves it. */
  predicate CallOk(max: nat, t: Table, c: Call) {
    && FreshCall(t, c)
    && (c.Submit? ==>
          c.job == NewRow(c.job.jobId, c.job.agentId, c.job.request, c.job.timeoutMs, c.job.key, c.job.priority,
                          c.job.createdAt, c.job.updatedAt))
    && (c.MarkSucceeded? ==> c.exit == 0)
    && (c.MarkFailed? && c.error.Some? ==> c.error.value.Reported?)
    && (c.Requeue? && c.id in t.rows && t.rows[c.id].state == Dispatched ==> t.rows[c.id].attempts < max)
    && (c.FailStale? ==>
          c.reason == NoAck(max) && (c.id in t.rows ==> t.rows[c.id].state != Pending && t.rows[c.id].attempts >= max))
  }

  /** The clock readings of a call lie between two instants, in order. */
  predicate CallTimes(from: int, c: Call, to: int) {
    match c
    case NoCall => from <= to
    case Submit(job) => from <= job.createdAt <= job.updatedAt <= to
    case MarkDispatched(_, t1, t2) => from <= t1 <= t2 <= to
    case MarkRunning(_, t) => from <= t <= to
    case MarkSucceeded(_, _, _, _, t) => from <= t <= to
    case MarkFailed(_, _, _, _, _, t) => from <= t <= to
    case MarkTimedOut(_, t) => from <= t <= to
    case MarkCancelled(_, t) => from <= t <= to
    case Requeue(_, t) => from <= t <= to
    case FailStale(_, _, t1, t2) => from <= t1 <= t2 <= to
  }

  lemma EffectKeepsCoherence(max: nat, t: Table, c: Call)
    requires !c.NoCall? && !c.Submit? && c.id in t.rows
    requires CoherentRow(max, t.rows[c.id]) && CallOk(max, t, c)
    ensures CoherentRow(max, Effect(c, t.rows[c.id]))
  {
  }

  lemma EffectKeepsOrder(max: nat, c: Call, r: Row, from: int, to: int)
    requires !c.NoCall? && !c.Submit?
    requires CoherentRow(max, r) && OrderedTimes(from, r) && CallTimes(from, c, to)
    ensures OrderedTimes(to, Effect(c, r))
  {
  }

  /** A terminal record is frozen whole: no call changes any of its fields. */
  lemma TerminalRowFrozen(t: Table, c: Call, id: JobId)
    requires id in t.rows && IsTerminal(t.rows[id].state) && FreshCall(t, c)
    ensures id in Exec(t, c).rows && Exec(t, c).rows[id] == t.rows[id]
  {
  }

  /** No call changes a started_at that is set. */
  lemma CallKeepsStart(t: Table, c: Call, id: JobId)
    requires FreshCall(t, c) && id in t.rows && t.rows[id].startedAt.Some?
    ensures id in Exec(t, c).rows && Exec(t, c).rows[id].startedAt == t.rows[id].startedAt
  {
  }

  /** The only state changes a call can make. */
  predicate Allowed(a: JobState, b: JobState) {
    || (a == Pending && (b == Dispatched || b == Cancelled))
    || (a == Dispatched && (b == Pending || b == Running || b == Cancelled || b == Failed))
    || (a == Running && (b == Succeeded || b == Failed || b == TimedOut || b == Cancelled))
  }

  /** PENDING(a) = 2(max-a)+1, DISPATCHED(a) = 2(max-a)+2, RUNNING = 1, terminal = 0. */
  function Rank(max: nat, r: Row): int {
    match r.state
    case Pending => 2 * (max - r.attempts) + 1
    case Dispatched => 2 * (max - r.attempts) + 2
    case Running => 1
    case _ => 0
  }

  /** One call on a coherent table: the state moves only along allowed edges, and the rank drops exactly then. */
  lemma CallDropsRank(max: nat, t: Table, c: Call, id: JobId)
    requires id in t.rows && IdsOk(t) && CoherentRow(max, t.rows[id]) && CallOk(max, t, c)
    ensures id in Exec(t, c).rows
    ensures var r, r' := t.rows[id], Exec(t, c).rows[id];
            && r.attempts <= r'.attempts
            && (r'.state == r.state ==> r'.attempts == r.attempts && Rank(max, r') == Rank(max, r))
            && (r'.state != r.state ==> Allowed(r.state, r'.state) && 0 <= Rank(max, r') < Rank(max, r))
  {
    if !c.NoCall? && !c.Submit? && c.id == id {
      var e := Effect(c, t.rows[id]);
      assert Exec(t, c).rows[id] == e;
    }
  }
}
