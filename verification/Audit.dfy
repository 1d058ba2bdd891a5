/**
 The event table is a faithful audit trail: replaying a job's events gives its stored state, attempt count
 and exit code, although events are also appended when the transition they report was a no-op.
 */
module Audit {
  import opened Jobs
  import opened Store
  import opened System
  import opened Watchers

  datatype Summary = Summary(state: JobState, attempts: nat, exitCode: Option<int>)

  /** One event, guarded by the state the replay has reached. */
  function ReplayStep(o: Option<Summary>, e: Event): Option<Summary> {
    if o.None? then if e.SubmittedEvent? then Some(Summary(Pending, 0, None)) else None
    else
      var m := o.value;
      match e
      case StartedEvent(_) => if m.state == Dispatched then Some(m.(state := Running)) else o
      case ResultEvent(state, exitCode) => if m.state == Running then Some(m.(state := state, exitCode := exitCode)) else o
      case DispatchedEvent(_) =>
        if m.state == Pending then Some(m.(state := Dispatched, attempts := m.attempts + 1)) else o
      case RequeuedEvent(_) => if m.state == Dispatched then Some(m.(state := Pending)) else o
      case NoAckEvent(_) => if IsTerminal(m.state) then o else Some(m.(state := Failed, exitCode := Some(1)))
      case CancelledEvent => if IsTerminal(m.state) then o else Some(m.(state := Cancelled))
      case TimedOutEvent => if m.state == Running then Some(m.(state := TimedOut)) else o
      case _ => o
  }

  function Replay(events: seq<Event>): Option<Summary> {
    if events == [] then None else ReplayStep(Replay(events[..|events| - 1]), events[|events| - 1])
  }

  function SummaryOf(t: Table, id: JobId): Option<Summary> {
    if id in t.rows then Some(Summary(t.rows[id].state, t.rows[id].attempts, t.rows[id].exitCode)) else None
  }

  /** The payload of an event agrees with the record the replay has after it. */
  predicate Truthful(e: Event, after: Option<Summary>) {
    after.Some? ==>
      match e
      case StartedEvent(state) => state == after.value.state
      case ResultEvent(state, exitCode) => state == after.value.state && exitCode == after.value.exitCode
      case DispatchedEvent(attempt) => attempt == after.value.attempts
      case RequeuedEvent(attempt) => attempt == after.value.attempts
      case NoAckEvent(attempts) => attempts == after.value.attempts
      case _ => true
  }

  ghost predicate AllTruthful(events: seq<Event>) {
    forall i :: 0 <= i < |events| ==> Truthful(events[i], Replay(events[..i + 1]))
  }

  ghost predicate AuditInv(s: State) {
    forall id: JobId ::
      Replay(ListForJob(s.events, id)) == SummaryOf(s.table, id) && AllTruthful(ListForJob(s.events, id))
  }

  lemma {:induction false} ListAppend(events: seq<EventRow>, e: EventRow, id: JobId)
    ensures ListForJob(events + [e], id) == ListForJob(events, id) + (if e.jobId == id then [e.event] else [])
  {
    assert (events + [e])[..|events|] == events;
  }

  lemma {:induction false} TruthfulAppend(events: seq<Event>, e: Event)
    requires AllTruthful(events) && Truthful(e, ReplayStep(Replay(events), e))
    ensures Replay(events + [e]) == ReplayStep(Replay(events), e)
    ensures AllTruthful(events + [e])
  {
    var es := events + [e];
    assert es[..|events|] == events;
    forall i | 0 <= i < |es| ensures Truthful(es[i], Replay(es[..i + 1])) {
      if i < |events| {
        assert es[..i + 1] == events[..i + 1];
      } else {
        assert es[..i + 1] == es;
      }
    }
  }

  /** Which event each JobService call is reported by. */
  predicate Reports(t: Table, c: Call, e: Option<EventRow>) {
    match c
    case NoCall => e.None? || e.value.event.AckEvent? || e.value.event.ReconciledEvent?
    case Submit(job) => e == Some(EventRow(OwnerId(t, job), SubmittedEvent))
    case _ =>
      if e.None? then Reply(t, c).None?
      else e.value.jobId == c.id && ReportsEffect(c, e.value.event, Reply(t, c))
  }

  predicate ReportsEffect(c: Call, e: Event, reply: Option<Row>) {
    match c
    case MarkDispatched(_, _, _) => e.DispatchedEvent? && (reply.Some? ==> e.attempt == reply.value.attempts)
    case MarkRunning(_, _) => reply.Some? && e == StartedEvent(reply.value.state)
    case MarkSucceeded(_, _, _, _, _) => reply.Some? && e == ResultEvent(reply.value.state, reply.value.exitCode)
    case MarkFailed(_, _, _, _, _, _) => reply.Some? && e == ResultEvent(reply.value.state, reply.value.exitCode)
    case MarkTimedOut(_, _) => e.TimedOutEvent?
    case MarkCancelled(_, _) => e.CancelledEvent?
    case Requeue(_, _) => e.RequeuedEvent? && (reply.Some? ==> e.attempt == reply.value.attempts)
    case FailStale(_, _, _, _) => e.NoAckEvent? && (reply.Some? ==> e.attempts == reply.value.attempts)
    case _ => false
  }

  lemma SegmentReports(cfg: Config, s: State, l: Label)
    requires Inv(cfg, s) && Enabled(cfg, s, l)
    ensures Reports(s.table, CallOf(cfg, s, l), EventOf(cfg, s, l))
  {
    if l.AckHandle? {
      assert Unhandled(s.table, s.ack.worklist[s.ack.next]);
    }
  }

  /** A call changes a job's summary exactly as replaying the event that reports it would, and the event tells the truth. */
  lemma CallMatchesEvent(t: Table, c: Call, e: Option<EventRow>, id: JobId)
    requires TableOk(t) && FreshCall(t, c) && Reports(t, c, e) && (c.Submit? ==> IsNewRow(c.job))
    ensures var after := SummaryOf(Exec(t, c), id);
            if e.Some? && e.value.jobId == id then
              after == ReplayStep(SummaryOf(t, id), e.value.event) && Truthful(e.value.event, after)
            else after == SummaryOf(t, id)
  {
  }

  /** What messages and submissions leave in the event table, in terms of what is stored afterwards: a submission is
      recorded for the job that it finds or makes; an ack or reconcile message always; a report of a start or a result
      if and only if the job is known, whether or not it takes effect. */
  lemma EventsOfMessages(cfg: Config, s: State, l: Label)
    requires Enabled(cfg, s, l)
    ensures var events, events', rows' := s.events, Apply(cfg, s, l).events, Apply(cfg, s, l).table.rows;
            match l
            case SubmitJob(job) =>
              var taken := job.key.Some? && job.key.value in s.table.keys;
              events' == events + [EventRow(if taken then s.table.keys[job.key.value] else job.jobId, SubmittedEvent)]
            case Note(id, ack) => events' == events + [EventRow(id, if ack then AckEvent else ReconciledEvent)]
            case Started(id, _) =>
              events' == events + if id in rows' then [EventRow(id, StartedEvent(rows'[id].state))] else []
            case Result(_, id, _, _, _, _, _) =>
              events' == events +
                if id in rows' then [EventRow(id, ResultEvent(rows'[id].state, rows'[id].exitCode))] else []
            case _ => true
  {
  }

  /** What the server's own segments leave: one event for each change of a job that they ask for, whether or not it takes
      effect, and none otherwise. */
  lemma EventsOfServer(cfg: Config, s: State, l: Label)
    requires Enabled(cfg, s, l)
    ensures var events, events', rows' := s.events, Apply(cfg, s, l).events, Apply(cfg, s, l).table.rows;
            match l
            case SubmitJob(_) => true
            case Note(_, _) => true
            case Started(_, _) => true
            case Result(_, _, _, _, _, _, _) => true
            case CancelEnd(pid, _, _) => events' == events + [EventRow(s.loop.procs[pid].job.jobId, CancelledEvent)]
            case SendOk(pid, _, _) =>
              var job := s.loop.procs[pid].job;
              var attempts := if job.jobId in rows' then rows'[job.jobId].attempts else job.attempts;
              events' == events + [EventRow(job.jobId, DispatchedEvent(attempts))]
            case AckHandle(_, _) =>
              var job := s.ack.worklist[s.ack.next];
              var e := if job.attempts < cfg.maxAttempts then RequeuedEvent(job.attempts) else NoAckEvent(job.attempts);
              events' == events + [EventRow(job.jobId, e)]
            case TimerMark(_, _) => events' == events + [EventRow(s.timer.worklist[s.timer.next].jobId, TimedOutEvent)]
            case _ => events' == events
  {
  }

  lemma AuditStep(cfg: Config, s: State, l: Label)
    requires Inv(cfg, s) && AuditInv(s) && Enabled(cfg, s, l)
    ensures AuditInv(Apply(cfg, s, l))
  {
    var s' := Apply(cfg, s, l);
    var e := EventOf(cfg, s, l);
    SegmentReports(cfg, s, l);
    CallIsOk(cfg, s, l);
    assert s'.table == Exec(s.table, CallOf(cfg, s, l)) && s'.events == Append(s.events, e);
    EventsMatch(s.table, CallOf(cfg, s, l), s.events, e);
  }

  lemma {:induction false} EventsMatch(t: Table, c: Call, events: seq<EventRow>, e: Option<EventRow>)
    requires TableOk(t) && FreshCall(t, c) && Reports(t, c, e) && (c.Submit? ==> IsNewRow(c.job))
    requires forall id: JobId :: Replay(ListForJob(events, id)) == SummaryOf(t, id) && AllTruthful(ListForJob(events, id))
    ensures forall id: JobId ::
              Replay(ListForJob(Append(events, e), id)) == SummaryOf(Exec(t, c), id)
              && AllTruthful(ListForJob(Append(events, e), id))
  {
    var events' := Append(events, e);
    forall id: JobId
      ensures Replay(ListForJob(events', id)) == SummaryOf(Exec(t, c), id) && AllTruthful(ListForJob(events', id))
    {
      CallMatchesEvent(t, c, e, id);
      if e.Some? {
        ListAppend(events, e.value, id);
        if e.value.jobId == id {
          TruthfulAppend(ListForJob(events, id), e.value.event);
        } else {
          assert ListForJob(events', id) == ListForJob(events, id);
        }
      }
    }
  }

  lemma {:induction false} AuditRun(cfg: Config, s: State, run: seq<Label>)
    requires Inv(cfg, s) && AuditInv(s) && ValidRun(cfg, s, run) && cfg.maxAttempts >= 1
    ensures AuditInv(After(cfg, s, run))
    decreases |run|
  {
    if run != [] {
      AuditStep(cfg, s, run[0]);
      InvKept(cfg, s, run[0]);
      AuditRun(cfg, Apply(cfg, s, run[0]), run[1..]);
    }
  }

  /** In every reachable state the events of every job, known or not, replay to exactly what is stored. */
  lemma {:induction false} ReplayMatchesStore(cfg: Config, run: seq<Label>, id: JobId)
    requires cfg.maxAttempts >= 1 && ValidRun(cfg, INITIAL, run)
    ensures var s := After(cfg, INITIAL, run);
            && Replay(ListForJob(s.events, id)) == SummaryOf(s.table, id)
            && AllTruthful(ListForJob(s.events, id))
  {
    AuditRun(cfg, INITIAL, run);
  }
}
