/**
 Why every record is as it is: what each segment does to a record, written on its fields, and for every record of
 every reachable state the one segment of the run that made it so.
 */
module Causes {
  import opened Jobs
  import opened Store
  import opened Lifecycle
  import opened System
  import opened Watchers
  import opened History

  /** The segment turns the stored record `r` into `r'`. */
  predicate ChangesTo(cfg: Config, s: State, l: Label, r: Row, r': Row) {
    match l
    case SendOk(pid, _, t2) =>
      && pid in s.loop.procs && s.loop.procs[pid].Sending? && s.loop.procs[pid].job.jobId == r.jobId
      && r.state == Pending
      && r' == r.(state := Dispatched, attempts := r.attempts + 1, updatedAt := t2)
    case Started(id, t) =>
      && id == r.jobId && r.state == Dispatched
      && r' == r.(state := Running, startedAt := Some(t), updatedAt := t)
    case Result(_, id, exit, out, err, error, t) =>
      && id == r.jobId && r.state == Running
      && var silent := error == None || error == Some("");
         r' == r.(state := if silent && exit == 0 then Succeeded else Failed, exitCode := Some(exit), stdout := out,
                  stderr := err, error := if silent then None else Some(Reported(error.value)),
                  updatedAt := t, finishedAt := Some(t))
    case CancelEnd(pid, _, t) =>
      && pid in s.loop.procs && s.loop.procs[pid].Cancelling? && s.loop.procs[pid].job.jobId == r.jobId
      && !IsTerminal(r.state)
      && r' == r.(state := Cancelled, updatedAt := t, finishedAt := Some(t))
    case TimerMark(_, t) =>
      && HasDeadline(s.timer) && s.timer.worklist[s.timer.next].jobId == r.jobId && r.state == Running
      && r' == r.(state := TimedOut, updatedAt := t, finishedAt := Some(t))
    case AckHandle(t1, t2) =>
      && HasEntry(s.ack) && s.ack.worklist[s.ack.next].jobId == r.jobId
      && if s.ack.worklist[s.ack.next].attempts < cfg.maxAttempts then
           r.state == Dispatched && r' == r.(state := Pending, updatedAt := t1)
         else
           && !IsTerminal(r.state)
           && r' == r.(state := Failed, exitCode := Some(1), error := Some(NoAck(cfg.maxAttempts)),
                       finishedAt := Some(t1), updatedAt := t2)
    case _ => false
  }

  /** The call that the segment makes does to the record what the segment is said to do. */
  lemma CallChanges(cfg: Config, s: State, l: Label, r: Row)
    requires Enabled(cfg, s, l) && CoherentRow(cfg.maxAttempts, r) && !l.SubmitJob?
    ensures var c := CallOf(cfg, s, l);
            var r' := if !c.NoCall? && c.id == r.jobId then Effect(c, r) else r;
            r' == r || ChangesTo(cfg, s, l, r, r')
  {
  }

  lemma ChangeIsTheCalls(cfg: Config, s: State, l: Label, r: Row, r': Row)
    requires Enabled(cfg, s, l) && CoherentRow(cfg.maxAttempts, r) && ChangesTo(cfg, s, l, r, r')
    ensures var c := CallOf(cfg, s, l);
            !c.NoCall? && !c.Submit? && c.id == r.jobId && r' == Effect(c, r)
  {
  }

  lemma RowAfter(t: Table, c: Call, id: JobId)
    requires id in t.rows && FreshCall(t, c)
    ensures id in Exec(t, c).rows
    ensures Exec(t, c).rows[id] == if !c.NoCall? && !c.Submit? && c.id == id then Effect(c, t.rows[id]) else t.rows[id]
  {
  }

  /** A segment changes a record in this way whenever it can, and in no other way. */
  lemma ChangeIsExact(cfg: Config, s: State, l: Label, id: JobId)
    requires Inv(cfg, s) && Enabled(cfg, s, l) && id in s.table.rows
    ensures id in Apply(cfg, s, l).table.rows
    ensures var r, r' := s.table.rows[id], Apply(cfg, s, l).table.rows[id];
            && (r' != r ==> ChangesTo(cfg, s, l, r, r'))
            && (forall x :: ChangesTo(cfg, s, l, r, x) ==> r' == x)
  {
    var r := s.table.rows[id];
    assert CoherentRow(cfg.maxAttempts, r) && r.jobId == id;
    CallIsOk(cfg, s, l);
    RowAfter(s.table, CallOf(cfg, s, l), id);
    forall x | ChangesTo(cfg, s, l, r, x) ensures Apply(cfg, s, l).table.rows[id] == x {
      ChangeIsTheCalls(cfg, s, l, r, x);
    }
    if !l.SubmitJob? {
      CallChanges(cfg, s, l, r);
    }
  }

  /** A record appears only by its submission, as submitted. */
  lemma OnlySubmittedAppears(cfg: Config, s: State, l: Label, id: JobId)
    requires Enabled(cfg, s, l) && id !in s.table.rows && id in Apply(cfg, s, l).table.rows
    ensures l.SubmitJob? && l.job.jobId == id && Apply(cfg, s, l).table.rows[id] == l.job
  {
  }

  /** An accepted submission stores what was asked for, PENDING and with nothing else set, unless its key has an owner;
      then it changes no record. */
  lemma SubmissionStores(cfg: Config, s: State, job: Row)
    requires Enabled(cfg, s, SubmitJob(job))
    ensures job.agentId.text != "" && job.timeoutMs > 0 && 0 <= job.priority <= 2
    ensures job.state == Pending && job.attempts == 0 && job.startedAt == None && job.finishedAt == None
    ensures job.exitCode == None && job.error == None && job.stdout == "" && job.stderr == ""
    ensures var taken, t' := job.key.Some? && job.key.value in s.table.keys, Apply(cfg, s, SubmitJob(job)).table;
            && (!taken ==> t'.rows == s.table.rows[job.jobId := job])
            && (taken ==> t' == s.table)
  {
  }

  /** The insertion order only ever grows, at its end, and only by a submission that stores a record. */
  lemma OrderGrows(cfg: Config, s: State, l: Label)
    requires Inv(cfg, s) && Enabled(cfg, s, l)
    ensures Apply(cfg, s, l).table.order ==
            if l.SubmitJob? && !(l.job.key.Some? && l.job.key.value in s.table.keys) then s.table.order + [l.job.jobId]
            else s.table.order
  {
    CallIsOk(cfg, s, l);
  }

  /** Segment `i` of the run made the record what it is in state `r`: it stored it, or changed it into that. */
  ghost predicate MadeBy(cfg: Config, run: seq<Label>, i: nat, id: JobId, r: Row)
    requires i < |run|
  {
    var s := After(cfg, INITIAL, run[..i]);
    if id in s.table.rows then ChangesTo(cfg, s, run[i], s.table.rows[id], r)
    else run[i].SubmitJob? && run[i].job.jobId == id && run[i].job == r
  }

  lemma {:induction false} MadeEarlier(cfg: Config, run: seq<Label>, n: nat, i: nat, id: JobId, r: Row)
    requires i < n <= |run| && MadeBy(cfg, run[..n], i, id, r)
    ensures MadeBy(cfg, run, i, id, r)
  {
    assert run[..n][..i] == run[..i];
  }

  /** The last segment of a run either leaves a record alone or makes it what it is. */
  lemma {:induction false} MadeLast(cfg: Config, run: seq<Label>, id: JobId)
    requires cfg.maxAttempts >= 1 && run != [] && ValidRun(cfg, INITIAL, run)
    requires id in After(cfg, INITIAL, run).table.rows
    ensures var n, r := |run| - 1, After(cfg, INITIAL, run).table.rows[id];
            var s := After(cfg, INITIAL, run[..n]);
            MadeBy(cfg, run, n, id, r) || (id in s.table.rows && s.table.rows[id] == r)
  {
    var n := |run| - 1;
    Unsnoc(cfg, INITIAL, run);
    RunKeepsInv(cfg, INITIAL, run[..n]);
    var s := After(cfg, INITIAL, run[..n]);
    if id in s.table.rows {
      ChangeIsExact(cfg, s, run[n], id);
    } else {
      OnlySubmittedAppears(cfg, s, run[n], id);
    }
  }

  /** Every record of every reachable state was made what it is by some segment of the run. */
  lemma {:induction false} EveryRecordHasACause(cfg: Config, run: seq<Label>, id: JobId) returns (i: nat)
    requires cfg.maxAttempts >= 1 && ValidRun(cfg, INITIAL, run) && id in After(cfg, INITIAL, run).table.rows
    ensures i < |run| && MadeBy(cfg, run, i, id, After(cfg, INITIAL, run).table.rows[id])
    decreases |run|
  {
    var r := After(cfg, INITIAL, run).table.rows[id];
    i := |run| - 1;
    Unsnoc(cfg, INITIAL, run);
    MadeLast(cfg, run, id);
    if !MadeBy(cfg, run, i, id, r) {
      i := EveryRecordHasACause(cfg, run[..i], id);
      MadeEarlier(cfg, run, |run| - 1, i, id, r);
    }
  }

  /** The last segment of a run. */
  lemma {:induction false} Unsnoc(cfg: Config, s: State, run: seq<Label>)
    requires run != [] && ValidRun(cfg, s, run)
    ensures var init, l := run[..|run| - 1], run[|run| - 1];
            && ValidRun(cfg, s, init) && Enabled(cfg, After(cfg, s, init), l)
            && After(cfg, s, run) == Apply(cfg, After(cfg, s, init), l)
  {
    var init, l := run[..|run| - 1], run[|run| - 1];
    assert run == init + [l];
    RunSplit(cfg, s, init, [l]);
    RunOfOne(cfg, After(cfg, s, init), l);
  }

  // ---------------------------------------------------------------- what stays from earlier causes

  /** The fields that a submission sets and nothing changes. */
  predicate SameRequest(r: Row, job: Row) {
    && r.jobId == job.jobId && r.agentId == job.agentId && r.request == job.request && r.timeoutMs == job.timeoutMs
    && r.key == job.key && r.priority == job.priority && r.createdAt == job.createdAt
  }

  /** A segment keeps what a record holds of its submission, or is that submission. */
  lemma RequestSet(cfg: Config, s: State, l: Label, id: JobId)
    requires Inv(cfg, s) && Enabled(cfg, s, l) && id in Apply(cfg, s, l).table.rows
    ensures var r' := Apply(cfg, s, l).table.rows[id];
            if id in s.table.rows then SameRequest(r', s.table.rows[id]) else l.SubmitJob? && l.job == r'
  {
    if id in s.table.rows {
      ChangeIsExact(cfg, s, l, id);
    } else {
      OnlySubmittedAppears(cfg, s, l, id);
    }
  }

  /** Every record holds what one accepted submission of the run asked for, and the time of that submission. */
  lemma {:induction false} EveryRequestWasSubmitted(cfg: Config, run: seq<Label>, id: JobId) returns (i: nat)
    requires cfg.maxAttempts >= 1 && ValidRun(cfg, INITIAL, run) && id in After(cfg, INITIAL, run).table.rows
    ensures i < |run| && run[i].SubmitJob? && SameRequest(After(cfg, INITIAL, run).table.rows[id], run[i].job)
    ensures var r := After(cfg, INITIAL, run).table.rows[id];
            r.agentId.text != "" && r.timeoutMs > 0 && 0 <= r.priority <= 2
    decreases |run|
  {
    i := |run| - 1;
    Unsnoc(cfg, INITIAL, run);
    RunKeepsInv(cfg, INITIAL, run[..i]);
    RequestSet(cfg, After(cfg, INITIAL, run[..i]), run[i], id);
    if id in After(cfg, INITIAL, run[..i]).table.rows {
      i := EveryRequestWasSubmitted(cfg, run[..i], id);
    }
  }

  /** A segment keeps a start time, or is the report that sets it. */
  lemma StartSet(cfg: Config, s: State, l: Label, id: JobId, t: int)
    requires Inv(cfg, s) && Enabled(cfg, s, l) && id in Apply(cfg, s, l).table.rows
    requires Apply(cfg, s, l).table.rows[id].startedAt == Some(t)
    ensures l == Started(id, t) || (id in s.table.rows && s.table.rows[id].startedAt == Some(t))
  {
    if id in s.table.rows {
      ChangeIsExact(cfg, s, l, id);
    } else {
      OnlySubmittedAppears(cfg, s, l, id);
    }
  }

  ghost predicate StartedAtEnd(cfg: Config, run: seq<Label>, id: JobId, t: int) {
    var t' := After(cfg, INITIAL, run).table; id in t'.rows && t'.rows[id].startedAt == Some(t)
  }

  lemma {:induction false} StartSetLast(cfg: Config, run: seq<Label>, id: JobId, t: int)
    requires cfg.maxAttempts >= 1 && run != [] && ValidRun(cfg, INITIAL, run) && StartedAtEnd(cfg, run, id, t)
    ensures ValidRun(cfg, INITIAL, run[..|run| - 1])
    ensures run[|run| - 1] == Started(id, t) || StartedAtEnd(cfg, run[..|run| - 1], id, t)
  {
    var init := run[..|run| - 1];
    Unsnoc(cfg, INITIAL, run);
    RunKeepsInv(cfg, INITIAL, init);
    StartSet(cfg, After(cfg, INITIAL, init), run[|run| - 1], id, t);
  }

  lemma {:induction false} StartIsInRun(cfg: Config, run: seq<Label>, id: JobId, t: int)
    requires cfg.maxAttempts >= 1 && ValidRun(cfg, INITIAL, run) && StartedAtEnd(cfg, run, id, t)
    ensures Started(id, t) in run
    decreases |run|
  {
    assert run != [];
    StartSetLast(cfg, run, id, t);
    if run[|run| - 1] != Started(id, t) {
      StartIsInRun(cfg, run[..|run| - 1], id, t);
    }
  }

  /** A start time is that of a report of the start. */
  lemma {:induction false} EveryStartWasReported(cfg: Config, run: seq<Label>, id: JobId)
    requires cfg.maxAttempts >= 1 && ValidRun(cfg, INITIAL, run) && id in After(cfg, INITIAL, run).table.rows
    requires After(cfg, INITIAL, run).table.rows[id].startedAt.Some?
    ensures Started(id, After(cfg, INITIAL, run).table.rows[id].startedAt.value) in run
  {
    StartIsInRun(cfg, run, id, After(cfg, INITIAL, run).table.rows[id].startedAt.value);
  }
}
