/** Theorems over whole runs: any interleaving of segments, of any length. */
module History {
  import opened Jobs
  import opened Store
  import opened Lifecycle
  import opened System
  import opened Watchers

  lemma {:induction false} RunSplit(cfg: Config, s: State, r1: seq<Label>, r2: seq<Label>)
    ensures ValidRun(cfg, s, r1 + r2) <==> ValidRun(cfg, s, r1) && ValidRun(cfg, After(cfg, s, r1), r2)
    ensures After(cfg, s, r1 + r2) == After(cfg, After(cfg, s, r1), r2)
    decreases |r1|
  {
    if r1 == [] {
      assert r1 + r2 == r2;
    } else {
      assert (r1 + r2)[1..] == r1[1..] + r2;
      RunSplit(cfg, Apply(cfg, s, r1[0]), r1[1..], r2);
    }
  }

  lemma {:induction false} RunOfOne(cfg: Config, s: State, l: Label)
    ensures ValidRun(cfg, s, [l]) <==> Enabled(cfg, s, l)
    ensures After(cfg, s, [l]) == Apply(cfg, s, l)
  {
    assert [l][1..] == [];
  }

  lemma {:induction false} RunKeepsInv(cfg: Config, s: State, run: seq<Label>)
    requires Inv(cfg, s) && ValidRun(cfg, s, run) && cfg.maxAttempts >= 1
    ensures Inv(cfg, After(cfg, s, run))
    decreases |run|
  {
    if run != [] {
      InvKept(cfg, s, run[0]);
      RunKeepsInv(cfg, Apply(cfg, s, run[0]), run[1..]);
    }
  }

  /** Every record of every reachable state is coherent; in particular no job is ever dispatched more than
      the allowed number of times, and a PENDING job always has an attempt left. */
  lemma {:induction false} ReachableJobsCoherent(cfg: Config, run: seq<Label>, id: JobId)
    requires cfg.maxAttempts >= 1 && ValidRun(cfg, INITIAL, run)
    requires id in After(cfg, INITIAL, run).table.rows
    ensures var r := After(cfg, INITIAL, run).table.rows[id];
            && CoherentRow(cfg.maxAttempts, r)
            && r.attempts <= cfg.maxAttempts && (r.state == Pending ==> r.attempts < cfg.maxAttempts)
            && (r.finishedAt.Some? <==>
                  r.state == Succeeded || r.state == Failed || r.state == TimedOut || r.state == Cancelled)
            && (r.startedAt.Some? ==> r.attempts >= 1 && r.state != Pending && r.state != Dispatched)
            && (r.state == Succeeded ==> r.startedAt.Some? && r.exitCode == Some(0) && r.error == None)
            && (r.state == Failed && r.startedAt == None ==>
                  r.attempts == cfg.maxAttempts && r.error == Some(NoAck(r.attempts)))
  {
    RunKeepsInv(cfg, INITIAL, run);
  }

  lemma {:induction false} TerminalFrozen(cfg: Config, s: State, run: seq<Label>, id: JobId)
    requires Inv(cfg, s) && ValidRun(cfg, s, run) && cfg.maxAttempts >= 1
    requires id in s.table.rows && IsTerminal(s.table.rows[id].state)
    ensures id in After(cfg, s, run).table.rows && After(cfg, s, run).table.rows[id] == s.table.rows[id]
    decreases |run|
  {
    if run != [] {
      CallIsOk(cfg, s, run[0]);
      TerminalRowFrozen(s.table, CallOf(cfg, s, run[0]), id);
      InvKept(cfg, s, run[0]);
      TerminalFrozen(cfg, Apply(cfg, s, run[0]), run[1..], id);
    }
  }

  /** started_at is write-once: no segment changes one that is set. */
  lemma StartKept(cfg: Config, s: State, l: Label, id: JobId)
    requires Inv(cfg, s) && Enabled(cfg, s, l) && id in s.table.rows && s.table.rows[id].startedAt.Some?
    ensures id in Apply(cfg, s, l).table.rows
    ensures Apply(cfg, s, l).table.rows[id].startedAt == s.table.rows[id].startedAt
  {
    CallIsOk(cfg, s, l);
    CallKeepsStart(s.table, CallOf(cfg, s, l), id);
  }

  /** Nor does any run. */
  lemma {:induction false} StartWrittenOnce(cfg: Config, s: State, run: seq<Label>, id: JobId)
    requires Inv(cfg, s) && ValidRun(cfg, s, run) && cfg.maxAttempts >= 1
    requires id in s.table.rows && s.table.rows[id].startedAt.Some?
    ensures id in After(cfg, s, run).table.rows
    ensures After(cfg, s, run).table.rows[id].startedAt == s.table.rows[id].startedAt
    decreases |run|
  {
    if run != [] {
      StartKept(cfg, s, run[0], id);
      InvKept(cfg, s, run[0]);
      StartWrittenOnce(cfg, Apply(cfg, s, run[0]), run[1..], id);
    }
  }

  /** One segment moves a job only along the code's edges; PENDING to FAILED is not one of them. */
  lemma StepMovesAlongEdges(cfg: Config, s: State, l: Label, id: JobId)
    requires Inv(cfg, s) && Enabled(cfg, s, l) && id in s.table.rows
    ensures id in Apply(cfg, s, l).table.rows
    ensures var r, r' := s.table.rows[id], Apply(cfg, s, l).table.rows[id];
            && r.attempts <= r'.attempts
            && (r'.state == r.state ==> r'.attempts == r.attempts && Rank(cfg.maxAttempts, r') == Rank(cfg.maxAttempts, r))
            && (r'.state != r.state ==> 0 <= Rank(cfg.maxAttempts, r') < Rank(cfg.maxAttempts, r))
            && (r'.state != r.state ==>
                  match r.state
                  case Pending => r'.state == Dispatched || r'.state == Cancelled
                  case Dispatched =>
                    r'.state == Pending || r'.state == Running || r'.state == Cancelled || r'.state == Failed
                  case Running =>
                    r'.state == Succeeded || r'.state == Failed || r'.state == TimedOut || r'.state == Cancelled
                  case _ => false)
  {
    CallIsOk(cfg, s, l);
    CallDropsRank(cfg.maxAttempts, s.table, CallOf(cfg, s, l), id);
  }

  /** How often the run changes the state of a job. */
  function Changes(cfg: Config, s: State, run: seq<Label>, id: JobId): nat
    decreases |run|
  {
    if run == [] then 0
    else
      var s' := Apply(cfg, s, run[0]);
      (if id in s.table.rows && id in s'.table.rows && s.table.rows[id].state != s'.table.rows[id].state then 1 else 0)
      + Changes(cfg, s', run[1..], id)
  }

  /** The rank a job has left, or will have when it is submitted. */
  function Budget(cfg: Config, t: Table, id: JobId): int {
    if id in t.rows then Rank(cfg.maxAttempts, t.rows[id]) else 2 * cfg.maxAttempts + 1
  }

  lemma {:induction false} ChangesBounded(cfg: Config, s: State, run: seq<Label>, id: JobId)
    requires Inv(cfg, s) && ValidRun(cfg, s, run) && cfg.maxAttempts >= 1
    ensures Changes(cfg, s, run, id) + Budget(cfg, After(cfg, s, run).table, id) <= Budget(cfg, s.table, id)
    decreases |run|
  {
    if run != [] {
      var s' := Apply(cfg, s, run[0]);
      InvKept(cfg, s, run[0]);
      BudgetStep(cfg, s, run[0], id);
      ChangesBounded(cfg, s', run[1..], id);
    }
  }

  lemma BudgetStep(cfg: Config, s: State, l: Label, id: JobId)
    requires Inv(cfg, s) && Enabled(cfg, s, l)
    ensures var s' := Apply(cfg, s, l);
            Budget(cfg, s'.table, id) +
            (if id in s.table.rows && id in s'.table.rows && s.table.rows[id].state != s'.table.rows[id].state then 1 else 0)
            <= Budget(cfg, s.table, id)
  {
    if id in s.table.rows {
      StepMovesAlongEdges(cfg, s, l, id);
    } else {
      CallIsOk(cfg, s, l);
    }
  }

  /** No job ever changes state more than 2*max+1 times, in any run. */
  lemma {:induction false} AtMostTwoMaxPlusOneChanges(cfg: Config, run: seq<Label>, id: JobId)
    requires ValidRun(cfg, INITIAL, run) && cfg.maxAttempts >= 1
    ensures Changes(cfg, INITIAL, run, id) <= 2 * cfg.maxAttempts + 1
  {
    ChangesBounded(cfg, INITIAL, run, id);
    RunKeepsInv(cfg, INITIAL, run);
    BudgetLeft(cfg, After(cfg, INITIAL, run).table, id);
  }

  lemma BudgetLeft(cfg: Config, t: Table, id: JobId)
    requires JobsInv(cfg, t)
    ensures Budget(cfg, t, id) >= 0
  {
    assert id in t.rows ==> CoherentRow(cfg.maxAttempts, t.rows[id]);
  }

  // ---------------------------------------------------------------- idempotency keys

  lemma KeyKept(t: Table, c: Call, k: Key)
    requires TableOk(t) && FreshCall(t, c) && k in t.keys
    ensures k in Exec(t, c).keys && Exec(t, c).keys[k] == t.keys[k]
  {
  }

  lemma {:induction false} KeyOwnerForever(cfg: Config, s: State, run: seq<Label>, k: Key)
    requires Inv(cfg, s) && ValidRun(cfg, s, run) && cfg.maxAttempts >= 1 && k in s.table.keys
    ensures k in After(cfg, s, run).table.keys && After(cfg, s, run).table.keys[k] == s.table.keys[k]
    decreases |run|
  {
    if run != [] {
      CallIsOk(cfg, s, run[0]);
      KeyKept(s.table, CallOf(cfg, s, run[0]), k);
      InvKept(cfg, s, run[0]);
      KeyOwnerForever(cfg, Apply(cfg, s, run[0]), run[1..], k);
    }
  }

  /** Submit a keyed job, let anything happen, submit again with the same key: the first job's record comes
      back, no stored job changes, and it is still the only job with that key. */
  lemma {:induction false} ResubmitReturnsFirstJob(cfg: Config, s: State, first: Row, run: seq<Label>, again: Row)
    requires Inv(cfg, s) && cfg.maxAttempts >= 1
    requires Enabled(cfg, s, SubmitJob(first)) && first.key.Some? && again.key == first.key
    requires ValidRun(cfg, Apply(cfg, s, SubmitJob(first)), run)
    ensures var owner := OwnerId(s.table, first);
            var later := After(cfg, Apply(cfg, s, SubmitJob(first)), run);
            && owner in later.table.rows
            && Apply(cfg, later, SubmitJob(again)).table == later.table
            && Reply(later.table, Submit(again)) == Some(later.table.rows[owner])
            && later.table.rows[owner].jobId == owner
            && forall id :: id in later.table.rows && later.table.rows[id].key == first.key ==> id == owner
  {
    var s1 := Apply(cfg, s, SubmitJob(first));
    InvKept(cfg, s, SubmitJob(first));
    assert first.key.value in s1.table.keys && s1.table.keys[first.key.value] == OwnerId(s.table, first);
    KeyOwnerForever(cfg, s1, run, first.key.value);
    RunKeepsInv(cfg, s1, run);
  }

  // ---------------------------------------------------------------- the two scans

  /** The labels that end or abandon an ack scan. */
  predicate LeavesAckScan(l: Label) {
    l.AckEnd? || l.Restart?
  }

  lemma {:induction false} AckWorklistKept(cfg: Config, s: State, run: seq<Label>)
    requires ValidRun(cfg, s, run) && s.ack.AckScanning? && forall i :: 0 <= i < |run| ==> !LeavesAckScan(run[i])
    ensures After(cfg, s, run).ack.AckScanning? && After(cfg, s, run).ack.worklist == s.ack.worklist
    decreases |run|
  {
    if run != [] {
      AckControl(cfg, s, run[0]);
      assert Apply(cfg, s, run[0]).ack.AckScanning?;
      AckWorklistKept(cfg, Apply(cfg, s, run[0]), run[1..]);
    }
  }

  /** When an ack scan ends, whatever ran in between, no job that was overdue in its snapshot is still
      DISPATCHED with the attempt number it had then. */
  lemma {:induction false} AckScanComplete(cfg: Config, s: State, now: int, worklist: seq<Row>, run: seq<Label>,
                                           id: JobId)
    requires Inv(cfg, s) && cfg.maxAttempts >= 1 && Enabled(cfg, s, AckBegin(now, worklist))
    requires ValidRun(cfg, Apply(cfg, s, AckBegin(now, worklist)), run)
    requires forall i :: 0 <= i < |run| ==> !LeavesAckScan(run[i])
    requires Enabled(cfg, After(cfg, Apply(cfg, s, AckBegin(now, worklist)), run), AckEnd)
    requires id in s.table.rows && Due(cfg, AckWatch(now), s.table.rows[id])
    ensures var end := After(cfg, Apply(cfg, s, AckBegin(now, worklist)), run);
            id in end.table.rows
            && !(end.table.rows[id].state == Dispatched && end.table.rows[id].attempts == s.table.rows[id].attempts)
  {
    var s1 := Apply(cfg, s, AckBegin(now, worklist));
    InvKept(cfg, s, AckBegin(now, worklist));
    AckWorklistKept(cfg, s1, run);
    RunKeepsInv(cfg, s1, run);
    var end := After(cfg, s1, run);
    EndedAckScan(end.table, end.ack, id);
  }

  lemma EndedAckScan(t: Table, ack: AckScan, id: JobId)
    requires AckInv(t, ack) && ack.AckScanning? && !HasEntry(ack) && Lists(ack.worklist, id)
    ensures exists k :: 0 <= k < |ack.worklist| && ack.worklist[k].jobId == id && MovedOn(t, ack.worklist[k])
  {
    var k :| 0 <= k < |ack.worklist| && ack.worklist[k].jobId == id;
    assert MovedOn(t, ack.worklist[k]);
  }

  /** What a stale failure does is settled by the stored state, not by the copy: it fails whatever is not
      terminal, always after exactly the allowed attempts, and it stays on the documented edge from DISPATCHED
      if and only if the job is not RUNNING by then. */
  lemma StaleFailureExact(cfg: Config, s: State, t1: int, t2: int)
    requires Inv(cfg, s) && Enabled(cfg, s, AckHandle(t1, t2))
    requires s.ack.worklist[s.ack.next].attempts >= cfg.maxAttempts
    ensures var id := s.ack.worklist[s.ack.next].jobId;
            && id in s.table.rows && id in Apply(cfg, s, AckHandle(t1, t2)).table.rows
            && var r, r' := s.table.rows[id], Apply(cfg, s, AckHandle(t1, t2)).table.rows[id];
               && r.state != Pending && r'.attempts == r.attempts == cfg.maxAttempts
               && (IsTerminal(r.state) ==> r' == r)
               && (!IsTerminal(r.state) ==> r'.state == Failed && r'.error == Some(NoAck(r.attempts)))
               && ((r'.state == r.state || r.state == Dispatched) <==> r.state != Running)
  {
    var entry := s.ack.worklist[s.ack.next];
    assert Unhandled(s.table, entry);
    assert CoherentRow(cfg.maxAttempts, s.table.rows[entry.jobId]);
    StaleFailureOn(s.table, Apply(cfg, s, AckHandle(t1, t2)).table, entry, t1, t2);
  }

  lemma StaleFailureOn(t: Table, t': Table, entry: Row, t1: int, t2: int)
    requires Unhandled(t, entry) && t' == Exec(t, FailStale(entry.jobId, NoAck(entry.attempts), t1, t2))
    ensures entry.jobId in t'.rows
    ensures var r, r' := t.rows[entry.jobId], t'.rows[entry.jobId];
            && r'.attempts == r.attempts && (IsTerminal(r.state) ==> r' == r)
            && (!IsTerminal(r.state) ==> r'.state == Failed && r'.error == Some(NoAck(r.attempts)))
  {
  }

  predicate LeavesTimerScan(l: Label) {
    l.TimerEnd? || l.Restart?
  }

  lemma {:induction false} TimerWorklistKept(cfg: Config, s: State, run: seq<Label>)
    requires ValidRun(cfg, s, run) && s.timer.TimerScanning? && forall i :: 0 <= i < |run| ==> !LeavesTimerScan(run[i])
    ensures After(cfg, s, run).timer.TimerScanning? && After(cfg, s, run).timer.worklist == s.timer.worklist
    decreases |run|
  {
    if run != [] {
      TimerControl(cfg, s, run[0]);
      assert Apply(cfg, s, run[0]).timer.TimerScanning?;
      TimerWorklistKept(cfg, Apply(cfg, s, run[0]), run[1..]);
    }
  }

  /** When a timeout scan ends, every RUNNING job whose time was up when it began is terminal. The skip of
      records without a start time hides none: every RUNNING job has one, and it is the one it had when it began. */
  lemma {:induction false} TimerScanComplete(cfg: Config, s: State, now: int, worklist: seq<Row>, run: seq<Label>,
                                             id: JobId)
    requires Inv(cfg, s) && cfg.maxAttempts >= 1 && Enabled(cfg, s, TimerBegin(now, worklist))
    requires ValidRun(cfg, Apply(cfg, s, TimerBegin(now, worklist)), run)
    requires forall i :: 0 <= i < |run| ==> !LeavesTimerScan(run[i])
    requires Enabled(cfg, After(cfg, Apply(cfg, s, TimerBegin(now, worklist)), run), TimerEnd)
    requires id in s.table.rows && s.table.rows[id].state == Running
    ensures var r, end := s.table.rows[id], After(cfg, Apply(cfg, s, TimerBegin(now, worklist)), run);
            && id in end.table.rows && r.startedAt.Some? && end.table.rows[id].startedAt == r.startedAt
            && (now - r.startedAt.value > r.timeoutMs ==> IsTerminal(end.table.rows[id].state))
  {
    assert CoherentRow(cfg.maxAttempts, s.table.rows[id]);
    var s1 := Apply(cfg, s, TimerBegin(now, worklist));
    assert s1.table == s.table && s1.timer == TimerScanning(worklist, 0, false, None);
    InvKept(cfg, s, TimerBegin(now, worklist));
    StartWrittenOnce(cfg, s1, run, id);
    ExpiredAreFinished(cfg, s1, run);
    if now - s.table.rows[id].startedAt.value > s.table.rows[id].timeoutMs {
      assert Lists(worklist, id);
    }
  }

  /** A scan that has come to its end has finished every job of the worklist it began with. */
  lemma {:induction false} ExpiredAreFinished(cfg: Config, s: State, run: seq<Label>)
    requires Inv(cfg, s) && cfg.maxAttempts >= 1 && ValidRun(cfg, s, run) && s.timer.TimerScanning?
    requires forall i :: 0 <= i < |run| ==> !LeavesTimerScan(run[i])
    requires Enabled(cfg, After(cfg, s, run), TimerEnd)
    ensures var t := After(cfg, s, run).table;
            forall id :: Lists(s.timer.worklist, id) ==> id in t.rows && IsTerminal(t.rows[id].state)
  {
    TimerWorklistKept(cfg, s, run);
    RunKeepsInv(cfg, s, run);
    var end := After(cfg, s, run);
    forall id | Lists(s.timer.worklist, id) ensures id in end.table.rows && IsTerminal(end.table.rows[id].state) {
      EndedTimerScan(end.table, end.timer, id);
    }
  }

  lemma EndedTimerScan(t: Table, timer: TimerScan, id: JobId)
    requires TimerInv(t, timer) && timer.TimerScanning? && !HasDeadline(timer) && Lists(timer.worklist, id)
    ensures id in t.rows && IsTerminal(t.rows[id].state)
  {
    var k :| 0 <= k < |timer.worklist| && timer.worklist[k].jobId == id;
    assert Finished(t, timer.worklist[k]);
  }

  // ---------------------------------------------------------------- time order

  ghost predicate TimesInv(s: State) {
    forall id :: id in s.table.rows ==> OrderedTimes(s.clock, s.table.rows[id])
  }

  lemma LabelTimesOrdered(cfg: Config, s: State, l: Label)
    requires Inv(cfg, s) && Enabled(cfg, s, l) && Ticking(s.clock, [l])
    ensures CallTimes(s.clock, CallOf(cfg, s, l), Apply(cfg, s, l).clock)
  {
    var times := Times(l);
    if |times| == 1 {
      assert s.clock <= times[0];
    } else if |times| == 2 {
      assert s.clock <= times[0] && times[0] <= times[1];
    }
  }

  lemma ExecKeepsTimes(cfg: Config, t: Table, c: Call, from: int, to: int, id: JobId)
    requires JobsInv(cfg, t) && CallOk(cfg.maxAttempts, t, c) && CallTimes(from, c, to)
    requires id in t.rows ==> OrderedTimes(from, t.rows[id])
    requires id in Exec(t, c).rows
    ensures OrderedTimes(to, Exec(t, c).rows[id])
  {
    if !c.NoCall? && !c.Submit? && c.id == id {
      EffectKeepsOrder(cfg.maxAttempts, c, t.rows[id], from, to);
    }
  }

  lemma TimesStep(cfg: Config, s: State, l: Label)
    requires Inv(cfg, s) && TimesInv(s) && Enabled(cfg, s, l) && Ticking(s.clock, [l])
    ensures TimesInv(Apply(cfg, s, l))
  {
    LabelTimesOrdered(cfg, s, l);
    CallIsOk(cfg, s, l);
    var s' := Apply(cfg, s, l);
    forall id | id in s'.table.rows ensures OrderedTimes(s'.clock, s'.table.rows[id]) {
      ExecKeepsTimes(cfg, s.table, CallOf(cfg, s, l), s.clock, s'.clock, id);
    }
  }

  lemma {:induction false} TickingHead(clock: int, run: seq<Label>)
    requires run != [] && Ticking(clock, run)
    ensures Ticking(clock, [run[0]])
  {
    assert [run[0]][1..] == [];
  }

  lemma {:induction false} ClockForward(clock: int, l: Label)
    requires Ticking(clock, [l])
    ensures clock <= ClockNext(clock, l) && forall i :: 0 <= i < |Times(l)| ==> clock <= Times(l)[i]
  {
  }

  lemma {:induction false} TimesOrdered(cfg: Config, s: State, run: seq<Label>)
    requires Inv(cfg, s) && TimesInv(s) && ValidRun(cfg, s, run) && Ticking(s.clock, run) && cfg.maxAttempts >= 1
    ensures TimesInv(After(cfg, s, run))
    decreases |run|
  {
    if run != [] {
      TickingHead(s.clock, run);
      TimesStep(cfg, s, run[0]);
      InvKept(cfg, s, run[0]);
      TimesOrdered(cfg, Apply(cfg, s, run[0]), run[1..]);
    }
  }

  /** With a clock that never goes back, created <= started <= finished <= updated in every reachable state. */
  lemma {:induction false} ReachableTimesOrdered(cfg: Config, run: seq<Label>, id: JobId)
    requires cfg.maxAttempts >= 1 && ValidRun(cfg, INITIAL, run) && Ticking(INITIAL.clock, run)
    requires id in After(cfg, INITIAL, run).table.rows
    ensures var s := After(cfg, INITIAL, run);
            var r := s.table.rows[id];
            && r.createdAt <= r.updatedAt <= s.clock
            && (r.startedAt.Some? ==> r.createdAt <= r.startedAt.value <= r.updatedAt)
            && (r.finishedAt.Some? ==> r.createdAt <= r.finishedAt.value <= r.updatedAt)
            && (r.startedAt.Some? && r.finishedAt.Some? ==> r.startedAt.value <= r.finishedAt.value)
  {
    TimesOrdered(cfg, INITIAL, run);
  }
}
