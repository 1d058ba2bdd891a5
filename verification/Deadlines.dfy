/**
 That the two scanning watchers leave alone what is within its time. A watcher acts only on entries of its worklist,
 and whatever ran since the listing, what it requeues, gives up or marks as timed out had been overdue then; on a
 clock that does not go back it still is.
 */
module Deadlines {
  import opened Jobs
  import opened Store
  import opened Lifecycle
  import opened System
  import opened Watchers
  import opened History
  import opened Causes

  // ---------------------------------------------------------------- the copies that are still to be handled

  /** The copy is of a dispatch that has gone unacknowledged for too long, and is the one stored, if one is. */
  predicate OverdueCopy(cfg: Config, t: Table, entry: Row, clock: int) {
    && clock - entry.updatedAt > cfg.ackTimeout && entry.jobId in t.rows
    && (t.rows[entry.jobId].state == Dispatched ==> t.rows[entry.jobId].updatedAt == entry.updatedAt)
  }

  /** The copy is of a start whose time is up, and is the stored one. */
  predicate ExpiredCopy(t: Table, entry: Row, clock: int) {
    && entry.startedAt.Some? && clock - entry.startedAt.value > entry.timeoutMs && entry.jobId in t.rows
    && t.rows[entry.jobId].startedAt == entry.startedAt && t.rows[entry.jobId].timeoutMs == entry.timeoutMs
  }

  ghost predicate AckAge(cfg: Config, t: Table, ack: AckScan, clock: int) {
    ack.AckScanning? ==> forall k :: ack.next <= k < |ack.worklist| ==> OverdueCopy(cfg, t, ack.worklist[k], clock)
  }

  ghost predicate TimerAge(t: Table, timer: TimerScan, clock: int) {
    timer.TimerScanning? ==> forall k :: timer.next <= k < |timer.worklist| ==> ExpiredCopy(t, timer.worklist[k], clock)
  }

  /** The record was not marked as timed out before its time was up. */
  predicate TimedOutLate(r: Row) {
    r.state == TimedOut ==>
      r.startedAt.Some? && r.finishedAt.Some? && r.finishedAt.value - r.startedAt.value > r.timeoutMs
  }

  ghost predicate AgeInv(cfg: Config, s: State) {
    && AckAge(cfg, s.table, s.ack, s.clock) && TimerAge(s.table, s.timer, s.clock)
    && forall id :: id in s.table.rows ==> TimedOutLate(s.table.rows[id])
  }

  lemma OverdueKept(cfg: Config, s: State, l: Label, entry: Row)
    requires Inv(cfg, s) && Enabled(cfg, s, l) && s.clock <= ClockNext(s.clock, l)
    requires Unhandled(s.table, entry) && OverdueCopy(cfg, s.table, entry, s.clock)
    ensures var s' := Apply(cfg, s, l); OverdueCopy(cfg, s'.table, entry, s'.clock)
  {
    ChangeIsExact(cfg, s, l, entry.jobId);
  }

  lemma ExpiredKept(cfg: Config, s: State, l: Label, entry: Row)
    requires Inv(cfg, s) && Enabled(cfg, s, l) && s.clock <= ClockNext(s.clock, l)
    requires ExpiredCopy(s.table, entry, s.clock)
    ensures var s' := Apply(cfg, s, l); ExpiredCopy(s'.table, entry, s'.clock)
  {
    StartKept(cfg, s, l, entry.jobId);
    RequestSet(cfg, s, l, entry.jobId);
  }

  lemma AckAgeKept(cfg: Config, s: State, l: Label)
    requires Inv(cfg, s) && AckAge(cfg, s.table, s.ack, s.clock) && Enabled(cfg, s, l)
    requires s.clock <= ClockNext(s.clock, l)
    ensures var s' := Apply(cfg, s, l); AckAge(cfg, s'.table, s'.ack, s'.clock)
  {
    var s' := Apply(cfg, s, l);
    AckControl(cfg, s, l);
    if s'.ack.AckScanning? && !l.AckBegin? {
      forall k | s'.ack.next <= k < |s'.ack.worklist| ensures OverdueCopy(cfg, s'.table, s'.ack.worklist[k], s'.clock) {
        OverdueKept(cfg, s, l, s.ack.worklist[k]);
      }
    }
  }

  lemma TimerAgeKept(cfg: Config, s: State, l: Label)
    requires Inv(cfg, s) && TimerAge(s.table, s.timer, s.clock) && Enabled(cfg, s, l)
    requires s.clock <= ClockNext(s.clock, l)
    ensures var s' := Apply(cfg, s, l); TimerAge(s'.table, s'.timer, s'.clock)
  {
    var s' := Apply(cfg, s, l);
    TimerControl(cfg, s, l);
    if s'.timer.TimerScanning? && !l.TimerBegin? {
      forall k | s'.timer.next <= k < |s'.timer.worklist| ensures ExpiredCopy(s'.table, s'.timer.worklist[k], s'.clock) {
        ExpiredKept(cfg, s, l, s.timer.worklist[k]);
      }
    }
  }

  lemma TimedOutLateKept(cfg: Config, s: State, l: Label, id: JobId)
    requires Inv(cfg, s) && AgeInv(cfg, s) && Enabled(cfg, s, l) && Ticking(s.clock, [l])
    requires id in Apply(cfg, s, l).table.rows
    ensures TimedOutLate(Apply(cfg, s, l).table.rows[id])
  {
    ClockForward(s.clock, l);
    if id in s.table.rows {
      ChangeIsExact(cfg, s, l, id);
      if l.TimerMark? {
        assert Times(l)[0] == l.t;
        assert ExpiredCopy(s.table, s.timer.worklist[s.timer.next], s.clock);
      }
    } else {
      OnlySubmittedAppears(cfg, s, l, id);
    }
  }

  lemma AgeKept(cfg: Config, s: State, l: Label)
    requires Inv(cfg, s) && AgeInv(cfg, s) && Enabled(cfg, s, l) && Ticking(s.clock, [l])
    ensures AgeInv(cfg, Apply(cfg, s, l))
  {
    ClockForward(s.clock, l);
    AckAgeKept(cfg, s, l);
    TimerAgeKept(cfg, s, l);
    forall id | id in Apply(cfg, s, l).table.rows ensures TimedOutLate(Apply(cfg, s, l).table.rows[id]) {
      TimedOutLateKept(cfg, s, l, id);
    }
  }

  lemma {:induction false} RunKeepsAge(cfg: Config, s: State, run: seq<Label>)
    requires Inv(cfg, s) && AgeInv(cfg, s) && ValidRun(cfg, s, run) && Ticking(s.clock, run) && cfg.maxAttempts >= 1
    ensures AgeInv(cfg, After(cfg, s, run))
    decreases |run|
  {
    if run != [] {
      TickingHead(s.clock, run);
      AgeKept(cfg, s, run[0]);
      InvKept(cfg, s, run[0]);
      RunKeepsAge(cfg, Apply(cfg, s, run[0]), run[1..]);
    }
  }

  /** No job is marked as timed out before its time is up, whatever the timeout watcher slept through. */
  lemma {:induction false} NoneTimedOutEarly(cfg: Config, run: seq<Label>, id: JobId)
    requires cfg.maxAttempts >= 1 && ValidRun(cfg, INITIAL, run) && Ticking(INITIAL.clock, run)
    requires id in After(cfg, INITIAL, run).table.rows && After(cfg, INITIAL, run).table.rows[id].state == TimedOut
    ensures var r := After(cfg, INITIAL, run).table.rows[id];
            r.startedAt.Some? && r.finishedAt.Some? && r.finishedAt.value - r.startedAt.value > r.timeoutMs
  {
    RunKeepsAge(cfg, INITIAL, run);
    assert TimedOutLate(After(cfg, INITIAL, run).table.rows[id]);
  }

  /** No dispatch is taken back, and none is given up, before it has gone unacknowledged for longer than the timeout. */
  lemma {:induction false} NoneTakenBackEarly(cfg: Config, run: seq<Label>, l: Label, id: JobId)
    requires cfg.maxAttempts >= 1 && ValidRun(cfg, INITIAL, run) && Ticking(INITIAL.clock, run)
    requires Enabled(cfg, After(cfg, INITIAL, run), l) && Ticking(After(cfg, INITIAL, run).clock, [l])
    requires id in After(cfg, INITIAL, run).table.rows
    ensures var s := After(cfg, INITIAL, run);
            id in Apply(cfg, s, l).table.rows
            && var r, r' := s.table.rows[id], Apply(cfg, s, l).table.rows[id];
               r.state == Dispatched && (r'.state == Pending || r'.state == Failed) ==>
                 r'.updatedAt - r.updatedAt > cfg.ackTimeout
  {
    var s := After(cfg, INITIAL, run);
    RunKeepsInv(cfg, INITIAL, run);
    RunKeepsAge(cfg, INITIAL, run);
    TakenBackLate(cfg, s, l, id);
  }

  lemma TakenBackLate(cfg: Config, s: State, l: Label, id: JobId)
    requires Inv(cfg, s) && AgeInv(cfg, s) && Enabled(cfg, s, l) && Ticking(s.clock, [l]) && id in s.table.rows
    ensures id in Apply(cfg, s, l).table.rows
    ensures var r, r' := s.table.rows[id], Apply(cfg, s, l).table.rows[id];
            r.state == Dispatched && (r'.state == Pending || r'.state == Failed) ==>
              r'.updatedAt - r.updatedAt > cfg.ackTimeout
  {
    ChangeIsExact(cfg, s, l, id);
    ClockForward(s.clock, l);
    if l.AckHandle? {
      assert Times(l)[0] == l.t1 && Times(l)[1] == l.t2;
      assert OverdueCopy(cfg, s.table, s.ack.worklist[s.ack.next], s.clock);
    }
  }

  // ---------------------------------------------------------------- back to the listing

  /** Segment `i` began the ack scan that is under way at the end of the run, and nothing has ended it since. */
  ghost predicate BeganAckScan(cfg: Config, run: seq<Label>, i: nat) {
    && i < |run| && run[i].AckBegin?
    && After(cfg, INITIAL, run).ack.AckScanning? && After(cfg, INITIAL, run).ack.worklist == run[i].worklist
    && forall j :: i < j < |run| ==> !run[j].AckBegin? && !LeavesAckScan(run[j])
  }

  lemma AckScanStays(cfg: Config, s: State, l: Label)
    requires Enabled(cfg, s, l) && Apply(cfg, s, l).ack.AckScanning? && !l.AckBegin?
    ensures s.ack.AckScanning? && Apply(cfg, s, l).ack.worklist == s.ack.worklist && !LeavesAckScan(l)
  {
    AckControl(cfg, s, l);
  }

  lemma {:induction false} StillAckScan(cfg: Config, run: seq<Label>, n: nat, i: nat)
    requires |run| == n + 1 && BeganAckScan(cfg, run[..n], i) && !run[n].AckBegin? && !LeavesAckScan(run[n])
    requires After(cfg, INITIAL, run).ack.AckScanning?
    requires After(cfg, INITIAL, run).ack.worklist == After(cfg, INITIAL, run[..n]).ack.worklist
    ensures BeganAckScan(cfg, run, i)
  {
    forall j | i < j < |run| ensures !run[j].AckBegin? && !LeavesAckScan(run[j]) {
      assert j < n ==> run[..n][j] == run[j];
    }
  }

  lemma {:induction false} AckScanBegan(cfg: Config, run: seq<Label>) returns (i: nat)
    requires ValidRun(cfg, INITIAL, run) && After(cfg, INITIAL, run).ack.AckScanning?
    ensures BeganAckScan(cfg, run, i)
    decreases |run|
  {
    var n := |run| - 1;
    Unsnoc(cfg, INITIAL, run);
    if run[n].AckBegin? {
      i := n;
    } else {
      AckScanStays(cfg, After(cfg, INITIAL, run[..n]), run[n]);
      i := AckScanBegan(cfg, run[..n]);
      StillAckScan(cfg, run, n, i);
    }
  }

  ghost predicate BeganTimerScan(cfg: Config, run: seq<Label>, i: nat) {
    && i < |run| && run[i].TimerBegin?
    && After(cfg, INITIAL, run).timer.TimerScanning? && After(cfg, INITIAL, run).timer.worklist == run[i].worklist
    && forall j :: i < j < |run| ==> !run[j].TimerBegin? && !LeavesTimerScan(run[j])
  }

  lemma TimerScanStays(cfg: Config, s: State, l: Label)
    requires Enabled(cfg, s, l) && Apply(cfg, s, l).timer.TimerScanning? && !l.TimerBegin?
    ensures s.timer.TimerScanning? && Apply(cfg, s, l).timer.worklist == s.timer.worklist && !LeavesTimerScan(l)
  {
    TimerControl(cfg, s, l);
  }

  lemma {:induction false} StillTimerScan(cfg: Config, run: seq<Label>, n: nat, i: nat)
    requires |run| == n + 1 && BeganTimerScan(cfg, run[..n], i) && !run[n].TimerBegin? && !LeavesTimerScan(run[n])
    requires After(cfg, INITIAL, run).timer.TimerScanning?
    requires After(cfg, INITIAL, run).timer.worklist == After(cfg, INITIAL, run[..n]).timer.worklist
    ensures BeganTimerScan(cfg, run, i)
  {
    forall j | i < j < |run| ensures !run[j].TimerBegin? && !LeavesTimerScan(run[j]) {
      assert j < n ==> run[..n][j] == run[j];
    }
  }

  lemma {:induction false} TimerScanBegan(cfg: Config, run: seq<Label>) returns (i: nat)
    requires ValidRun(cfg, INITIAL, run) && After(cfg, INITIAL, run).timer.TimerScanning?
    ensures BeganTimerScan(cfg, run, i)
    decreases |run|
  {
    var n := |run| - 1;
    Unsnoc(cfg, INITIAL, run);
    if run[n].TimerBegin? {
      i := n;
    } else {
      TimerScanStays(cfg, After(cfg, INITIAL, run[..n]), run[n]);
      i := TimerScanBegan(cfg, run[..n]);
      StillTimerScan(cfg, run, n, i);
    }
  }

  /** A label of a run was enabled where it stands. */
  lemma {:induction false} EnabledAt(cfg: Config, run: seq<Label>, i: nat)
    requires ValidRun(cfg, INITIAL, run) && i < |run|
    ensures Enabled(cfg, After(cfg, INITIAL, run[..i]), run[i])
  {
    assert run == run[..i] + run[i..];
    RunSplit(cfg, INITIAL, run[..i], run[i..]);
  }

  /** Whatever a segment requeues or gives up as unacknowledged had been overdue when the scan under way began. */
  lemma {:induction false} OnlyOverdueTakenBack(cfg: Config, run: seq<Label>, l: Label, id: JobId) returns (i: nat)
    requires cfg.maxAttempts >= 1 && ValidRun(cfg, INITIAL, run) && Enabled(cfg, After(cfg, INITIAL, run), l)
    requires var s := After(cfg, INITIAL, run);
             && id in s.table.rows && id in Apply(cfg, s, l).table.rows
             && var r, r' := s.table.rows[id], Apply(cfg, s, l).table.rows[id];
                r' != r && (r'.state == Pending || (r'.error.Some? && r'.error.value.NoAck?))
    ensures BeganAckScan(cfg, run, i)
    ensures var t := After(cfg, INITIAL, run[..i]).table;
            id in t.rows && t.rows[id].state == Dispatched && run[i].now - t.rows[id].updatedAt > cfg.ackTimeout
  {
    var s := After(cfg, INITIAL, run);
    RunKeepsInv(cfg, INITIAL, run);
    TakesBackEntry(cfg, s, l, id);
    i := AckScanBegan(cfg, run);
    WasOverdue(cfg, run, i, s.ack.next);
  }

  lemma {:induction false} WasOverdue(cfg: Config, run: seq<Label>, i: nat, k: nat)
    requires ValidRun(cfg, INITIAL, run) && i < |run| && run[i].AckBegin? && k < |run[i].worklist|
    ensures var t, id := After(cfg, INITIAL, run[..i]).table, run[i].worklist[k].jobId;
            id in t.rows && t.rows[id].state == Dispatched && run[i].now - t.rows[id].updatedAt > cfg.ackTimeout
  {
    EnabledAt(cfg, run, i);
  }

  lemma TakesBackEntry(cfg: Config, s: State, l: Label, id: JobId)
    requires Inv(cfg, s) && Enabled(cfg, s, l) && id in s.table.rows && id in Apply(cfg, s, l).table.rows
    requires var r, r' := s.table.rows[id], Apply(cfg, s, l).table.rows[id];
             r' != r && (r'.state == Pending || (r'.error.Some? && r'.error.value.NoAck?))
    ensures HasEntry(s.ack) && s.ack.worklist[s.ack.next].jobId == id
  {
    ChangeIsExact(cfg, s, l, id);
    assert CoherentRow(cfg.maxAttempts, s.table.rows[id]);
  }

  lemma TimesOutEntry(cfg: Config, s: State, l: Label, id: JobId)
    requires Inv(cfg, s) && Enabled(cfg, s, l) && id in s.table.rows && id in Apply(cfg, s, l).table.rows
    requires Apply(cfg, s, l).table.rows[id] != s.table.rows[id] && Apply(cfg, s, l).table.rows[id].state == TimedOut
    ensures HasDeadline(s.timer) && s.timer.worklist[s.timer.next].jobId == id
  {
    ChangeIsExact(cfg, s, l, id);
  }

  /** Whatever a segment marks as timed out had been RUNNING past its time when the scan under way began. */
  lemma {:induction false} OnlyExpiredTimedOut(cfg: Config, run: seq<Label>, l: Label, id: JobId) returns (i: nat)
    requires cfg.maxAttempts >= 1 && ValidRun(cfg, INITIAL, run) && Enabled(cfg, After(cfg, INITIAL, run), l)
    requires var s := After(cfg, INITIAL, run);
             && id in s.table.rows && id in Apply(cfg, s, l).table.rows
             && var r, r' := s.table.rows[id], Apply(cfg, s, l).table.rows[id]; r' != r && r'.state == TimedOut
    ensures BeganTimerScan(cfg, run, i)
    ensures var t := After(cfg, INITIAL, run[..i]).table;
            && id in t.rows && t.rows[id].state == Running && t.rows[id].startedAt.Some?
            && run[i].now - t.rows[id].startedAt.value > t.rows[id].timeoutMs
  {
    var s := After(cfg, INITIAL, run);
    RunKeepsInv(cfg, INITIAL, run);
    TimesOutEntry(cfg, s, l, id);
    i := TimerScanBegan(cfg, run);
    WasExpired(cfg, run, i, s.timer.next);
  }

  lemma {:induction false} WasExpired(cfg: Config, run: seq<Label>, i: nat, k: nat)
    requires ValidRun(cfg, INITIAL, run) && i < |run| && run[i].TimerBegin? && k < |run[i].worklist|
    ensures var t, id := After(cfg, INITIAL, run[..i]).table, run[i].worklist[k].jobId;
            && id in t.rows && t.rows[id].state == Running && t.rows[id].startedAt.Some?
            && run[i].now - t.rows[id].startedAt.value > t.rows[id].timeoutMs
  {
    EnabledAt(cfg, run, i);
  }
}
