/**
 When the ack watcher fails a RUNNING job. It decides on copies of rows; a copy is out of date only if the watcher
 has waited since it was taken, and it waits only for the dispatch of a job that it has requeued. So with a limit
 of one attempt it never fails a RUNNING job, with any greater limit it can, and while it waits it still can if and
 only if the job is not finished.
 */
module StaleCopies {
  import opened Jobs
  import opened Ordering
  import opened Store
  import opened Lifecycle
  import opened System
  import opened Scheduling
  import opened Watchers

  /** The watcher is about to fail a job on the strength of a copy, and the job is RUNNING. The job then becomes FAILED,
      as History.StaleFailureExact says. */
  predicate MeetsRunning(cfg: Config, s: State) {
    && AckReady(s) && HasEntry(s.ack)
    && var entry := s.ack.worklist[s.ack.next];
       && entry.attempts >= cfg.maxAttempts
       && entry.jobId in s.table.rows && s.table.rows[entry.jobId].state == Running
  }

  // ---------------------------------------------------------------- a copy is current until the watcher waits

  /** The watcher waits: for the dispatch of the entry it handled last, which it has requeued. */
  predicate ScanWaits(cfg: Config, s: State, turn: Option<nat>) {
    && s.ack.AckScanning? && s.ack.awaiting.Some? && s.ack.awaiting.value in s.loop.procs && turn == None
    && !s.loop.procs[s.ack.awaiting.value].Cancelling?
    && 1 <= s.ack.next <= |s.ack.worklist| && s.ack.worklist[s.ack.next - 1].attempts < cfg.maxAttempts
  }

  /** A scan waits for nothing but a dispatch of the entry before. */
  predicate WaitsForRequeued(cfg: Config, k: Loop, ack: AckScan) {
    ack.AckScanning? && ack.awaiting.Some? ==>
      && 1 <= ack.next <= |ack.worklist| && ack.worklist[ack.next - 1].attempts < cfg.maxAttempts
      && (ack.awaiting.value in k.procs ==> !k.procs[ack.awaiting.value].Cancelling?)
  }

  /** The entries still to be handled are what the store has, and the dispatch that goes on is the watcher's. */
  ghost predicate Current(cfg: Config, s: State, turn: Option<nat>) {
    && s.ack.AckScanning? && DistinctIds(s.ack.worklist) && !CancelReady(s.loop) && WaitsForRequeued(cfg, s.loop, s.ack)
    && (turn.Some? ==> s.ack.awaiting == turn)
    && forall k :: s.ack.next <= k < |s.ack.worklist| ==>
         var entry := s.ack.worklist[k];
         entry.state == Dispatched && entry.jobId in s.table.rows && s.table.rows[entry.jobId] == entry
  }

  lemma ScanIsCurrent(cfg: Config, s: State, turn: Option<nat>, now: int, worklist: seq<Row>)
    requires Enabled(cfg, s, AckBegin(now, worklist)) && MayRun(s, turn, AckBegin(now, worklist))
    ensures Current(cfg, Apply(cfg, s, AckBegin(now, worklist)), None)
  {
    var s' := Apply(cfg, s, AckBegin(now, worklist));
    assert s'.table == s.table && s'.loop == s.loop && s'.ack == AckScanning(worklist, 0, None);
  }

  predicate EndsScan(l: Label) {
    l.AckEnd? || l.Restart?
  }

  lemma HandledAlone(cfg: Config, t: Table, entry: Row, t1: int, t2: int, other: JobId)
    requires other in t.rows && other != entry.jobId
    ensures var t' := Exec(t, AckCall(cfg, entry, t1, t2)); other in t'.rows && t'.rows[other] == t.rows[other]
  {
  }

  lemma HandlesCurrent(cfg: Config, s: State, t1: int, t2: int)
    requires Current(cfg, s, None) && Enabled(cfg, s, AckHandle(t1, t2))
    ensures Current(cfg, Apply(cfg, s, AckHandle(t1, t2)), Turn(cfg, s, AckHandle(t1, t2)))
  {
    var s' := Apply(cfg, s, AckHandle(t1, t2));
    var worklist := s.ack.worklist;
    forall k | s'.ack.next <= k < |worklist|
      ensures worklist[k].jobId in s'.table.rows && s'.table.rows[worklist[k].jobId] == worklist[k]
    {
      HandledAlone(cfg, s.table, worklist[s.ack.next], t1, t2, worklist[k].jobId);
    }
  }

  lemma StaysCurrent(cfg: Config, s: State, turn: Option<nat>, l: Label)
    requires Current(cfg, s, turn) && (turn.Some? || AckReady(s))
    requires Enabled(cfg, s, l) && MayRun(s, turn, l) && !EndsScan(l)
    ensures Current(cfg, Apply(cfg, s, l), Turn(cfg, s, l))
  {
    if turn.None? {
      HandlesCurrent(cfg, s, l.t1, l.t2);
    }
  }

  /** The watcher has waited on the way. */
  ghost predicate WaitedIn(cfg: Config, s: State, turn: Option<nat>, run: seq<Label>) {
    exists i :: 0 <= i < |run| && ScanWaits(cfg, After(cfg, s, run[..i]), TurnAfter(cfg, s, turn, run[..i]))
  }

  lemma {:induction false} WaitedLater(cfg: Config, s: State, turn: Option<nat>, run: seq<Label>)
    requires run != [] && WaitedIn(cfg, Apply(cfg, s, run[0]), Turn(cfg, s, run[0]), run[1..])
    ensures WaitedIn(cfg, s, turn, run)
  {
    var s1, turn1, rest := Apply(cfg, s, run[0]), Turn(cfg, s, run[0]), run[1..];
    var i :| 0 <= i < |rest| && ScanWaits(cfg, After(cfg, s1, rest[..i]), TurnAfter(cfg, s1, turn1, rest[..i]));
    assert run[..i + 1][1..] == rest[..i];
    assert ScanWaits(cfg, After(cfg, s, run[..i + 1]), TurnAfter(cfg, s, turn, run[..i + 1]));
  }

  lemma {:induction false} WaitsNow(cfg: Config, s: State, turn: Option<nat>, run: seq<Label>)
    requires run != [] && ScanWaits(cfg, s, turn)
    ensures WaitedIn(cfg, s, turn, run)
  {
    assert run[..0] == [];
    assert ScanWaits(cfg, After(cfg, s, run[..0]), TurnAfter(cfg, s, turn, run[..0]));
  }

  /** At the end of the run every copy still to be handled is current, or the watcher has waited on the way. */
  ghost predicate CurrentUnlessWaited(cfg: Config, s: State, turn: Option<nat>, run: seq<Label>) {
    Current(cfg, After(cfg, s, run), TurnAfter(cfg, s, turn, run)) || WaitedIn(cfg, s, turn, run)
  }

  lemma {:induction false} UnlessWaitedLater(cfg: Config, s: State, turn: Option<nat>, run: seq<Label>)
    requires run != [] && CurrentUnlessWaited(cfg, Apply(cfg, s, run[0]), Turn(cfg, s, run[0]), run[1..])
    ensures CurrentUnlessWaited(cfg, s, turn, run)
  {
    if WaitedIn(cfg, Apply(cfg, s, run[0]), Turn(cfg, s, run[0]), run[1..]) {
      WaitedLater(cfg, s, turn, run);
    }
  }

  /** However long the run since the scan began: as long as the watcher has not waited, every copy that it has not
      handled is current. */
  lemma {:induction false} CurrentOrWaited(cfg: Config, s: State, turn: Option<nat>, run: seq<Label>)
    requires Current(cfg, s, turn) && LoopRun(cfg, s, turn, run)
    requires forall i :: 0 <= i < |run| ==> !EndsScan(run[i])
    ensures CurrentUnlessWaited(cfg, s, turn, run)
    decreases |run|
  {
    if run != [] {
      if turn.None? && !AckReady(s) {
        WaitsNow(cfg, s, turn, run);
      } else {
        assert forall i :: 0 <= i < |run[1..]| ==> run[1..][i] == run[i + 1];
        StaysCurrent(cfg, s, turn, run[0]);
        CurrentOrWaited(cfg, Apply(cfg, s, run[0]), Turn(cfg, s, run[0]), run[1..]);
        UnlessWaitedLater(cfg, s, turn, run);
      }
    }
  }

  /** The watcher meets a RUNNING job only if it has waited in this scan before, for the dispatch of an earlier entry
      that it had requeued. */
  lemma {:induction false} RunningMeansWaited(cfg: Config, s: State, turn: Option<nat>, now: int, worklist: seq<Row>,
                                              run: seq<Label>)
    requires Enabled(cfg, s, AckBegin(now, worklist)) && MayRun(s, turn, AckBegin(now, worklist))
    requires LoopRun(cfg, Apply(cfg, s, AckBegin(now, worklist)), None, run)
    requires forall i :: 0 <= i < |run| ==> !EndsScan(run[i])
    requires MeetsRunning(cfg, After(cfg, Apply(cfg, s, AckBegin(now, worklist)), run))
    ensures WaitedIn(cfg, Apply(cfg, s, AckBegin(now, worklist)), None, run)
  {
    ScanIsCurrent(cfg, s, turn, now, worklist);
    CurrentOrWaited(cfg, Apply(cfg, s, AckBegin(now, worklist)), None, run);
  }

  // ---------------------------------------------------------------- a limit of one attempt

  /** A scan under way gives up on every entry, without waiting. */
  ghost predicate GivesUpAtOnce(cfg: Config, s: State, turn: Option<nat>) {
    s.ack.AckScanning? ==>
      && turn == None && s.ack.awaiting == None && Current(cfg, s, None)
      && forall k :: s.ack.next <= k < |s.ack.worklist| ==> s.ack.worklist[k].attempts >= 1
  }

  lemma FirstAttemptIsLast(cfg: Config, s: State, turn: Option<nat>, l: Label)
    requires Inv(cfg, s) && cfg.maxAttempts == 1 && GivesUpAtOnce(cfg, s, turn)
    requires Enabled(cfg, s, l) && MayRun(s, turn, l)
    ensures GivesUpAtOnce(cfg, Apply(cfg, s, l), Turn(cfg, s, l))
  {
    if l.AckBegin? {
      ScanIsCurrent(cfg, s, turn, l.now, l.worklist);
      forall k | 0 <= k < |l.worklist| ensures l.worklist[k].attempts >= 1 {
        assert CoherentRow(cfg.maxAttempts, s.table.rows[l.worklist[k].jobId]);
      }
    } else if l.AckHandle? {
      HandlesCurrent(cfg, s, l.t1, l.t2);
    }
  }

  /** With a limit of one attempt the watcher meets no RUNNING job in any run. */
  lemma {:induction false} LimitOneMeetsNone(cfg: Config, s: State, turn: Option<nat>, run: seq<Label>)
    requires Inv(cfg, s) && cfg.maxAttempts == 1 && GivesUpAtOnce(cfg, s, turn) && LoopRun(cfg, s, turn, run)
    ensures !MeetsRunning(cfg, After(cfg, s, run))
    decreases |run|
  {
    if run != [] {
      FirstAttemptIsLast(cfg, s, turn, run[0]);
      InvKept(cfg, s, run[0]);
      LimitOneMeetsNone(cfg, Apply(cfg, s, run[0]), Turn(cfg, s, run[0]), run[1..]);
    }
  }
}
