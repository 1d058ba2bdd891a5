/**
 The invariants of the job table and of the two scanning watchers, kept by every segment of every coroutine.
 The ack watcher decides on stale copies and suspends between them; what makes that sound is that every copy
 it has not handled yet still has the stored attempt count and is not PENDING again.
 */
module Watchers {
  import opened Jobs
  import opened Ordering
  import opened Store
  import opened Lifecycle
  import opened System

  ghost predicate JobsInv(cfg: Config, t: Table) {
    TableOk(t) && forall id :: id in t.rows ==> CoherentRow(cfg.maxAttempts, t.rows[id])
  }

  predicate Unhandled(t: Table, entry: Row) {
    && entry.jobId in t.rows
    && t.rows[entry.jobId].state != Pending && t.rows[entry.jobId].attempts == entry.attempts
  }

  /** The job has left the dispatch attempt that the copy was taken in. */
  predicate MovedOn(t: Table, entry: Row) {
    && entry.jobId in t.rows
    && t.rows[entry.jobId].attempts >= entry.attempts
    && !(t.rows[entry.jobId].state == Dispatched && t.rows[entry.jobId].attempts == entry.attempts)
  }

  ghost predicate AckInv(t: Table, ack: AckScan) {
    ack.AckScanning? ==>
      && ack.next <= |ack.worklist| && DistinctIds(ack.worklist)
      && (forall k :: ack.next <= k < |ack.worklist| ==> Unhandled(t, ack.worklist[k]))
      && (forall k :: 0 <= k < ack.next ==> MovedOn(t, ack.worklist[k]))
  }

  predicate Finished(t: Table, entry: Row) {
    entry.jobId in t.rows && IsTerminal(t.rows[entry.jobId].state)
  }

  predicate StartedOrFinished(t: Table, entry: Row) {
    entry.jobId in t.rows && (t.rows[entry.jobId].state == Running || IsTerminal(t.rows[entry.jobId].state))
  }

  ghost predicate TimerInv(t: Table, timer: TimerScan) {
    timer.TimerScanning? ==>
      && timer.next <= |timer.worklist|
      && (timer.firing ==> timer.next < |timer.worklist|)
      && (forall k :: timer.next <= k < |timer.worklist| ==> StartedOrFinished(t, timer.worklist[k]))
      && (forall k :: 0 <= k < timer.next ==> Finished(t, timer.worklist[k]))
  }

  ghost predicate Inv(cfg: Config, s: State) {
    JobsInv(cfg, s.table) && AckInv(s.table, s.ack) && TimerInv(s.table, s.timer)
  }

  /** Every segment calls JobService within its means. For the stale failure this is where the invariant pays. */
  lemma CallIsOk(cfg: Config, s: State, l: Label)
    requires Inv(cfg, s) && Enabled(cfg, s, l)
    ensures CallOk(cfg.maxAttempts, s.table, CallOf(cfg, s, l))
  {
    if l.AckHandle? {
      var entry := s.ack.worklist[s.ack.next];
      assert Unhandled(s.table, entry);
    }
  }

  lemma ExecKeepsJobsInv(cfg: Config, t: Table, c: Call)
    requires JobsInv(cfg, t) && CallOk(cfg.maxAttempts, t, c) && cfg.maxAttempts >= 1
    ensures JobsInv(cfg, Exec(t, c))
  {
    ExecKeepsTableOk(t, c);
    if !c.NoCall? && !c.Submit? && c.id in t.rows {
      EffectKeepsCoherence(cfg.maxAttempts, t, c);
    }
  }

  /** A job that is not PENDING keeps its attempt count and stays so, unless it is the one requeued. */
  lemma UnhandledKept(t: Table, c: Call, entry: Row)
    requires Unhandled(t, entry) && FreshCall(t, c)
    requires c.Requeue? || c.FailStale? ==> c.id != entry.jobId
    ensures Unhandled(Exec(t, c), entry)
  {
  }

  lemma MovedOnKept(t: Table, c: Call, entry: Row)
    requires MovedOn(t, entry) && FreshCall(t, c)
    ensures MovedOn(Exec(t, c), entry)
  {
  }

  lemma HandledMovesOn(cfg: Config, t: Table, entry: Row, t1: int, t2: int)
    requires Unhandled(t, entry)
    ensures MovedOn(Exec(t, AckCall(cfg, entry, t1, t2)), entry)
  {
  }

  /** How one segment moves the ack watcher. */
  ghost predicate AckMoves(cfg: Config, s: State, l: Label, c: Call, t': Table, ack': AckScan) {
    || ack'.AckIdle?
    || (ack' == s.ack && !c.Requeue? && !c.FailStale?)
    || (l.AckBegin? && t' == s.table && ack' == AckScanning(l.worklist, 0, None)
        && Snapshot(cfg, AckWatch(l.now), s.table, l.worklist))
    || (l.AckHandle? && HasEntry(s.ack) && c == AckCall(cfg, s.ack.worklist[s.ack.next], l.t1, l.t2)
        && ack'.AckScanning? && ack'.worklist == s.ack.worklist && ack'.next == s.ack.next + 1)
  }

  lemma AckControl(cfg: Config, s: State, l: Label)
    requires Enabled(cfg, s, l)
    ensures AckMoves(cfg, s, l, CallOf(cfg, s, l), Apply(cfg, s, l).table, Apply(cfg, s, l).ack)
  {
  }

  lemma ScanKept(t: Table, c: Call, ack: AckScan)
    requires AckInv(t, ack) && FreshCall(t, c) && !c.Requeue? && !c.FailStale?
    ensures AckInv(Exec(t, c), ack)
  {
    if ack.AckScanning? {
      forall k | ack.next <= k < |ack.worklist| ensures Unhandled(Exec(t, c), ack.worklist[k]) {
        UnhandledKept(t, c, ack.worklist[k]);
      }
      forall k | 0 <= k < ack.next ensures MovedOn(Exec(t, c), ack.worklist[k]) {
        MovedOnKept(t, c, ack.worklist[k]);
      }
    }
  }

  lemma ScanAdvances(cfg: Config, t: Table, ack: AckScan, t1: int, t2: int, awaiting: Option<nat>)
    requires AckInv(t, ack) && HasEntry(ack)
    ensures AckInv(Exec(t, AckCall(cfg, ack.worklist[ack.next], t1, t2)), AckScanning(ack.worklist, ack.next + 1, awaiting))
  {
    var c := AckCall(cfg, ack.worklist[ack.next], t1, t2);
    forall k | ack.next < k < |ack.worklist| ensures Unhandled(Exec(t, c), ack.worklist[k]) {
      UnhandledKept(t, c, ack.worklist[k]);
    }
    forall k | 0 <= k <= ack.next ensures MovedOn(Exec(t, c), ack.worklist[k]) {
      if k < ack.next {
        MovedOnKept(t, c, ack.worklist[k]);
      } else {
        HandledMovesOn(cfg, t, ack.worklist[k], t1, t2);
      }
    }
  }

  lemma AckInvKept(cfg: Config, s: State, l: Label, c: Call, t': Table, ack': AckScan)
    requires AckInv(s.table, s.ack) && AckMoves(cfg, s, l, c, t', ack') && t' == Exec(s.table, c) && FreshCall(s.table, c)
    ensures AckInv(t', ack')
  {
    if ack' == s.ack && !c.Requeue? && !c.FailStale? {
      ScanKept(s.table, c, s.ack);
    } else if l.AckHandle? && ack'.AckScanning? {
      ScanAdvances(cfg, s.table, s.ack, l.t1, l.t2, ack'.awaiting);
    }
  }

  lemma TimerEntryKept(t: Table, c: Call, entry: Row)
    requires StartedOrFinished(t, entry) && FreshCall(t, c)
    ensures StartedOrFinished(Exec(t, c), entry)
    ensures Finished(t, entry) || (c.MarkTimedOut? && c.id == entry.jobId) ==> Finished(Exec(t, c), entry)
  {
  }

  /** How one segment moves the timeout watcher. */
  ghost predicate TimerMoves(cfg: Config, s: State, l: Label, c: Call, t': Table, timer': TimerScan) {
    || timer'.TimerIdle?
    || timer' == s.timer
    || (l.TimerBegin? && t' == s.table && timer' == TimerScanning(l.worklist, 0, false, None)
        && Snapshot(cfg, TimerWatch(l.now), s.table, l.worklist))
    || (l.TimerFire? && HasDeadline(s.timer) && timer' == s.timer.(firing := true, conn := timer'.conn))
    || (l.TimerMark? && HasDeadline(s.timer) && c == MarkTimedOut(s.timer.worklist[s.timer.next].jobId, l.t)
        && timer' == TimerScanning(s.timer.worklist, s.timer.next + 1, false, None))
  }

  lemma TimerControl(cfg: Config, s: State, l: Label)
    requires Enabled(cfg, s, l)
    ensures TimerMoves(cfg, s, l, CallOf(cfg, s, l), Apply(cfg, s, l).table, Apply(cfg, s, l).timer)
  {
  }

  lemma TimerInvKept(cfg: Config, s: State, l: Label, c: Call, t': Table, timer': TimerScan)
    requires TimerInv(s.table, s.timer) && TimerMoves(cfg, s, l, c, t', timer') && t' == Exec(s.table, c)
    requires FreshCall(s.table, c)
    ensures TimerInv(t', timer')
  {
    if timer'.TimerScanning? && s.timer.TimerScanning? && !l.TimerBegin? {
      TimerEntriesKept(s.table, c, s.timer, timer'.next);
    }
  }

  /** The entries of a scan, handled or not, when the scan stays or moves on by one. */
  lemma TimerEntriesKept(t: Table, c: Call, timer: TimerScan, next: nat)
    requires timer.TimerScanning? && TimerInv(t, timer) && FreshCall(t, c)
    requires next == timer.next ||
             (HasDeadline(timer) && c.MarkTimedOut? && c.id == timer.worklist[timer.next].jobId && next == timer.next + 1)
    ensures forall k :: next <= k < |timer.worklist| ==> StartedOrFinished(Exec(t, c), timer.worklist[k])
    ensures forall k :: 0 <= k < next ==> Finished(Exec(t, c), timer.worklist[k])
  {
    forall k | 0 <= k < |timer.worklist|
      ensures StartedOrFinished(Exec(t, c), timer.worklist[k])
      ensures k < next ==> Finished(Exec(t, c), timer.worklist[k])
    {
      TimerEntryKept(t, c, timer.worklist[k]);
    }
  }

  lemma InvKept(cfg: Config, s: State, l: Label)
    requires Inv(cfg, s) && Enabled(cfg, s, l) && cfg.maxAttempts >= 1
    ensures Inv(cfg, Apply(cfg, s, l))
  {
    var c := CallOf(cfg, s, l);
    CallIsOk(cfg, s, l);
    ExecKeepsJobsInv(cfg, s.table, c);
    AckControl(cfg, s, l);
    TimerControl(cfg, s, l);
    var s' := Apply(cfg, s, l);
    assert s'.table == Exec(s.table, c);
    AckInvKept(cfg, s, l, c, s'.table, s'.ack);
    TimerInvKept(cfg, s, l, c, s'.table, s'.timer);
  }
}
