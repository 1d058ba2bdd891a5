/**
 A whole segment of the server: what begins it, and everything that goes on without waiting. A dispatch takes a free
 lock nobody queues on and picks; the ack watcher handles its entries until one has to wait; the timeout watcher
 fires for agents that are not connected; a cancel for such an agent is done at once.
 */
module Segments {
  import opened Jobs
  import opened System
  import opened Scheduling
  import opened Gateways
  import opened ControlPlane

  /** One label after the other, each while something still goes on. */
  ghost predicate OnTheWay(cfg: Config, s: State, turn: Option<nat>, run: seq<Label>, s': State, turn': Option<nat>)
    decreases |run|
  {
    if run == [] then s' == s && turn' == turn
    else
      && (turn.Some? || !Rests(s)) && Enabled(cfg, s, run[0]) && MayRun(s, turn, run[0])
      && OnTheWay(cfg, Apply(cfg, s, run[0]), Turn(cfg, s, run[0]), run[1..], s', turn')
  }

  /** From a point where nothing goes on to the next one. */
  ghost predicate Segment(cfg: Config, s: State, run: seq<Label>, s': State) {
    && run != [] && Rests(s) && Enabled(cfg, s, run[0]) && MayRun(s, None, run[0])
    && OnTheWay(cfg, Apply(cfg, s, run[0]), Turn(cfg, s, run[0]), run[1..], s', None) && Rests(s')
  }

  lemma {:induction false} SegmentOf(cfg: Config, s: State, l: Label, run: seq<Label>, s': State)
    requires Rests(s) && Rests(s') && Enabled(cfg, s, l) && MayRun(s, None, l)
    requires OnTheWay(cfg, Apply(cfg, s, l), Turn(cfg, s, l), run, s', None)
    ensures Segment(cfg, s, [l] + run, s')
  {
    var whole := [l] + run;
    assert whole[0] == l && whole[1..] == run;
  }

  lemma {:induction false} OnTheWayIsLoopRun(cfg: Config, s: State, turn: Option<nat>, run: seq<Label>, s': State,
                                             turn': Option<nat>)
    requires OnTheWay(cfg, s, turn, run, s', turn')
    ensures LoopRun(cfg, s, turn, run) && After(cfg, s, run) == s' && TurnAfter(cfg, s, turn, run) == turn'
    decreases |run|
  {
    if run != [] {
      OnTheWayIsLoopRun(cfg, Apply(cfg, s, run[0]), Turn(cfg, s, run[0]), run[1..], s', turn');
    }
  }

  lemma {:induction false} SegmentIsLoopRun(cfg: Config, s: State, run: seq<Label>, s': State)
    requires Segment(cfg, s, run, s')
    ensures LoopRun(cfg, s, None, run) && After(cfg, s, run) == s' && TurnAfter(cfg, s, None, run) == None
  {
    OnTheWayIsLoopRun(cfg, Apply(cfg, s, run[0]), Turn(cfg, s, run[0]), run[1..], s', None);
  }

  lemma {:induction false} OneFurther(cfg: Config, s: State, turn: Option<nat>, run: seq<Label>, s1: State,
                                      turn1: Option<nat>, l: Label)
    requires OnTheWay(cfg, s, turn, run, s1, turn1) && (turn1.Some? || !Rests(s1))
    requires Enabled(cfg, s1, l) && MayRun(s1, turn1, l)
    ensures OnTheWay(cfg, s, turn, run + [l], Apply(cfg, s1, l), Turn(cfg, s1, l))
    decreases |run|
  {
    if run == [] {
      assert [l][1..] == [];
    } else {
      OneFurther(cfg, Apply(cfg, s, run[0]), Turn(cfg, s, run[0]), run[1..], s1, turn1, l);
      assert (run + [l])[1..] == run[1..] + [l];
    }
  }

  // ---------------------------------------------------------------- what goes on

  /** The clock readings that a segment takes, one after the other. */
  function Reading(clock: seq<int>, i: nat): int {
    if i < |clock| then clock[i] else 0
  }

  method GetsLockAtOnce(gateway: Gateway, pid: nat) returns (free: bool)
    requires gateway.Valid()
    ensures free <==> Uncontended(gateway.loop, pid)
  {
    var procs := gateway.procs;
    free := pid in procs && procs[pid].Waiting? && procs[pid].lock !in gateway.held
            && forall q | q in procs :: procs[q].Waiting? && procs[q].lock == procs[pid].lock ==> q == pid;
  }

  method IsFirstInLine(gateway: Gateway, pid: nat) returns (first: bool)
    requires gateway.Valid()
    ensures first <==> FirstInLine(gateway.loop, pid)
  {
    var procs := gateway.procs;
    first := pid in procs && procs[pid].Waiting?
             && forall q | q in procs :: procs[q].Waiting? && procs[q].lock == procs[pid].lock ==> pid <= q;
  }

  /** A cancel that has nothing to wait for. */
  method CancelAtOnce(gateway: Gateway) returns (pid: Option<nat>)
    requires gateway.Valid()
    ensures pid.Some? ==> CancelsAtOnce(gateway.loop, pid.value)
    ensures pid.None? ==> !CancelReady(gateway.loop)
  {
    var procs := gateway.procs;
    if exists p | p in procs :: procs[p].Cancelling? && procs[p].cancelConn.None? {
      var p :| p in procs && procs[p].Cancelling? && procs[p].cancelConn.None?;
      pid := Some(p);
    } else {
      pid := None;
    }
  }

  function AckLeft(ack: AckScan): nat {
    if ack.AckScanning? then (if ack.next < |ack.worklist| then |ack.worklist| - ack.next else 0) + 1 else 0
  }

  function TimerLeft(timer: TimerScan): nat {
    if timer.TimerScanning? then
      (if timer.next < |timer.worklist| then 2 * (|timer.worklist| - timer.next) else 0) + (if timer.firing then 1 else 2)
    else 0
  }

  /** One move of what goes on; it cannot go on forever. */
  ghost predicate Moved(cfg: Config, s: State, turn: Option<nat>, l: Label, s': State, turn': Option<nat>) {
    && (turn.Some? || !Rests(s)) && Step(cfg, s, l, s') && MayRun(s, turn, l) && turn' == Turn(cfg, s, l)
    && (turn'.Some? ==> Uncontended(s'.loop, turn'.value))
    && (|| AckLeft(s'.ack) < AckLeft(s.ack)
        || (s'.ack == s.ack && TimerLeft(s'.timer) < TimerLeft(s.timer))
        || (s'.ack == s.ack && s'.timer == s.timer && |s'.loop.procs| < |s.loop.procs|)
        || (s'.ack == s.ack && s'.timer == s.timer && |s'.loop.procs| == |s.loop.procs| && turn.Some? && turn'.None?))
  }

  /** The dispatch that has its lock picks, or leaves. */
  method NextPick(server: Server, pid: nat) returns (ghost l: Label)
    requires server.Valid() && Uncontended(server.gateway.loop, pid)
    modifies server.Repr()
    ensures server.Valid() && server.Repr() == old(server.Repr())
    ensures Moved(server.cfg, old(server.Abs()), Some(pid), l, server.Abs(), None)
  {
    ghost var s := server.Abs();
    var pick := server.AcquireAndPick(pid);
    l := Acquire(pid, pick);
    PickMoves(server.cfg, s, pid, pick);
  }

  lemma PickMoves(cfg: Config, s: State, pid: nat, pick: Option<JobId>)
    requires Enabled(cfg, s, Acquire(pid, pick))
    ensures Moved(cfg, s, Some(pid), Acquire(pid, pick), Apply(cfg, s, Acquire(pid, pick)), None)
  {
    var procs, s' := s.loop.procs, Apply(cfg, s, Acquire(pid, pick));
    assert |procs - {pid}| == |procs| - 1 by {
      assert procs.Keys == (procs - {pid}).Keys + {pid};
    }
    assert pick.Some? ==> s'.loop.procs.Keys == procs.Keys;
  }

  /** The cancel for an agent that is not connected marks its job. */
  method NextCancel(server: Server, pid: nat, t: int) returns (ghost l: Label)
    requires server.Valid() && CancelsAtOnce(server.gateway.loop, pid)
    modifies server.Repr()
    ensures server.Valid() && server.Repr() == old(server.Repr())
    ensures Moved(server.cfg, old(server.Abs()), None, l, server.Abs(), None)
  {
    ghost var s := server.Abs();
    var _ := server.CancelEnd(pid, false, t);
    l := CancelEnd(pid, false, t);
    CancelMoves(server.cfg, s, pid, t);
  }

  lemma CancelMoves(cfg: Config, s: State, pid: nat, t: int)
    requires CancelsAtOnce(s.loop, pid)
    ensures Moved(cfg, s, None, CancelEnd(pid, false, t), Apply(cfg, s, CancelEnd(pid, false, t)), None)
  {
    var procs := s.loop.procs;
    assert |procs - {pid}| == |procs| - 1 by {
      assert procs.Keys == (procs - {pid}).Keys + {pid};
    }
  }

  /** The ack watcher handles its next entry, or ends its scan. */
  method NextEntry(server: Server, t1: int, t2: int) returns (ghost l: Label, turn: Option<nat>)
    requires server.Valid() && AckReady(server.Abs()) && !CancelReady(server.gateway.loop)
    modifies server.Repr()
    ensures server.Valid() && server.Repr() == old(server.Repr())
    ensures Moved(server.cfg, old(server.Abs()), None, l, server.Abs(), turn)
  {
    ghost var s := server.Abs();
    if HasEntry(server.ack) {
      var requeues, pid := server.ack.worklist[server.ack.next].attempts < server.cfg.maxAttempts, server.gateway.next;
      server.OnAckTimeout(t1, t2);
      l := AckHandle(t1, t2);
      var free := GetsLockAtOnce(server.gateway, pid);
      turn := if requeues && free then Some(pid) else None;
      EntryMoves(server.cfg, s, t1, t2);
    } else {
      server.AckScanEnd();
      l, turn := AckEnd, None;
      ScanEndMoves(server.cfg, s);
    }
  }

  lemma EntryMoves(cfg: Config, s: State, t1: int, t2: int)
    requires AckReady(s) && HasEntry(s.ack) && !CancelReady(s.loop)
    ensures var l := AckHandle(t1, t2); Moved(cfg, s, None, l, Apply(cfg, s, l), Turn(cfg, s, l))
    ensures Starts(cfg, s, AckHandle(t1, t2)) ==
            if s.ack.worklist[s.ack.next].attempts < cfg.maxAttempts then Some(s.loop.next) else None
  {
  }

  lemma ScanEndMoves(cfg: Config, s: State)
    requires AckReady(s) && !HasEntry(s.ack) && !CancelReady(s.loop)
    ensures Moved(cfg, s, None, AckEnd, Apply(cfg, s, AckEnd), None)
  {
  }

  /** The timeout watcher starts on its next entry, marks it if there is nothing to send, or ends its scan. */
  method NextDeadline(server: Server, t: int) returns (ghost l: Label)
    requires server.Valid() && TimerReady(server.timer) && !AckReady(server.Abs()) && !CancelReady(server.gateway.loop)
    modifies server.Repr()
    ensures server.Valid() && server.Repr() == old(server.Repr())
    ensures Moved(server.cfg, old(server.Abs()), None, l, server.Abs(), None)
  {
    ghost var s := server.Abs();
    if !HasDeadline(server.timer) {
      server.TimeoutScanEnd();
      l := TimerEnd;
    } else if server.timer.firing {
      server.MarkFired(false, t);
      l := TimerMark(false, t);
    } else {
      server.Fire();
      l := TimerFire;
    }
    DeadlineMoves(server.cfg, s, l);
  }

  lemma DeadlineMoves(cfg: Config, s: State, l: Label)
    requires TimerReady(s.timer) && !AckReady(s) && !CancelReady(s.loop) && Enabled(cfg, s, l)
    requires l.TimerFire? || l.TimerMark? || l.TimerEnd?
    ensures Moved(cfg, s, None, l, Apply(cfg, s, l), None)
  {
  }

  /** One move, if something goes on. */
  method Next(server: Server, turn: Option<nat>, t1: int, t2: int)
    returns (moved: bool, ghost l: Label, turn': Option<nat>)
    requires server.Valid() && (turn.Some? ==> Uncontended(server.gateway.loop, turn.value))
    modifies server.Repr()
    ensures server.Valid() && server.Repr() == old(server.Repr())
    ensures if moved then Moved(server.cfg, old(server.Abs()), turn, l, server.Abs(), turn')
            else turn == turn' == None && server.Abs() == old(server.Abs()) && Rests(server.Abs())
  {
    moved, l, turn' := true, Restart, None;
    var procs := server.gateway.procs;
    var cancel := CancelAtOnce(server.gateway);
    if turn.Some? {
      l := NextPick(server, turn.value);
    } else if cancel.Some? {
      l := NextCancel(server, cancel.value, t1);
    } else if server.ack.AckScanning? && (server.ack.awaiting.Some? ==> server.ack.awaiting.value !in procs) {
      l, turn' := NextEntry(server, t1, t2);
    } else if TimerReady(server.timer) {
      l := NextDeadline(server, t1);
    } else {
      moved := false;
    }
  }

  /** Everything that goes on without waiting. */
  method GoOn(server: Server, turn: Option<nat>, clock: seq<int>) returns (ghost run: seq<Label>)
    requires server.Valid() && (turn.Some? ==> Uncontended(server.gateway.loop, turn.value))
    modifies server.Repr()
    ensures server.Valid() && server.Repr() == old(server.Repr())
    ensures OnTheWay(server.cfg, old(server.Abs()), turn, run, server.Abs(), None) && Rests(server.Abs())
  {
    ghost var s := server.Abs();
    run := [];
    var turn', moved, i := turn, true, 0;
    while moved
      invariant server.Valid() && server.Repr() == old(server.Repr())
      invariant OnTheWay(server.cfg, s, turn, run, server.Abs(), turn')
      invariant turn'.Some? ==> Uncontended(server.gateway.loop, turn'.value)
      invariant !moved ==> turn' == None && Rests(server.Abs())
      decreases AckLeft(server.ack), TimerLeft(server.timer), |server.gateway.procs|, turn'.Some?, moved
    {
      ghost var s1, turn1, l := server.Abs(), turn', Restart;
      moved, l, turn' := Next(server, turn', Reading(clock, 2 * i), Reading(clock, 2 * i + 1));
      if moved {
        OneFurther(server.cfg, s, turn, run, s1, turn1, l);
        run := run + [l];
      }
      i := i + 1;
    }
  }
}
