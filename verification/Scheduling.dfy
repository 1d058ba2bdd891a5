/**
 The runs that one event loop has. A coroutine goes on until it has to wait, and it does not wait for a dispatch
 lock that is free and that nobody queues on, nor to send to an agent that is not connected. So a dispatch that gets
 its lock at once picks in the segment that started it; a watcher that is not waiting for a send or for a lock
 goes on with its next entry; and a lock that is given up goes to the first in its line. Everything proved about
 the runs of the transition system holds of these runs, which are fewer.
 */
module Scheduling {
  import opened Jobs
  import opened System

  // ---------------------------------------------------------------- dispatch locks

  /** The coroutine queues on a dispatch lock. */
  predicate Queues(k: Loop, pid: nat, lock: nat) {
    pid in k.procs && k.procs[pid].Waiting? && k.procs[pid].lock == lock
  }

  /** It gets its lock without waiting: nobody has it, and nobody else queues on it. */
  predicate Uncontended(k: Loop, pid: nat) {
    && pid in k.procs && k.procs[pid].Waiting? && k.procs[pid].lock !in k.held
    && forall q :: q in k.procs && Queues(k, q, k.procs[pid].lock) ==> q == pid
  }

  /** Nobody who queues on the same lock came before it: later coroutines have greater names. */
  predicate FirstInLine(k: Loop, pid: nat) {
    && pid in k.procs && k.procs[pid].Waiting?
    && forall q :: q in k.procs && Queues(k, q, k.procs[pid].lock) ==> pid <= q
  }

  /** The dispatch that a segment starts. */
  function Starts(cfg: Config, s: State, l: Label): Option<nat> {
    match l
    case SubmitJob(_) => Some(s.loop.next)
    case Register(_, _) => Some(s.loop.next + 1)
    case Result(session, _, _, _, _, _, _) => if session.Some? && Truthy(session.value) then Some(s.loop.next) else None
    case AckHandle(_, _) =>
      if HasEntry(s.ack) && s.ack.worklist[s.ack.next].attempts < cfg.maxAttempts then Some(s.loop.next) else None
    case _ => None
  }

  /** The dispatch that goes on after a segment, because that segment started it and it does not have to wait. */
  function Turn(cfg: Config, s: State, l: Label): Option<nat> {
    var started := Starts(cfg, s, l);
    if started.Some? && Uncontended(LoopNext(cfg, s, l), started.value) then started else None
  }

  // ---------------------------------------------------------------- coroutines that do not wait

  /** A cancel for an agent that is not connected has nothing to send. */
  predicate CancelsAtOnce(k: Loop, pid: nat) {
    pid in k.procs && k.procs[pid].Cancelling? && k.procs[pid].cancelConn.None?
  }

  predicate CancelReady(k: Loop) {
    exists pid :: pid in k.procs && CancelsAtOnce(k, pid)
  }

  /** The timeout watcher waits only for the send of a cancel. */
  predicate TimerReady(timer: TimerScan) {
    timer.TimerScanning? && (!timer.firing || timer.conn.None?)
  }

  /** No coroutine is in the middle of what it does without waiting. */
  predicate Rests(s: State) {
    !CancelReady(s.loop) && !AckReady(s) && !TimerReady(s.timer)
  }

  /** The segment may come next. A restart may come at any point. */
  predicate MayRun(s: State, turn: Option<nat>, l: Label) {
    l.Restart? ||
    if turn.Some? then l.Acquire? && l.pid == turn.value
    else if CancelReady(s.loop) then l.CancelEnd? && CancelsAtOnce(s.loop, l.pid)
    else if AckReady(s) then l.AckHandle? || l.AckEnd?
    else if TimerReady(s.timer) then l.TimerFire? || l.TimerMark? || l.TimerEnd?
    else l.Acquire? ==> FirstInLine(s.loop, l.pid)
  }

  // ---------------------------------------------------------------- runs of the event loop

  ghost predicate LoopRun(cfg: Config, s: State, turn: Option<nat>, run: seq<Label>)
    decreases |run|
  {
    run == [] ||
    (Enabled(cfg, s, run[0]) && MayRun(s, turn, run[0])
     && LoopRun(cfg, Apply(cfg, s, run[0]), Turn(cfg, s, run[0]), run[1..]))
  }

  function TurnAfter(cfg: Config, s: State, turn: Option<nat>, run: seq<Label>): Option<nat>
    decreases |run|
  {
    if run == [] then turn else TurnAfter(cfg, Apply(cfg, s, run[0]), Turn(cfg, s, run[0]), run[1..])
  }

  lemma {:induction false} LoopRunIsValid(cfg: Config, s: State, turn: Option<nat>, run: seq<Label>)
    requires LoopRun(cfg, s, turn, run)
    ensures ValidRun(cfg, s, run)
    decreases |run|
  {
    if run != [] {
      LoopRunIsValid(cfg, Apply(cfg, s, run[0]), Turn(cfg, s, run[0]), run[1..]);
    }
  }

  lemma {:induction false} LoopRunSplit(cfg: Config, s: State, turn: Option<nat>, r1: seq<Label>, r2: seq<Label>)
    ensures LoopRun(cfg, s, turn, r1 + r2) <==>
              LoopRun(cfg, s, turn, r1) && LoopRun(cfg, After(cfg, s, r1), TurnAfter(cfg, s, turn, r1), r2)
    ensures After(cfg, s, r1 + r2) == After(cfg, After(cfg, s, r1), r2)
    ensures TurnAfter(cfg, s, turn, r1 + r2) == TurnAfter(cfg, After(cfg, s, r1), TurnAfter(cfg, s, turn, r1), r2)
    decreases |r1|
  {
    if r1 == [] {
      assert r1 + r2 == r2;
    } else {
      assert (r1 + r2)[1..] == r1[1..] + r2;
      LoopRunSplit(cfg, Apply(cfg, s, r1[0]), Turn(cfg, s, r1[0]), r1[1..], r2);
    }
  }

  lemma {:induction false} LoopRunOfOne(cfg: Config, s: State, turn: Option<nat>, l: Label)
    ensures LoopRun(cfg, s, turn, [l]) <==> Enabled(cfg, s, l) && MayRun(s, turn, l)
    ensures After(cfg, s, [l]) == Apply(cfg, s, l) && TurnAfter(cfg, s, turn, [l]) == Turn(cfg, s, l)
  {
    assert [l][1..] == [];
  }

  // ---------------------------------------------------------------- lines

  /** Whatever the event loop runs: who gets a lock had to wait for nobody else, or has waited longest for it. */
  lemma {:induction false} LocksAreFair(cfg: Config, s: State, turn: Option<nat>, run: seq<Label>, i: nat)
    requires LoopRun(cfg, s, turn, run) && (turn.Some? ==> Uncontended(s.loop, turn.value))
    requires i < |run| && run[i].Acquire?
    ensures var procs, pid := After(cfg, s, run[..i]).loop.procs, run[i].pid;
            && pid in procs && procs[pid].Waiting?
            && forall q :: q in procs && procs[q].Waiting? && procs[q].lock == procs[pid].lock ==> pid <= q
    decreases i
  {
    if i == 0 {
      assert run[..0] == [];
      assert forall q :: q in s.loop.procs && s.loop.procs[q].Waiting? ==> Queues(s.loop, q, s.loop.procs[q].lock);
    } else {
      LocksAreFair(cfg, Apply(cfg, s, run[0]), Turn(cfg, s, run[0]), run[1..], i - 1);
      assert run[..i][1..] == run[1..][..i - 1];
    }
  }

  /** Whoever queues has a first in line. */
  lemma {:induction false} LineHasFirst(k: Loop, pid: nat) returns (first: nat)
    requires pid in k.procs && k.procs[pid].Waiting?
    ensures Queues(k, first, k.procs[pid].lock) && FirstInLine(k, first)
    decreases pid
  {
    first := pid;
    if !FirstInLine(k, pid) {
      var q :| q in k.procs && Queues(k, q, k.procs[pid].lock) && q < pid;
      first := LineHasFirst(k, q);
    }
  }
}
