/**
 The server under an arbitrary environment. A schedule asks for segments in any order; the server performs each one
 that may begin, with everything that goes on in it without waiting, and refuses the others, so that a schedule
 causes one run of the event loop.
 */
module Serving {
  import opened Jobs
  import opened System
  import opened Scheduling
  import opened ControlPlane
  import opened Segments

  /** The label is what the step asks for. The server's own decisions - which job is picked, which rows a scan
      copies - are not the environment's to make. */
  predicate Answers(l: Label, step: Label) {
    match step
    case Acquire(pid, _) => l.Acquire? && l.pid == pid
    case AckBegin(now, _) => l.AckBegin? && l.now == now
    case TimerBegin(now, _) => l.TimerBegin? && l.now == now
    case _ => l == step
  }

  /** No segment that the step could mean can begin. */
  ghost predicate Refused(cfg: Config, s: State, step: Label) {
    forall l :: Answers(l, step) ==> !(Enabled(cfg, s, l) && MayRun(s, None, l))
  }

  /** The beginning of the segment that the step asks for, or nothing, and then because it could not begin. */
  ghost predicate Begun(cfg: Config, s: State, step: Label, begun: bool, l: Label, s': State) {
    if begun then Answers(l, step) && Step(cfg, s, l, s') && MayRun(s, None, l)
    else Refused(cfg, s, step) && s' == s
  }

  predicate IsCancel(step: Label) {
    step.CancelBegin? || step.CancelEnd?
  }

  predicate IsSession(step: Label) {
    step.Register? || step.Disconnect?
  }

  predicate IsSweep(step: Label) {
    step.HeartbeatSweep? || step.Restart?
  }

  predicate IsMessage(step: Label) {
    step.Note? || step.Started? || step.Result? || step.Heartbeat?
  }

  predicate IsSend(step: Label) {
    step.SendOk? || step.SendFailed?
  }

  method PerformSubmit(server: Server, step: Label) returns (begun: bool, ghost l: Label)
    requires server.Valid() && Rests(server.Abs()) && step.SubmitJob?
    modifies server.Repr()
    ensures server.Valid() && fresh(server.Repr() - old(server.Repr()))
    ensures Begun(server.cfg, old(server.Abs()), step, begun, l, server.Abs())
  {
    begun, l := false, step;
    var job := step.job;
    if IsNewRow(job) && job.jobId !in server.db.rows {
      var id := server.SubmitJob(job.agentId, job.request, job.timeoutMs, job.key, job.priority, job.jobId,
                                 job.createdAt, job.updatedAt);
      begun := id.Some?;
    }
  }

  method PerformCancel(server: Server, step: Label) returns (begun: bool, ghost l: Label)
    requires server.Valid() && Rests(server.Abs()) && IsCancel(step)
    modifies server.Repr()
    ensures server.Valid() && fresh(server.Repr() - old(server.Repr()))
    ensures Begun(server.cfg, old(server.Abs()), step, begun, l, server.Abs())
  {
    begun, l := true, step;
    match step {
      case CancelBegin(id) =>
        var outcome := server.CancelBegin(id);
        begun := outcome.Accepted?;
      case CancelEnd(pid, ok, t) =>
        if pid in server.gateway.procs && server.gateway.procs[pid].Cancelling? {
          var _ := server.CancelEnd(pid, ok, t);
        } else {
          begun := false;
        }
    }
  }

  method PerformMessage(server: Server, step: Label) returns (begun: bool, ghost l: Label)
    requires server.Valid() && Rests(server.Abs()) && IsMessage(step)
    modifies server.Repr()
    ensures server.Valid() && fresh(server.Repr() - old(server.Repr()))
    ensures Begun(server.cfg, old(server.Abs()), step, begun, l, server.Abs())
  {
    begun, l := true, step;
    match step {
      case Note(id, ack) => server.OnAckOrReconcile(id, ack);
      case Started(id, t) => server.OnStarted(id, t);
      case Result(session, id, exit, out, err, error, t) => server.OnResult(session, id, exit, out, err, error, t);
      case Heartbeat(session, t) => server.OnHeartbeat(session, t);
    }
  }

  method PerformSession(server: Server, step: Label) returns (begun: bool, ghost l: Label)
    requires server.Valid() && Rests(server.Abs()) && IsSession(step)
    modifies server.Repr()
    ensures server.Valid() && fresh(server.Repr() - old(server.Repr()))
    ensures Begun(server.cfg, old(server.Abs()), step, begun, l, server.Abs())
  {
    begun, l := true, step;
    match step {
      case Register(a, t) => server.OnRegister(a, t);
      case Disconnect(a) =>
        server.OnDisconnect(Some(a));
        begun := Truthy(a);
    }
  }

  method PerformSweep(server: Server, step: Label) returns (begun: bool, ghost l: Label)
    requires server.Valid() && Rests(server.Abs()) && IsSweep(step)
    modifies server.Repr()
    ensures server.Valid() && fresh(server.Repr() - old(server.Repr()))
    ensures Begun(server.cfg, old(server.Abs()), step, begun, l, server.Abs())
  {
    begun, l := true, step;
    match step {
      case HeartbeatSweep(cutoff) => server.ScanHeartbeats(cutoff);
      case Restart => server.RestartServer();
    }
  }

  /** The first in line for a lock that has become free. */
  method PerformAcquire(server: Server, step: Label) returns (begun: bool, ghost l: Label)
    requires server.Valid() && Rests(server.Abs()) && step.Acquire?
    modifies server.Repr()
    ensures server.Valid() && fresh(server.Repr() - old(server.Repr()))
    ensures Begun(server.cfg, old(server.Abs()), step, begun, l, server.Abs())
  {
    begun, l := false, step;
    var first := IsFirstInLine(server.gateway, step.pid);
    if first && server.gateway.procs[step.pid].lock !in server.gateway.held {
      var pick := server.AcquireAndPick(step.pid);
      begun, l := true, Acquire(step.pid, pick);
    }
  }

  method PerformSend(server: Server, step: Label) returns (begun: bool, ghost l: Label)
    requires server.Valid() && Rests(server.Abs()) && IsSend(step)
    modifies server.Repr()
    ensures server.Valid() && fresh(server.Repr() - old(server.Repr()))
    ensures Begun(server.cfg, old(server.Abs()), step, begun, l, server.Abs())
  {
    begun, l := false, step;
    if step.pid in server.gateway.procs && server.gateway.procs[step.pid].Sending? {
      begun := true;
      match step {
        case SendOk(pid, t1, t2) => server.SendSucceeded(pid, t1, t2);
        case SendFailed(pid) => server.SendFailure(pid);
      }
    }
  }

  /** At rest the ack watcher can begin a scan; its entries and its end belong to the segments of others. */
  method PerformAck(server: Server, step: Label) returns (begun: bool, ghost l: Label)
    requires server.Valid() && Rests(server.Abs()) && (step.AckBegin? || step.AckHandle? || step.AckEnd?)
    modifies server.Repr()
    ensures server.Valid() && fresh(server.Repr() - old(server.Repr()))
    ensures Begun(server.cfg, old(server.Abs()), step, begun, l, server.Abs())
  {
    begun, l := false, step;
    if step.AckBegin? && server.ack.AckIdle? {
      var worklist := server.AckScanBegin(step.now);
      begun, l := true, AckBegin(step.now, worklist);
    }
  }

  method PerformTimerScan(server: Server, step: Label) returns (begun: bool, ghost l: Label)
    requires server.Valid() && Rests(server.Abs()) && (step.TimerBegin? || step.TimerEnd?)
    modifies server.Repr()
    ensures server.Valid() && fresh(server.Repr() - old(server.Repr()))
    ensures Begun(server.cfg, old(server.Abs()), step, begun, l, server.Abs())
  {
    begun, l := false, step;
    match step {
      case TimerBegin(now, _) =>
        if server.timer.TimerIdle? {
          var worklist := server.TimeoutScanBegin(now);
          begun, l := true, TimerBegin(now, worklist);
        }
      case TimerEnd =>
        if server.timer.TimerScanning? && !HasDeadline(server.timer) {
          server.TimeoutScanEnd();
          begun, l := true, step;
        }
    }
  }

  method PerformFire(server: Server, step: Label) returns (begun: bool, ghost l: Label)
    requires server.Valid() && Rests(server.Abs()) && (step.TimerFire? || step.TimerMark?)
    modifies server.Repr()
    ensures server.Valid() && fresh(server.Repr() - old(server.Repr()))
    ensures Begun(server.cfg, old(server.Abs()), step, begun, l, server.Abs())
  {
    begun, l := false, step;
    if step.TimerMark? && HasDeadline(server.timer) && server.timer.firing {
      server.MarkFired(step.ok, step.t);
      begun := true;
    }
  }

  /** The beginning of a segment, if it can begin. */
  method Begin(server: Server, step: Label) returns (begun: bool, ghost l: Label)
    requires server.Valid() && Rests(server.Abs())
    modifies server.Repr()
    ensures server.Valid() && fresh(server.Repr() - old(server.Repr()))
    ensures Begun(server.cfg, old(server.Abs()), step, begun, l, server.Abs())
  {
    if step.SubmitJob? {
      begun, l := PerformSubmit(server, step);
    } else if IsCancel(step) {
      begun, l := PerformCancel(server, step);
    } else if IsMessage(step) {
      begun, l := PerformMessage(server, step);
    } else if IsSession(step) {
      begun, l := PerformSession(server, step);
    } else if IsSweep(step) {
      begun, l := PerformSweep(server, step);
    } else if step.Acquire? {
      begun, l := PerformAcquire(server, step);
    } else if IsSend(step) {
      begun, l := PerformSend(server, step);
    } else if step.AckBegin? || step.AckHandle? || step.AckEnd? {
      begun, l := PerformAck(server, step);
    } else if step.TimerBegin? || step.TimerEnd? {
      begun, l := PerformTimerScan(server, step);
    } else {
      begun, l := PerformFire(server, step);
    }
  }

  /** What a step of the schedule has done: a whole segment, or nothing. */
  ghost predicate Performed(cfg: Config, s: State, step: Label, run: seq<Label>, s': State) {
    if run == [] then Refused(cfg, s, step) && s' == s
    else Answers(run[0], step) && Segment(cfg, s, run, s')
  }

  /** The dispatch that a step starts. */
  function StartedBy(step: Label, next: nat): Option<nat> {
    match step
    case SubmitJob(_) => Some(next)
    case Register(_, _) => Some(next + 1)
    case Result(session, _, _, _, _, _, _) => if session.Some? && Truthy(session.value) then Some(next) else None
    case _ => None
  }

  lemma BegunTurn(cfg: Config, s: State, step: Label, l: Label, s': State)
    requires Begun(cfg, s, step, true, l, s') && Rests(s)
    ensures var pid := StartedBy(step, s.loop.next);
            Turn(cfg, s, l) == if pid.Some? && Uncontended(s'.loop, pid.value) then pid else None
  {
  }

  lemma {:induction false} BegunAndGone(cfg: Config, s: State, step: Label, l: Label, s1: State, run: seq<Label>, s': State)
    requires Begun(cfg, s, step, true, l, s1) && Rests(s) && Rests(s')
    requires OnTheWay(cfg, s1, Turn(cfg, s, l), run, s', None)
    ensures Performed(cfg, s, step, [l] + run, s')
  {
    SegmentOf(cfg, s, l, run, s');
  }

  /** Perform one step, if it can begin. */
  method Perform(server: Server, step: Label, clock: seq<int>) returns (ghost run: seq<Label>)
    requires server.Valid() && Rests(server.Abs())
    modifies server.Repr()
    ensures server.Valid() && fresh(server.Repr() - old(server.Repr())) && Rests(server.Abs())
    ensures Performed(server.cfg, old(server.Abs()), step, run, server.Abs())
  {
    ghost var s := server.Abs();
    var pid, begun := StartedBy(step, server.gateway.next), false;
    ghost var l;
    begun, l := Begin(server, step);
    run := [];
    if begun {
      ghost var s1 := server.Abs();
      run := GoOnAfter(server, pid, clock, s, step, l);
      BegunAndGone(server.cfg, s, step, l, s1, run, server.Abs());
      run := [l] + run;
    }
  }

  /** The rest of a segment that has begun. */
  method GoOnAfter(server: Server, pid: Option<nat>, clock: seq<int>, ghost s: State, ghost step: Label, ghost l: Label)
    returns (ghost run: seq<Label>)
    requires server.Valid() && Rests(s) && Begun(server.cfg, s, step, true, l, server.Abs())
    requires pid == StartedBy(step, s.loop.next)
    modifies server.Repr()
    ensures server.Valid() && server.Repr() == old(server.Repr()) && Rests(server.Abs())
    ensures OnTheWay(server.cfg, old(server.Abs()), Turn(server.cfg, s, l), run, server.Abs(), None)
  {
    BegunTurn(server.cfg, s, step, l, server.Abs());
    var free := false;
    if pid.Some? {
      free := GetsLockAtOnce(server.gateway, pid.value);
    }
    run := GoOn(server, if free then pid else None, clock);
  }

  // ---------------------------------------------------------------- any schedule

  /** What a schedule causes, step by step: a segment for every step that could begin, and none that could not. */
  ghost predicate Follows(cfg: Config, s: State, schedule: seq<Label>, parts: seq<seq<Label>>, s': State)
    decreases |schedule|
  {
    |parts| == |schedule| &&
    if schedule == [] then s' == s
    else
      && Performed(cfg, s, schedule[0], parts[0], After(cfg, s, parts[0]))
      && Follows(cfg, After(cfg, s, parts[0]), schedule[1..], parts[1..], s')
  }

  function Joined(parts: seq<seq<Label>>): seq<Label> {
    if parts == [] then [] else parts[0] + Joined(parts[1..])
  }

  lemma {:induction false} PerformedIsLoopRun(cfg: Config, s: State, step: Label, run: seq<Label>, s': State)
    requires Performed(cfg, s, step, run, s')
    ensures LoopRun(cfg, s, None, run) && After(cfg, s, run) == s' && TurnAfter(cfg, s, None, run) == None
  {
    if run != [] {
      SegmentIsLoopRun(cfg, s, run, s');
    }
  }

  /** A schedule causes a run of the event loop. */
  lemma {:induction false} FollowsIsLoopRun(cfg: Config, s: State, schedule: seq<Label>, parts: seq<seq<Label>>, s': State)
    requires Follows(cfg, s, schedule, parts, s')
    ensures LoopRun(cfg, s, None, Joined(parts)) && After(cfg, s, Joined(parts)) == s'
    ensures TurnAfter(cfg, s, None, Joined(parts)) == None
    decreases |schedule|
  {
    if schedule != [] {
      PerformedIsLoopRun(cfg, s, schedule[0], parts[0], After(cfg, s, parts[0]));
      FollowsIsLoopRun(cfg, After(cfg, s, parts[0]), schedule[1..], parts[1..], s');
      LoopRunSplit(cfg, s, None, parts[0], Joined(parts[1..]));
    }
  }

  lemma {:induction false} FollowsSnoc(cfg: Config, s: State, schedule: seq<Label>, parts: seq<seq<Label>>, s1: State,
                                       step: Label, run: seq<Label>, s': State)
    requires Follows(cfg, s, schedule, parts, s1) && Performed(cfg, s1, step, run, s')
    ensures Follows(cfg, s, schedule + [step], parts + [run], s')
    decreases |schedule|
  {
    if schedule == [] {
      FollowsOne(cfg, s, step, run, s');
    } else {
      FollowsSnoc(cfg, After(cfg, s, parts[0]), schedule[1..], parts[1..], s1, step, run, s');
      FollowsCons(cfg, s, schedule, parts, step, run, s');
    }
  }

  lemma {:induction false} FollowsOne(cfg: Config, s: State, step: Label, run: seq<Label>, s': State)
    requires Performed(cfg, s, step, run, s')
    ensures Follows(cfg, s, [] + [step], [] + [run], s')
  {
    PerformedIsLoopRun(cfg, s, step, run, s');
    assert [step][1..] == [] && [run][1..] == [];
  }

  lemma {:induction false} FollowsCons(cfg: Config, s: State, schedule: seq<Label>, parts: seq<seq<Label>>, step: Label,
                                       run: seq<Label>, s': State)
    requires schedule != [] && |parts| == |schedule|
    requires Performed(cfg, s, schedule[0], parts[0], After(cfg, s, parts[0]))
    requires Follows(cfg, After(cfg, s, parts[0]), schedule[1..] + [step], parts[1..] + [run], s')
    ensures Follows(cfg, s, schedule + [step], parts + [run], s')
  {
    assert (schedule + [step])[1..] == schedule[1..] + [step] && (parts + [run])[1..] == parts[1..] + [run];
  }
}
