/**
 What is sent, and when: a cancel reaches the connection that its agent had when it began, whatever happens while it
 waits; a picked job goes out on the connection it was picked for; and nothing else is ever sent.
 */
module Deliveries {
  import opened Jobs
  import opened Store
  import opened System
  import opened Wiring

  // ---------------------------------------------------------------- a suspended coroutine is left alone

  /** Nothing is lost from what a coroutine that sends holds, and its name is not given to another. */
  lemma StaysSuspended(cfg: Config, s: State, l: Label, pid: nat)
    requires Enabled(cfg, s, l) && pid < s.loop.next && pid in LoopNext(cfg, s, l).procs
    ensures pid in s.loop.procs
    ensures !s.loop.procs[pid].Waiting? ==> LoopNext(cfg, s, l).procs[pid] == s.loop.procs[pid]
  {
  }

  lemma NamesGrow(cfg: Config, s: State, l: Label)
    ensures s.loop.next <= LoopNext(cfg, s, l).next
  {
  }

  lemma {:induction false} StaysSuspendedIn(cfg: Config, s: State, run: seq<Label>, pid: nat)
    requires ValidRun(cfg, s, run) && pid < s.loop.next && pid in After(cfg, s, run).loop.procs
    ensures pid in s.loop.procs
    ensures !s.loop.procs[pid].Waiting? ==> After(cfg, s, run).loop.procs[pid] == s.loop.procs[pid]
    decreases |run|
  {
    if run != [] {
      NamesGrow(cfg, s, run[0]);
      StaysSuspendedIn(cfg, Apply(cfg, s, run[0]), run[1..], pid);
      StaysSuspended(cfg, s, run[0], pid);
    }
  }

  // ---------------------------------------------------------------- a cancel through the API

  lemma CancelSuspends(cfg: Config, s: State, id: JobId)
    requires Enabled(cfg, s, CancelBegin(id))
    ensures var s1, a := Apply(cfg, s, CancelBegin(id)), s.table.rows[id].agentId;
            && s1.loop.next == s.loop.next + 1 && s.loop.next in s1.loop.procs
            && s1.loop.procs[s.loop.next] ==
                 Cancelling(s.table.rows[id], if a in s.loop.registry then Some(s.loop.registry[a]) else None)
  {
  }

  /** How the wait ends: the message counts as sent if there was a connection and the send succeeded. */
  lemma CancelDelivers(cfg: Config, s: State, pid: nat, ok: bool, t: int)
    requires Enabled(cfg, s, CancelEnd(pid, ok, t))
    ensures var p := s.loop.procs[pid];
            Apply(cfg, s, CancelEnd(pid, ok, t)).loop.sent ==
              if ok && p.cancelConn.Some? then s.loop.sent + [CancelMessage(p.cancelConn.value, p.job.jobId)]
              else s.loop.sent
  {
  }

  /** A cancel of a job, with any run while it waits: exactly one cancel message goes out, on the connection that the
      job's agent had at the beginning, if it had one and the send succeeds; otherwise none. */
  lemma {:induction false} CancelIsSent(cfg: Config, s: State, id: JobId, run: seq<Label>, ok: bool, t: int)
    requires Enabled(cfg, s, CancelBegin(id)) && ValidRun(cfg, Apply(cfg, s, CancelBegin(id)), run)
    requires Enabled(cfg, After(cfg, Apply(cfg, s, CancelBegin(id)), run), CancelEnd(s.loop.next, ok, t))
    requires s.table.rows[id].jobId == id
    ensures var a, before := s.table.rows[id].agentId, After(cfg, Apply(cfg, s, CancelBegin(id)), run);
            var after := Apply(cfg, before, CancelEnd(s.loop.next, ok, t));
            after.loop.sent ==
              if ok && a in s.loop.registry then before.loop.sent + [CancelMessage(s.loop.registry[a], id)]
              else before.loop.sent
  {
    CancelSuspends(cfg, s, id);
    var s1 := Apply(cfg, s, CancelBegin(id));
    StaysSuspendedIn(cfg, s1, run, s.loop.next);
    CancelDelivers(cfg, After(cfg, s1, run), s.loop.next, ok, t);
  }

  // ---------------------------------------------------------------- a cancel by the timeout watcher

  lemma FireSuspends(cfg: Config, s: State)
    requires Enabled(cfg, s, TimerFire)
    ensures var timer, a := Apply(cfg, s, TimerFire).timer, s.timer.worklist[s.timer.next].agentId;
            && timer.TimerScanning? && timer.firing && timer.worklist == s.timer.worklist && timer.next == s.timer.next
            && timer.conn == if a in s.loop.registry then Some(s.loop.registry[a]) else None
  {
  }

  lemma {:induction false} FiringStays(cfg: Config, s: State, run: seq<Label>)
    requires ValidRun(cfg, s, run) && HasDeadline(s.timer) && s.timer.firing
    requires forall i :: 0 <= i < |run| ==> !run[i].TimerMark? && !run[i].Restart?
    ensures After(cfg, s, run).timer == s.timer
    decreases |run|
  {
    if run != [] {
      assert Apply(cfg, s, run[0]).timer == s.timer;
      FiringStays(cfg, Apply(cfg, s, run[0]), run[1..]);
    }
  }

  lemma MarkDelivers(cfg: Config, s: State, ok: bool, t: int)
    requires Enabled(cfg, s, TimerMark(ok, t))
    ensures Apply(cfg, s, TimerMark(ok, t)).loop.sent ==
              if ok && s.timer.conn.Some? then
                s.loop.sent + [CancelMessage(s.timer.conn.value, s.timer.worklist[s.timer.next].jobId)]
              else s.loop.sent
  {
  }

  /** The same of a job whose time is up. */
  lemma {:induction false} ExpiryIsSent(cfg: Config, s: State, run: seq<Label>, ok: bool, t: int)
    requires Enabled(cfg, s, TimerFire) && ValidRun(cfg, Apply(cfg, s, TimerFire), run)
    requires forall i :: 0 <= i < |run| ==> !run[i].TimerMark? && !run[i].Restart?
    ensures var entry, before := s.timer.worklist[s.timer.next], After(cfg, Apply(cfg, s, TimerFire), run);
            && Enabled(cfg, before, TimerMark(ok, t))
            && Apply(cfg, before, TimerMark(ok, t)).loop.sent ==
                 if ok && entry.agentId in s.loop.registry then
                   before.loop.sent + [CancelMessage(s.loop.registry[entry.agentId], entry.jobId)]
                 else before.loop.sent
  {
    FireSuspends(cfg, s);
    FiringStays(cfg, Apply(cfg, s, TimerFire), run);
    MarkDelivers(cfg, After(cfg, Apply(cfg, s, TimerFire), run), ok, t);
  }

  // ---------------------------------------------------------------- a picked job

  lemma PickSuspends(cfg: Config, s: State, pid: nat, id: JobId)
    requires Enabled(cfg, s, Acquire(pid, Some(id))) && IdsOk(s.table)
    ensures var s1, a := Apply(cfg, s, Acquire(pid, Some(id))), s.loop.procs[pid].agent;
            && a in s.loop.registry && s1.loop.next == s.loop.next && pid in s1.loop.procs
            && var p := s1.loop.procs[pid]; p.Sending? && p.conn == s.loop.registry[a] && p.job.jobId == id
  {
  }

  /** How the send ends: the message counts as sent, and the connection that the job was picked for, registered still or
      not, has one more in flight. */
  lemma SendDelivers(cfg: Config, s: State, pid: nat, t1: int, t2: int)
    requires Enabled(cfg, s, SendOk(pid, t1, t2))
    ensures var p, s' := s.loop.procs[pid], Apply(cfg, s, SendOk(pid, t1, t2));
            && s'.loop.sent == s.loop.sent + [JobMessage(p.conn, p.job.jobId)]
            && s'.loop.conns.Keys == s.loop.conns.Keys
            && forall c :: c in s.loop.conns ==>
                 s'.loop.conns[c] ==
                   if c == p.conn then s.loop.conns[c].(inFlight := s.loop.conns[c].inFlight + 1) else s.loop.conns[c]
  {
  }

  /** A result has one fewer in flight on the connection that its session's agent has now, down to none. */
  lemma ResultFrees(cfg: Config, s: State, l: Label)
    requires l.Result? && l.session.Some? && l.session.value.text != "" && NamesOk(s.loop)
    ensures var a, s' := l.session.value, Apply(cfg, s, l);
            && s'.loop.conns.Keys == s.loop.conns.Keys
            && forall c :: c in s.loop.conns ==>
                 var n := s.loop.conns[c].inFlight;
                 s'.loop.conns[c] ==
                   if a in s.loop.registry && c == s.loop.registry[a] && n > 0 then s.loop.conns[c].(inFlight := n - 1)
                   else s.loop.conns[c]
  {
  }

  /** A dispatch for an agent begins with an accepted job of it, with its registration, with a result in its session, and
      with the requeueing of a job of it, and with nothing else. */
  lemma WhatStartsADispatch(cfg: Config, s: State, l: Label, a: AgentId)
    requires NamesAreOld(s.loop) && Enabled(cfg, s, l)
    ensures var procs, procs' := s.loop.procs, Apply(cfg, s, l).loop.procs;
            (exists pid :: pid in procs' && pid !in procs && procs'[pid].Waiting? && procs'[pid].agent == a) <==>
              || (l.SubmitJob? && l.job.agentId == a)
              || (l.Register? && l.agent == a)
              || (l.Result? && l.session == Some(a) && a.text != "")
              || (l.AckHandle? && s.ack.worklist[s.ack.next].agentId == a
                  && s.ack.worklist[s.ack.next].attempts < cfg.maxAttempts)
  {
    var procs' := Apply(cfg, s, l).loop.procs;
    if l.SubmitJob? || l.Result? || l.AckHandle? {
      assert s.loop.next !in s.loop.procs;
      assert s.loop.next in procs' ==> procs'[s.loop.next].Waiting?;
    } else if l.Register? {
      assert s.loop.next + 1 in procs' && procs'[s.loop.next + 1].Waiting?;
    }
  }

  /** A job that is picked, with any run while the send waits: if the send succeeds, exactly that job goes out, on the
      connection that its agent had when it was picked. */
  lemma {:induction false} PickIsSent(cfg: Config, s: State, pid: nat, id: JobId, run: seq<Label>, t1: int, t2: int)
    requires Enabled(cfg, s, Acquire(pid, Some(id))) && IdsOk(s.table) && NamesAreOld(s.loop)
    requires ValidRun(cfg, Apply(cfg, s, Acquire(pid, Some(id))), run)
    requires Enabled(cfg, After(cfg, Apply(cfg, s, Acquire(pid, Some(id))), run), SendOk(pid, t1, t2))
    ensures s.loop.procs[pid].agent in s.loop.registry
    ensures var before := After(cfg, Apply(cfg, s, Acquire(pid, Some(id))), run);
            Apply(cfg, before, SendOk(pid, t1, t2)).loop.sent ==
              before.loop.sent + [JobMessage(s.loop.registry[s.loop.procs[pid].agent], id)]
  {
    PickSuspends(cfg, s, pid, id);
    var s1 := Apply(cfg, s, Acquire(pid, Some(id)));
    StaysSuspendedIn(cfg, s1, run, pid);
    SendDelivers(cfg, After(cfg, s1, run), pid, t1, t2);
  }

  /** No other segment sends anything. */
  lemma NothingElseIsSent(cfg: Config, s: State, l: Label)
    requires Enabled(cfg, s, l) && !l.CancelEnd? && !l.TimerMark? && !l.SendOk?
    ensures Apply(cfg, s, l).loop.sent == s.loop.sent
  {
  }

  /** A restart leaves nobody waiting, nobody registered, no lock and no scan, and keeps what is stored and was sent. */
  lemma RestartForgets(cfg: Config, s: State)
    ensures var s' := Apply(cfg, s, Restart);
            && s'.loop.procs == map[] && s'.loop.registry == map[] && s'.loop.locks == map[] && s'.loop.held == map[]
            && s'.ack == AckIdle && s'.timer == TimerIdle
            && s'.table == s.table && s'.events == s.events && s'.loop.sent == s.loop.sent
  {
  }
}
