/**
 Who is registered. An agent is exactly if it has registered, and neither left, nor been swept, nor lost to a restart
 since; and a sweep takes exactly the agents whose last beat lies before its cutoff.
 */
module Heartbeats {
  import opened Jobs
  import opened System
  import opened Watchers
  import opened Wiring
  import opened History
  import opened Causes

  // ---------------------------------------------------------------- the last beat, read off the run

  /** When the agent last registered or beat, if it has not left, been swept or been lost since. */
  function LastBeat(run: seq<Label>, a: AgentId): Option<int> {
    if run == [] then None
    else
      var before := LastBeat(run[..|run| - 1], a);
      match run[|run| - 1]
      case Register(b, t) => if b == a then Some(t) else before
      case Heartbeat(session, t) => if session == Some(a) && before.Some? then Some(t) else before
      case Disconnect(b) => if b == a then None else before
      case HeartbeatSweep(cutoff) => if before.Some? && before.value < cutoff then None else before
      case Restart => None
      case _ => before
  }

  /** The agent's registration, as its connection object has it. */
  function Beat(k: Loop, a: AgentId): Option<int> {
    if a in k.registry && k.registry[a] in k.conns then Some(k.conns[k.registry[a]].lastHeartbeat) else None
  }

  lemma TouchedBeat(k: Loop, session: Option<AgentId>, t: int, a: AgentId)
    requires NamesOk(k) && session.Some?
    ensures Beat(Touch(k, session.value, t), a) ==
            if session == Some(a) && Beat(k, a).Some? then Some(t) else Beat(k, a)
  {
    var b := session.value;
    assert a in k.registry ==> ConnOf(k, k.registry[a], a);
    assert b in k.registry ==> ConnOf(k, k.registry[b], b);
  }

  /** The segments that are about registrations and beats, on the agent's registration. */
  lemma BeatStep(cfg: Config, s: State, l: Label, a: AgentId)
    requires NamesOk(s.loop) && Enabled(cfg, s, l)
    ensures var before, after := Beat(s.loop, a), Beat(LoopNext(cfg, s, l), a);
            match l
            case Register(b, t) => after == if b == a then Some(t) else before
            case Heartbeat(session, t) => after == if session == Some(a) && before.Some? then Some(t) else before
            case Disconnect(b) => after == if b == a then None else before
            case HeartbeatSweep(cutoff) => after == if before.Some? && before.value < cutoff then None else before
            case Restart => after == None
            case _ => after == before
  {
    assert a in s.loop.registry ==> ConnOf(s.loop, s.loop.registry[a], a);
    if l.Heartbeat? && l.session.Some? {
      TouchedBeat(s.loop, l.session, l.t, a);
    }
  }

  /** Which agents are registered in a reachable state, and when each was last heard of, is what the run says. */
  lemma {:induction false} RegisteredIsLastBeat(cfg: Config, run: seq<Label>, a: AgentId)
    requires cfg.maxAttempts >= 1 && ValidRun(cfg, INITIAL, run)
    ensures var k := After(cfg, INITIAL, run).loop;
            && (a in k.registry <==> LastBeat(run, a).Some?)
            && (a in k.registry ==>
                  && k.registry[a] in k.conns && k.conns[k.registry[a]].agentId == a
                  && Some(k.conns[k.registry[a]].lastHeartbeat) == LastBeat(run, a))
  {
    BeatIsLast(cfg, run, a);
    RunKeepsWiring(cfg, INITIAL, run);
    var k := After(cfg, INITIAL, run).loop;
    assert a in k.registry ==> ConnOf(k, k.registry[a], a);
  }

  lemma {:induction false} BeatIsLast(cfg: Config, run: seq<Label>, a: AgentId)
    requires cfg.maxAttempts >= 1 && ValidRun(cfg, INITIAL, run)
    ensures Beat(After(cfg, INITIAL, run).loop, a) == LastBeat(run, a)
    decreases |run|
  {
    if run != [] {
      var init := run[..|run| - 1];
      Unsnoc(cfg, INITIAL, run);
      BeatIsLast(cfg, init, a);
      RunKeepsWiring(cfg, INITIAL, init);
      BeatStep(cfg, After(cfg, INITIAL, init), run[|run| - 1], a);
    }
  }

  // ---------------------------------------------------------------- what a beat is for

  /** The segment does not end or replace the agent's registration, other than by a sweep. */
  predicate Spares(l: Label, a: AgentId) {
    !l.Restart? && (l.Register? || l.Disconnect? ==> l.agent != a)
  }

  /** Registered on this connection, and not heard of before `t` last. */
  predicate HeardSince(k: Loop, a: AgentId, c: nat, t: int) {
    a in k.registry && k.registry[a] == c && c in k.conns && k.conns[c].lastHeartbeat >= t
  }

  lemma HeardStep(cfg: Config, s: State, l: Label, a: AgentId, c: nat, t: int)
    requires NamesOk(s.loop) && HeardSince(s.loop, a, c, t) && Enabled(cfg, s, l) && Spares(l, a) && t <= s.clock
    requires Ticking(s.clock, [l]) && (l.HeartbeatSweep? ==> l.cutoff <= t)
    ensures HeardSince(LoopNext(cfg, s, l), a, c, t)
  {
    assert l.Heartbeat? ==> Times(l)[0] == l.t;
    assert ConnOf(s.loop, c, a);
  }

  lemma {:induction false} StaysHeard(cfg: Config, s: State, run: seq<Label>, a: AgentId, c: nat, t: int)
    requires WiringInv(s) && Inv(cfg, s) && cfg.maxAttempts >= 1
    requires HeardSince(s.loop, a, c, t) && t <= s.clock && ValidRun(cfg, s, run) && Ticking(s.clock, run)
    requires forall i :: 0 <= i < |run| ==> Spares(run[i], a) && (run[i].HeartbeatSweep? ==> run[i].cutoff <= t)
    ensures HeardSince(After(cfg, s, run).loop, a, c, t)
    decreases |run|
  {
    if run != [] {
      TickingHead(s.clock, run);
      HeardStep(cfg, s, run[0], a, c, t);
      ClockForward(s.clock, run[0]);
      WiringKept(cfg, s, run[0]);
      InvKept(cfg, s, run[0]);
      assert forall i :: 0 <= i < |run[1..]| ==> run[1..][i] == run[i + 1];
      StaysHeard(cfg, Apply(cfg, s, run[0]), run[1..], a, c, t);
    }
  }

  /** An agent that registers, or is registered and beats, at `t`: as long as it neither registers again nor leaves,
      the server goes on, and no sweep has a cutoff after `t`, it stays registered on the same connection. */
  lemma {:induction false} BeatKeepsRegistered(cfg: Config, s: State, l: Label, run: seq<Label>, a: AgentId, t: int)
    requires WiringInv(s) && Inv(cfg, s) && cfg.maxAttempts >= 1
    requires l == Register(a, t) || (l == Heartbeat(Some(a), t) && a in s.loop.registry)
    requires ValidRun(cfg, Apply(cfg, s, l), run) && Ticking(t, run)
    requires forall i :: 0 <= i < |run| ==> Spares(run[i], a) && (run[i].HeartbeatSweep? ==> run[i].cutoff <= t)
    ensures var k, k' := Apply(cfg, s, l).loop, After(cfg, Apply(cfg, s, l), run).loop;
            a in k.registry && a in k'.registry && k'.registry[a] == k.registry[a]
  {
    var s1 := Apply(cfg, s, l);
    BeatStep(cfg, s, l, a);
    WiringKept(cfg, s, l);
    InvKept(cfg, s, l);
    assert a in s.loop.registry ==> ConnOf(s.loop, s.loop.registry[a], a);
    StaysHeard(cfg, s1, run, a, s1.loop.registry[a], t);
  }

  /** A sweep takes exactly the agents that were last heard of before its cutoff, and moves no other. */
  lemma {:induction false} SweepIsExact(cfg: Config, run: seq<Label>, cutoff: int, a: AgentId)
    requires cfg.maxAttempts >= 1 && ValidRun(cfg, INITIAL, run)
    ensures var k := After(cfg, INITIAL, run).loop;
            var k' := Apply(cfg, After(cfg, INITIAL, run), HeartbeatSweep(cutoff)).loop;
            && (a in k'.registry <==> LastBeat(run, a).Some? && LastBeat(run, a).value >= cutoff)
            && (a in k'.registry ==> a in k.registry && k'.registry[a] == k.registry[a])
  {
    RegisteredIsLastBeat(cfg, run, a);
  }
}
