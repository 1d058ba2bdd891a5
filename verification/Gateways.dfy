/**
 The gateway's own memory: registry, dispatch locks, suspended coroutines and what was sent. `loop` is its
 value, and every method is proved to do to that value what the matching function of System does.
 */
module Gateways {
  import opened Jobs
  import opened System
  import opened Registries

  class Gateway {
    var registry: AgentRegistry
    /** Every connection object a coroutine may still refer to, by name. */
    var connections: map<nat, AgentConnection>
    var locks: map<AgentId, nat>
    var held: map<nat, nat>
    var procs: map<nat, Proc>
    var next: nat
    var sent: seq<Message>
    ghost var loop: Loop
    /** The gateway's objects, those it no longer needs included. */
    ghost var Repr: set<object>

    ghost function Objects(): set<AgentConnection>
      reads this`connections
    {
      set c | c in connections :: connections[c]
    }

    ghost predicate ConnectionsOk()
      reads this`connections, this`loop, Objects()
    {
      && connections.Keys == loop.conns.Keys
      && forall c :: c in connections ==> connections[c].name == c && connections[c].View() == loop.conns[c]
    }

    /** The registry's own objects are the known ones of the same name. */
    ghost predicate RegistryOk()
      reads this`connections, this`registry, this`loop, registry
    {
      && registry.agents.Keys == loop.registry.Keys
      && forall a :: a in registry.agents ==>
           && registry.agents[a].name == loop.registry[a] && registry.agents[a].agentId == a
           && loop.registry[a] in connections && connections[loop.registry[a]] == registry.agents[a]
    }

    ghost predicate FramesOk()
      reads this
    {
      && locks == loop.locks && held == loop.held && procs == loop.procs && next == loop.next && sent == loop.sent
      && (forall c :: c in connections ==> c < next)
      && (forall pid :: pid in procs && procs[pid].Sending? ==> procs[pid].conn in connections)
    }

    ghost predicate Valid()
      reads this, registry, Objects()
    {
      ConnectionsOk() && RegistryOk() && FramesOk() && {this, registry} <= Repr && Objects() <= Repr
    }

    constructor ()
      ensures Valid() && loop == EMPTY_LOOP && Repr == {this, registry} && fresh(registry)
    {
      registry := new AgentRegistry();
      connections, locks, held, procs, next, sent := map[], map[], map[], map[], 0, [];
      loop := EMPTY_LOOP;
      Repr := {this, registry};
    }

    /** The agent's dispatch lock, made on first use. */
    method LockFor(a: AgentId) returns (lock: nat)
      modifies this`locks
      ensures lock == (if a in old(locks) then old(locks)[a] else next + 1)
      ensures locks == old(locks)[a := lock]
    {
      if a in locks {
        lock := locks[a];
      } else {
        lock := next + 1;
        locks := locks[a := lock];
      }
    }

    /** dispatch_pending up to its first await: queue on the agent's lock. */
    method EnterDispatch(a: AgentId) returns (pid: nat)
      requires Valid()
      modifies this`locks, this`procs, this`next, this`loop
      ensures Valid() && loop == Enter(old(loop), a) && pid == old(next)
    {
      var lock := LockFor(a);
      pid := next;
      procs := procs[pid := Waiting(a, lock)];
      next := next + 2;
      loop := Enter(loop, a);
    }

    /** Suspend a coroutine that sends a cancel message. */
    method Suspend(p: Proc) returns (pid: nat)
      requires Valid() && p.Cancelling?
      modifies this`procs, this`next, this`loop
      ensures Valid() && loop == System.Suspend(old(loop), p) && pid == old(next)
    {
      pid := next;
      procs := procs[pid := p];
      next := next + 1;
      loop := System.Suspend(loop, p);
    }

    /** A suspended coroutine ends. */
    method Leave(pid: nat)
      requires Valid()
      modifies this`procs, this`loop
      ensures Valid() && loop == System.Leave(old(loop), pid)
    {
      procs := procs - {pid};
      loop := System.Leave(loop, pid);
    }

    /** The connection a message to the agent would go to. */
    method Lookup(a: AgentId) returns (conn: Option<nat>)
      requires Valid()
      ensures conn == System.Lookup(loop, a)
      ensures conn == if a in registry.agents then Some(registry.agents[a].name) else None
    {
      var c := registry.Get(a);
      conn := if c == null then None else Some(c.name);
    }

    /** Keep the record that a message was sent. */
    method Deliver(ok: bool, m: Message)
      requires Valid()
      modifies this`sent, this`loop
      ensures Valid() && loop == System.Deliver(old(loop), ok, m)
    {
      if ok {
        sent := sent + [m];
      }
      loop := System.Deliver(loop, ok, m);
    }

    /** A cancel message, to the connection found when the coroutine began, if there was one. */
    method DeliverCancel(ok: bool, conn: Option<nat>, id: JobId)
      requires Valid()
      modifies this`sent, this`loop
      ensures Valid()
      ensures loop == if conn.Some? then System.Deliver(old(loop), ok, CancelMessage(conn.value, id)) else old(loop)
      ensures sent == if ok && conn.Some? then old(sent) + [CancelMessage(conn.value, id)] else old(sent)
    {
      if conn.Some? {
        Deliver(ok, CancelMessage(conn.value, id));
      }
    }

    method Connect(a: AgentId, t: int)
      requires Valid()
      modifies this`connections, this`next, this`loop, this`Repr, registry
      ensures Valid() && loop == System.Connect(old(loop), a, t)
      ensures registry == old(registry) && fresh(Repr - old(Repr))
    {
      var conn := registry.Register(a, next, t);
      connections := connections[next := conn];
      next := next + 1;
      loop, Repr := System.Connect(loop, a, t), Repr + {conn};
    }

    /** An agent registers, and a dispatch for it is queued. */
    method Admit(a: AgentId, t: int)
      requires Valid()
      modifies this`connections, this`locks, this`procs, this`next, this`loop, this`Repr, registry
      ensures Valid() && loop == Enter(System.Connect(old(loop), a, t), a)
      ensures registry == old(registry) && fresh(Repr - old(Repr))
    {
      Connect(a, t);
      var _ := EnterDispatch(a);
    }

    /** Whether the agent is registered and idle, and on which connection. */
    method IdleConnection(a: AgentId) returns (conn: Option<nat>)
      requires Valid()
      ensures conn == if Idle(loop, a) then Some(loop.registry[a]) else None
    {
      var c := registry.Get(a);
      conn := if c == null || !c.IsIdle() then None else Some(c.name);
    }

    /** Enter the critical section and start to send the picked job. */
    method StartSend(pid: nat, conn: nat, job: Row)
      requires Valid() && pid in procs && procs[pid].Waiting? && conn in connections
      modifies this`held, this`procs, this`loop
      ensures Valid() && loop == System.StartSend(old(loop), pid, conn, job)
    {
      var p := procs[pid];
      held := held[p.lock := pid];
      procs := procs[pid := Sending(p.agent, p.lock, conn, job)];
      loop := System.StartSend(loop, pid, conn, job);
    }

    /** Leave the critical section. */
    method Release(pid: nat)
      requires Valid() && pid in procs && procs[pid].Sending?
      modifies this`held, this`procs, this`loop
      ensures Valid() && loop == System.Release(old(loop), pid)
    {
      held := held - {procs[pid].lock};
      procs := procs - {pid};
      loop := System.Release(loop, pid);
    }

    /** Change one connection object. */
    method MarkBusy(c: nat)
      requires Valid() && c in connections
      modifies connections[c], this`loop
      ensures Valid() && loop == SetConn(old(loop), c, System.MarkBusy(old(loop).conns[c]))
    {
      connections[c].MarkBusy();
      loop := SetConn(loop, c, System.MarkBusy(loop.conns[c]));
    }

    /** The send succeeded: release the lock, record the message, and count the job on the connection that was
        picked, whichever connection the agent has by now. */
    method Finish(pid: nat)
      requires Valid() && pid in procs && procs[pid].Sending?
      modifies this`held, this`procs, this`sent, this`loop, Objects()
      ensures Valid() && loop == System.Finish(old(loop), pid)
    {
      var p := procs[pid];
      Release(pid);
      Deliver(true, JobMessage(p.conn, p.job.jobId));
      MarkBusy(p.conn);
    }

    method FreeSession(a: AgentId)
      requires Valid()
      modifies Objects(), this`loop
      ensures Valid() && loop == System.FreeSession(old(loop), a)
    {
      var conn := registry.Get(a);
      if conn != null {
        conn.MarkFree();
      }
      loop := System.FreeSession(loop, a);
    }

    method Touch(a: AgentId, t: int)
      requires Valid()
      modifies Objects(), this`loop
      ensures Valid() && loop == System.Touch(old(loop), a, t)
      ensures forall b :: b in registry.agents ==>
                registry.agents[b].lastHeartbeat == if b == a then t else old(registry.agents[b].lastHeartbeat)
    {
      var conn := registry.Get(a);
      if conn != null {
        conn.Touch(t);
      }
      loop := System.Touch(loop, a, t);
    }

    /** The cleanup of a closed connection: whatever connection the agent has by now is unregistered, and the
        agent's lock is dropped whether or not it is in use. */
    method Disconnect(a: AgentId)
      requires Valid()
      modifies this`locks, this`loop, registry
      ensures Valid()
      ensures loop == old(loop).(registry := old(loop).registry - {a}, locks := old(loop).locks - {a})
    {
      registry.Unregister(a);
      locks := locks - {a};
      loop := loop.(registry := loop.registry - {a}, locks := loop.locks - {a});
    }

    /** A connection object shows what the loop says about its agent. */
    lemma StaleIsSeen(a: AgentId, cutoff: int)
      requires Valid()
      ensures a in registry.agents <==> a in loop.registry
      ensures a in registry.agents ==> (IsStale(loop, a, cutoff) <==> registry.agents[a].lastHeartbeat < cutoff)
    {
    }

    lemma SweptAsSeen(cutoff: int)
      requires Valid()
      ensures System.Sweep(loop, cutoff).registry.Keys ==
              set a | a in registry.agents && registry.agents[a].lastHeartbeat >= cutoff
      ensures var left := System.Sweep(loop, cutoff).registry;
              forall a :: a in left ==> a in loop.registry && left[a] == loop.registry[a]
    {
      forall a ensures a in System.Sweep(loop, cutoff).registry <==>
                         a in registry.agents && registry.agents[a].lastHeartbeat >= cutoff
      {
        StaleIsSeen(a, cutoff);
      }
    }

    /** The heartbeat watcher's scan: unregister every stale agent, and leave its lock alone. */
    method Sweep(cutoff: int)
      requires Valid()
      modifies this`loop, registry
      ensures Valid() && loop == System.Sweep(old(loop), cutoff)
      ensures registry.agents ==
                map a | a in old(registry.agents) && old(registry.agents[a].lastHeartbeat) >= cutoff :: old(registry.agents)[a]
    {
      ghost var swept := System.Sweep(loop, cutoff);
      SweptAsSeen(cutoff);
      registry.UnregisterStale(cutoff);
      assert registry.agents.Keys == swept.registry.Keys;
      loop := swept;
      assert ConnectionsOk() && RegistryOk();
    }

    /** A server restart: the process memory starts afresh. */
    method Restart()
      requires Valid()
      modifies this
      ensures Valid() && loop == old(loop).(registry := map[], locks := map[], held := map[], procs := map[])
      ensures fresh(Repr - old(Repr))
    {
      registry := new AgentRegistry();
      locks, held, procs := map[], map[], map[];
      loop := loop.(registry := map[], locks := map[], held := map[], procs := map[]);
      Repr := Repr + {registry};
    }
  }
}
