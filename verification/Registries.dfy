/** The agent registry with its connection objects, and the event table. */
module Registries {
  import opened Jobs
  import opened System

  /** One connection object. `name` is its identity: two connections of one agent are different objects. */
  class AgentConnection {
    const name: nat
    const agentId: AgentId
    var lastHeartbeat: int
    var inFlight: nat

    function View(): Conn
      reads this
    {
      Conn(agentId, inFlight, lastHeartbeat)
    }

    constructor (name: nat, agentId: AgentId, t: int)
      ensures this.name == name && View() == Conn(agentId, 0, t)
    {
      this.name, this.agentId := name, agentId;
      lastHeartbeat, inFlight := t, 0;
    }

    predicate IsIdle()
      reads this
    {
      inFlight == 0
    }

    method Touch(t: int)
      modifies this
      ensures View() == old(View()).(lastHeartbeat := t)
    {
      lastHeartbeat := t;
    }

    method MarkBusy()
      modifies this
      ensures View() == System.MarkBusy(old(View())) && inFlight == old(inFlight) + 1
    {
      inFlight := inFlight + 1;
    }

    method MarkFree()
      modifies this
      ensures View() == System.MarkFree(old(View()))
      ensures inFlight == if old(inFlight) == 0 then 0 else old(inFlight) - 1
    {
      inFlight := if inFlight > 0 then inFlight - 1 else 0;
    }
  }

  class AgentRegistry {
    var agents: map<AgentId, AgentConnection>

    constructor ()
      ensures agents == map[]
    {
      agents := map[];
    }

    /** A new connection takes the agent's place, whether or not an older one is still open. */
    method Register(a: AgentId, name: nat, t: int) returns (conn: AgentConnection)
      modifies this
      ensures fresh(conn) && conn.name == name && conn.View() == Conn(a, 0, t)
      ensures agents == old(agents)[a := conn]
    {
      conn := new AgentConnection(name, a, t);
      agents := agents[a := conn];
    }

    method Unregister(a: AgentId)
      modifies this
      ensures agents == old(agents) - {a}
    {
      agents := agents - {a};
    }

    method Get(a: AgentId) returns (conn: AgentConnection?)
      ensures conn == if a in agents then agents[a] else null
    {
      conn := if a in agents then agents[a] else null;
    }

    /** Every registered connection whose last heartbeat is older than the cutoff, and no other. */
    method StaleAgents(cutoff: int) returns (stale: seq<AgentConnection>)
      ensures forall i :: 0 <= i < |stale| ==> stale[i] in agents.Values && stale[i].lastHeartbeat < cutoff
      ensures forall a :: a in agents && agents[a].lastHeartbeat < cutoff ==> agents[a] in stale
    {
      stale := [];
      var todo := agents.Keys;
      while todo != {}
        invariant todo <= agents.Keys
        invariant forall i :: 0 <= i < |stale| ==> stale[i] in agents.Values && stale[i].lastHeartbeat < cutoff
        invariant forall a :: a in agents && a !in todo && agents[a].lastHeartbeat < cutoff ==> agents[a] in stale
        decreases |todo|
      {
        var a :| a in todo;
        if agents[a].lastHeartbeat < cutoff {
          stale := stale + [agents[a]];
        }
        todo := todo - {a};
      }
    }

    /** The heartbeat watcher's loop. */
    method UnregisterStale(cutoff: int)
      requires forall a :: a in agents ==> agents[a].agentId == a
      modifies this
      ensures agents == map a | a in old(agents) && old(agents)[a].lastHeartbeat >= cutoff :: old(agents)[a]
    {
      var stale := StaleAgents(cutoff);
      ghost var all := agents;
      for i := 0 to |stale|
        invariant agents.Keys <= all.Keys
        invariant forall a :: a in agents ==> agents[a] == all[a]
        invariant forall a :: a in all && all[a] !in stale[..i] ==> a in agents
        invariant forall k :: 0 <= k < i ==> stale[k].agentId !in agents
      {
        Unregister(stale[i].agentId);
      }
      assert stale[..|stale|] == stale;
    }
  }

  class EventRepository {
    var rows: seq<EventRow>

    constructor ()
      ensures rows == []
    {
      rows := [];
    }

    method Append(id: JobId, e: Event)
      modifies this
      ensures rows == old(rows) + [EventRow(id, e)]
    {
      rows := rows + [EventRow(id, e)];
    }

    method ListForJob(id: JobId) returns (listed: seq<Event>)
      ensures listed == System.ListForJob(rows, id)
    {
      listed := [];
      for i := 0 to |rows|
        invariant listed == System.ListForJob(rows[..i], id)
      {
        assert rows[..i + 1][..i] == rows[..i];
        if rows[i].jobId == id {
          listed := listed + [rows[i].event];
        }
      }
      assert rows[..|rows|] == rows;
    }
  }
}
