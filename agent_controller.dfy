/** `AgentController`: agents kept in a hash map keyed by agent id, with
    listing, lookup, registration, heartbeat and deletion. The stored agent
    is modelled as a record value holding the fields the controller reads
    or writes. */
module AgentController {
  import opened Common
  import opened AgentModel

  datatype AgentRecord = AgentRecord(agentId: Option<Id>, name: Option<string>,
                                     platform: Option<string>, version: Option<string>,
                                     status: AgentStatus, lastHeartbeat: Option<int>,
                                     registrationDate: Option<int>, active: bool)

  /** The body of a successful heartbeat response. */
  datatype HeartbeatReply = HeartbeatReply(status: string, timestamp: int, agentId: Id)

  class AgentController {
    var agents: map<Id, AgentRecord>
    var nextId: Id

    /** Every key is an id already drawn, and the record stored under a key
        carries that key as its agent id. */
    ghost predicate Valid()
      reads this
    {
      forall k | k in agents :: k < nextId && agents[k].agentId == Some(k)
    }

    constructor ()
      ensures agents == map[] && nextId == 0 && Valid()
    {
      agents := map[];
      nextId := 0;
    }

    /** `GET /agents`: one element per stored agent, in the map's unspecified
        iteration order `order`. */
    method GetAllAgents() returns (r: seq<AgentRecord>, order: seq<Id>)
      ensures Enumerates(order, agents)
      ensures r == ValuesAt(agents, order) && |r| == |agents|
    {
      order := Enumerate(agents);
      r := ValuesAt(agents, order);
    }

    /** `GET /agents/{id}`. */
    method GetAgent(id: Id) returns (r: Result<AgentRecord>)
      ensures id in agents ==> r == Ok(agents[id])
      ensures id !in agents ==> r == Err(NotFound)
    {
      if id in agents {
        r := Ok(agents[id]);
      } else {
        r := Err(NotFound);
      }
    }

    /** `POST /agents/register`: a fresh id, registered and heard from at
        `now`, status ACTIVE; the map gains exactly that key. */
    method RegisterAgent(agent: AgentRecord, now: int) returns (stored: AgentRecord)
      requires Valid()
      modifies this
      ensures Valid()
      ensures stored == agent.(agentId := Some(old(nextId)), registrationDate := Some(now),
                               status := Active, lastHeartbeat := Some(now))
      ensures Online(stored.lastHeartbeat, now)
      ensures old(nextId) !in old(agents) && agents == old(agents)[old(nextId) := stored]
      ensures agents.Keys == old(agents).Keys + {old(nextId)} && |agents| == |old(agents)| + 1
    {
      var id := nextId;
      nextId := nextId + 1;
      stored := agent.(agentId := Some(id), registrationDate := Some(now),
                       status := Active, lastHeartbeat := Some(now));
      agents := agents[id := stored];
    }

    /** `POST /agents/{id}/heartbeat`: the agent is heard from at `now` and
        set ACTIVE; other agents stay as they were. An unknown id is a 404
        and changes nothing. */
    method Heartbeat(id: Id, now: int) returns (r: Result<HeartbeatReply>)
      requires Valid()
      modifies this`agents
      ensures Valid()
      ensures id !in old(agents) ==> r == Err(NotFound) && agents == old(agents)
      ensures id in old(agents) ==>
                && r == Ok(HeartbeatReply("OK", now, id))
                && agents == old(agents)[id := old(agents)[id].(lastHeartbeat := Some(now), status := Active)]
                && Online(agents[id].lastHeartbeat, now)
                && agents.Keys == old(agents).Keys
    {
      if id !in agents {
        return Err(NotFound);
      }
      agents := agents[id := agents[id].(lastHeartbeat := Some(now), status := Active)];
      r := Ok(HeartbeatReply("OK", now, id));
    }

    /** `DELETE /agents/{id}`: removes exactly that key and answers 200 with
        no body, or 404; the reply carries no record. */
    method DeleteAgent(id: Id) returns (r: Result<()>)
      requires Valid()
      modifies this`agents
      ensures Valid()
      ensures id !in old(agents) ==> r == Err(NotFound) && agents == old(agents)
      ensures id in old(agents) ==> r == Ok(()) && agents == old(agents) - {id}
      ensures |agents| == if id in old(agents) then |old(agents)| - 1 else |old(agents)|
    {
      if id !in agents {
        return Err(NotFound);
      }
      r := Ok(());
      agents := agents - {id};
    }
  }
}
