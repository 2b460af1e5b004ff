/** The `Agent` and `AgentGroup` entities of the Java back end: heartbeat
    liveness of an agent, and group membership with the agent's back-pointer
    to its group. Membership is a set of agent objects (the entities do not
    override `equals`, so a Java `HashSet` of them compares by identity). */
module AgentModel {
  import opened Common

  /** Seconds after its last heartbeat during which an agent counts as online. */
  const OnlineWindow: int := 90

  datatype AgentStatus = Pending | Active | Inactive | Suspended | Deleted

  /** `isOnline` at clock value `now`: there is a heartbeat, and it lies
      strictly after `now - 90`. */
  predicate Online(lastHeartbeat: Option<int>, now: int) {
    lastHeartbeat.Some? && now - OnlineWindow < lastHeartbeat.value
  }

  /** A heartbeat taken at `now` makes the agent online at `now`, and it
      stays online through `now + 89` and no longer. */
  lemma HeartbeatLasts(now: int, later: int)
    ensures Online(Some(now), now)
    ensures now <= later ==> (Online(Some(now), later) <==> later < now + OnlineWindow)
  {
  }

  /** Time only takes liveness away: an agent offline at `now` is offline at
      every later clock value, until a new heartbeat. */
  lemma OfflineStaysOffline(lastHeartbeat: Option<int>, now: int, later: int)
    requires !Online(lastHeartbeat, now) && now <= later
    ensures !Online(lastHeartbeat, later)
  {
  }

  class Agent {
    var agentId: string
    var name: string
    var platform: string
    var version: string
    var status: AgentStatus
    var lastHeartbeat: Option<int>
    var active: bool
    var autoApproved: bool
    var group: AgentGroup?

    /** The four-argument constructor; every other field takes its default. */
    constructor (agentId: string, name: string, platform: string, version: string)
      ensures this.agentId == agentId && this.name == name
      ensures this.platform == platform && this.version == version
      ensures status == Pending && lastHeartbeat == None && active && !autoApproved && group == null
      ensures forall now :: !IsOnline(now)
    {
      this.agentId := agentId;
      this.name := name;
      this.platform := platform;
      this.version := version;
      status := Pending;
      lastHeartbeat := None;
      active := true;
      autoApproved := false;
      group := null;
    }

    predicate IsOnline(now: int)
      reads this
    {
      Online(lastHeartbeat, now)
    }

    method UpdateHeartbeat(now: int)
      modifies this`lastHeartbeat
      ensures lastHeartbeat == Some(now) && IsOnline(now)
    {
      lastHeartbeat := Some(now);
    }
  }

  class AgentGroup {
    var groupId: string
    var name: string
    var active: bool
    var agents: set<Agent>

    constructor (groupId: string, name: string)
      ensures this.groupId == groupId && this.name == name && active && agents == {}
    {
      this.groupId := groupId;
      this.name := name;
      active := true;
      agents := {};
    }

    /** `addAgent`: adds to the set (a second add changes nothing) and points
        the agent at this group. */
    method AddAgent(agent: Agent)
      modifies this`agents, agent`group
      ensures agents == old(agents) + {agent} && agent.group == this
      ensures agent in old(agents) ==> AgentCount() == old(AgentCount())
      ensures agent !in old(agents) ==> AgentCount() == old(AgentCount()) + 1
    {
      if agent in agents {
        assert agents + {agent} == agents;
      }
      agents := agents + {agent};
      agent.group := this;
    }

    /** `removeAgent`: removes from the set and clears the agent's group. */
    method RemoveAgent(agent: Agent)
      modifies this`agents, agent`group
      ensures agents == old(agents) - {agent} && agent.group == null
    {
      agents := agents - {agent};
      agent.group := null;
    }

    function AgentCount(): (n: nat)
      reads this
    {
      |agents|
    }

    /** The members whose `active` flag is set. */
    function ActiveAgents(): (s: set<Agent>)
      reads this, agents
      ensures s <= agents
      ensures forall a | a in agents :: a in s <==> a.active
    {
      set a | a in agents && a.active
    }

    /** The members online at `now`. */
    function OnlineAgents(now: int): (s: set<Agent>)
      reads this, agents
      ensures s <= agents
      ensures forall a | a in agents :: a in s <==> a.IsOnline(now)
    {
      set a | a in agents && a.IsOnline(now)
    }

    /** `getActiveAgentCount`. */
    function ActiveAgentCount(): (n: nat)
      reads this, agents
      ensures n == |ActiveAgents()|
      ensures n <= AgentCount()
      ensures n == AgentCount() <==> forall a | a in agents :: a.active
    {
      SubsetCardinality(ActiveAgents(), agents);
      if ActiveAgents() == agents then |agents|
      else
        var a :| a in agents && a !in ActiveAgents();
        StrictSubsetCardinality(ActiveAgents(), agents, a);
        |ActiveAgents()|
    }

    /** `getOnlineAgentCount`. */
    function OnlineAgentCount(now: int): (n: nat)
      reads this, agents
      ensures n == |OnlineAgents(now)|
      ensures n <= AgentCount()
      ensures n == AgentCount() <==> forall a | a in agents :: a.IsOnline(now)
    {
      SubsetCardinality(OnlineAgents(now), agents);
      if OnlineAgents(now) == agents then |agents|
      else
        var a :| a in agents && a !in OnlineAgents(now);
        StrictSubsetCardinality(OnlineAgents(now), agents, a);
        |OnlineAgents(now)|
    }
  }

  /** A subset missing an element of its superset is strictly smaller. */
  lemma {:induction false} StrictSubsetCardinality<T>(a: set<T>, b: set<T>, x: T)
    requires a <= b && x in b && x !in a
    ensures |a| < |b|
  {
    SubsetCardinality(a, b - {x});
  }

  /** The back-pointer is not kept consistent: adding an agent to a second
      group re-points it without removing it from the first group's set. */
  method BackPointerCanDisagree() returns (first: AgentGroup, second: AgentGroup, agent: Agent)
    ensures first != second
    ensures agent in first.agents && agent in second.agents && agent.group == second
  {
    first := new AgentGroup("g1", "first");
    second := new AgentGroup("g2", "second");
    agent := new Agent("a1", "agent", "LINUX", "1.0");
    first.AddAgent(agent);
    second.AddAgent(agent);
  }
}
