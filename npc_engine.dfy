/**
 * The NPC mission engine (src/npc_engine/engine.py): a registry of agents,
 * the animations injected into them, a loaded scenario, and a placeholder
 * mission run that reports per-agent data and a reward of 5.0 per objective.
 *
 * Python dicts keep insertion order; the engine keeps the order in which
 * agents were registered beside the `agents` map, as `get_mission_stats`
 * lists the agents in that order.
 */
module NpcEngine {
  import opened Optional
  import opened PyValue

  /** `agents[agent_id]`: role, animation path (None until one is given) and status. */
  datatype AgentInfo = AgentInfo(role: string, animationPath: Option<string>, status: string)

  /** `agent_data[agent_id]` in a mission result. */
  datatype AgentData = AgentData(role: string, animation: Option<string>, reward: real, actions: seq<string>)

  /** `MissionResult` without the execution time. */
  datatype MissionResult = MissionResult(
    success: bool,
    missionId: string,
    totalReward: real,
    objectivesCompleted: nat,
    agentsData: map<string, AgentData>,
    animationSequences: map<string, seq<Option<string>>>,
    errorMessage: Option<string>)

  /** The dictionary `get_mission_stats` returns. */
  datatype MissionStats = MissionStats(
    missionId: Option<string>,
    numAgents: nat,
    agents: seq<string>,
    blendedAnimations: nat,
    scenarioLoaded: bool)

  /** A failed `MissionResult`: every other field keeps its default. */
  function Failed(id: string, message: string): MissionResult {
    MissionResult(false, id, 0.0, 0, map[], map[], Some(message))
  }

  /** `len(scenario.get("objectives", []))`; `len` raises on a value without a length. */
  function ObjectiveCount(scenario: map<string, Value>): Outcome<nat> {
    if "objectives" in scenario then Len(scenario["objectives"]) else Ok(0)
  }

  /** The entry a registered agent contributes to `agents_data`. */
  function AgentEntry(info: AgentInfo): AgentData {
    AgentData(info.role, info.animationPath, 0.0, [])
  }

  /**
   * What `execute_mission` returns for the given agents and scenario: agents
   * are checked before the scenario, and an exception is reported as a failure
   * carrying its message.
   */
  function MissionOutcome(agents: map<string, AgentInfo>, scenario: Option<map<string, Value>>, id: string): (r: MissionResult)
    ensures r.missionId == id
    ensures r.success <==> agents != map[] && scenario.Some? && scenario.value != map[] && ObjectiveCount(scenario.value).Ok?
    ensures agents == map[] ==> r.errorMessage == Some("No agents registered for mission")
    ensures agents != map[] && (scenario.None? || scenario.value == map[]) ==>
      r.errorMessage == Some("No scenario loaded for mission")
    ensures !r.success ==> r.errorMessage.Some? && r == Failed(id, r.errorMessage.value)
    ensures r.success ==> r.errorMessage.None? && r.objectivesCompleted == ObjectiveCount(scenario.value).value
    ensures r.totalReward == 5.0 * r.objectivesCompleted as real
  {
    if agents == map[] then Failed(id, "No agents registered for mission")
    else if scenario.None? || scenario.value == map[] then Failed(id, "No scenario loaded for mission")
    else
      match ObjectiveCount(scenario.value)
      case Raised(e) => Failed(id, e.message)
      case Ok(n) =>
        MissionResult(true, id, 5.0 * n as real, n,
                      map a | a in agents :: AgentEntry(agents[a]),
                      map a | a in agents :: [agents[a].animationPath],
                      None)
  }

  /** `execute_mission` once both checks have passed. */
  lemma MissionAfterChecks(agents: map<string, AgentInfo>, config: map<string, Value>, id: string)
    requires agents != map[] && config != map[]
    ensures ObjectiveCount(config).Raised? ==>
      MissionOutcome(agents, Some(config), id) == Failed(id, ObjectiveCount(config).exc.message)
    ensures ObjectiveCount(config).Ok? ==>
      MissionOutcome(agents, Some(config), id)
      == MissionResult(true, id, 5.0 * ObjectiveCount(config).value as real, ObjectiveCount(config).value,
                       map a | a in agents :: AgentEntry(agents[a]),
                       map a | a in agents :: [agents[a].animationPath],
                       None)
  {
  }

  /** A successful mission reports every registered agent, and only those, with its role and animation. */
  lemma MissionReportsAgents(agents: map<string, AgentInfo>, scenario: Option<map<string, Value>>, id: string)
    requires MissionOutcome(agents, scenario, id).success
    ensures MissionOutcome(agents, scenario, id).agentsData.Keys == agents.Keys
    ensures MissionOutcome(agents, scenario, id).animationSequences.Keys == agents.Keys
    ensures forall a :: a in agents ==>
      && MissionOutcome(agents, scenario, id).agentsData[a] == AgentData(agents[a].role, agents[a].animationPath, 0.0, [])
      && MissionOutcome(agents, scenario, id).animationSequences[a] == [agents[a].animationPath]
  {
  }

  /** Building `agents_data` in the order of `order` gives the same map as building it over the keys. */
  lemma EntriesByOrder(order: seq<string>, agents: map<string, AgentInfo>)
    requires forall a :: a in agents ==> a in order
    requires forall i :: 0 <= i < |order| ==> order[i] in agents
    ensures (map a | a in order :: AgentEntry(agents[a])) == (map a | a in agents :: AgentEntry(agents[a]))
  {
  }

  /** One more agent of `order` adds its entry to `agents_data`. */
  lemma EntriesStep(order: seq<string>, agents: map<string, AgentInfo>, i: nat)
    requires i < |order|
    requires forall k :: 0 <= k < |order| ==> order[k] in agents
    ensures (map a | a in order[..i + 1] :: AgentEntry(agents[a]))
         == (map a | a in order[..i] :: AgentEntry(agents[a]))[order[i] := AgentEntry(agents[order[i]])]
  {
    assert order[..i + 1] == order[..i] + [order[i]];
  }

  /** No element occurs twice. */
  predicate Distinct(s: seq<string>) {
    forall i, j :: 0 <= i < j < |s| ==> s[i] != s[j]
  }

  /** A sequence without repetitions has as many elements as its set. */
  lemma {:induction false} DistinctCard(s: seq<string>)
    requires Distinct(s)
    ensures |set x | x in s| == |s|
  {
    if s != [] {
      var init := s[..|s| - 1];
      var last := s[|s| - 1];
      assert Distinct(init);
      DistinctCard(init);
      assert (set x | x in s) == (set x | x in init) + {last};
      assert last !in init;
    }
  }

  /** `NPCEngine`. */
  class NPCEngine {
    var missionId: Option<string>
    var agents: map<string, AgentInfo>
    /** The keys of `agents`, in registration order. */
    var order: seq<string>
    var scenario: Option<map<string, Value>>
    var blendedAnimations: map<string, string>

    /**
     * `order` lists each agent once, and every injected animation belongs to a
     * registered agent and is that agent's current animation.
     */
    predicate Valid()
      reads this
    {
      && Distinct(order)
      && (forall a :: a in agents ==> a in order)
      && (forall i :: 0 <= i < |order| ==> order[i] in agents)
      && (forall a :: a in blendedAnimations ==> a in agents && agents[a].animationPath == Some(blendedAnimations[a]))
    }

    /** `NPCEngine()`: the empty initial state. */
    constructor ()
      ensures Valid()
      ensures missionId == None && agents == map[] && order == [] && scenario == None && blendedAnimations == map[]
    {
      missionId := None;
      agents := map[];
      order := [];
      scenario := None;
      blendedAnimations := map[];
    }

    /** `register_agent`: refuses an id already registered. */
    method RegisterAgent(id: string, role: string, animationPath: Option<string>) returns (ok: bool)
      requires Valid()
      modifies this
      ensures Valid()
      ensures ok <==> id !in old(agents)
      ensures agents == if ok then old(agents)[id := AgentInfo(role, animationPath, "ready")] else old(agents)
      ensures order == if ok then old(order) + [id] else old(order)
      ensures missionId == old(missionId) && scenario == old(scenario) && blendedAnimations == old(blendedAnimations)
    {
      if id in agents {
        return false;
      }
      agents := agents[id := AgentInfo(role, animationPath, "ready")];
      order := order + [id];
      ok := true;
    }

    /** `inject_animation`: sets the agent's animation and records it as blended. */
    method InjectAnimation(id: string, animationPath: string) returns (ok: bool)
      requires Valid()
      modifies this
      ensures Valid()
      ensures ok <==> id in old(agents)
      ensures agents == if ok then old(agents)[id := old(agents)[id].(animationPath := Some(animationPath))] else old(agents)
      ensures blendedAnimations == if ok then old(blendedAnimations)[id := animationPath] else old(blendedAnimations)
      ensures order == old(order) && missionId == old(missionId) && scenario == old(scenario)
    {
      if id !in agents {
        return false;
      }
      agents := agents[id := agents[id].(animationPath := Some(animationPath))];
      blendedAnimations := blendedAnimations[id := animationPath];
      ok := true;
    }

    /** `load_mission_scenario`: an empty configuration is refused. */
    method LoadMissionScenario(config: map<string, Value>) returns (ok: bool)
      requires Valid()
      modifies this
      ensures Valid()
      ensures ok <==> config != map[]
      ensures scenario == if ok then Some(config) else old(scenario)
      ensures agents == old(agents) && order == old(order) && missionId == old(missionId)
      ensures blendedAnimations == old(blendedAnimations)
    {
      if config == map[] {
        return false;
      }
      scenario := Some(config);
      ok := true;
    }

    /** `execute_mission`: records the mission id, then builds the result agent by agent. */
    method ExecuteMission(id: string) returns (r: MissionResult)
      requires Valid()
      modifies this
      ensures Valid()
      ensures missionId == Some(id)
      ensures r == MissionOutcome(old(agents), old(scenario), id)
      ensures agents == old(agents) && order == old(order) && scenario == old(scenario)
      ensures blendedAnimations == old(blendedAnimations)
    {
      missionId := Some(id);
      if agents == map[] {
        return Failed(id, "No agents registered for mission");
      }
      if scenario.None? || scenario.value == map[] {
        return Failed(id, "No scenario loaded for mission");
      }
      var registered, ids, config := agents, order, scenario.value;
      var agentData: map<string, AgentData> := map[];
      var i := 0;
      while i < |ids|
        invariant 0 <= i <= |ids|
        invariant agentData == map a | a in ids[..i] :: AgentEntry(registered[a])
        modifies {}
      {
        EntriesStep(ids, registered, i);
        agentData := agentData[ids[i] := AgentEntry(registered[ids[i]])];
        i := i + 1;
      }
      assert ids[..i] == ids;
      EntriesByOrder(ids, registered);
      var count := ObjectiveCount(config);
      if count.Raised? {
        MissionAfterChecks(registered, config, id);
        return Failed(id, count.exc.message);
      }
      MissionAfterChecks(registered, config, id);
      r := MissionResult(true, id, 5.0 * count.value as real, count.value, agentData,
                         map a | a in agents :: [agents[a].animationPath], None);
    }

    /** `get_mission_stats`. */
    function MissionStatistics(): (s: MissionStats)
      reads this
      requires Valid()
      ensures s.missionId == missionId
      ensures s.numAgents == |agents| == |s.agents|
      ensures s.agents == order && forall a :: a in s.agents <==> a in agents
      ensures s.scenarioLoaded <==> scenario.Some?
      ensures s.blendedAnimations == |blendedAnimations| <= |agents|
    {
      DistinctCard(order);
      assert (set x | x in order) == agents.Keys;
      assert blendedAnimations.Keys <= agents.Keys;
      SubsetCard(blendedAnimations.Keys, agents.Keys);
      MissionStats(missionId, |agents|, order, |blendedAnimations|, scenario.Some?)
    }

    /** `reset`: back to the initial state. */
    method Reset()
      modifies this
      ensures Valid()
      ensures missionId == None && agents == map[] && order == [] && scenario == None && blendedAnimations == map[]
    {
      missionId := None;
      agents := map[];
      order := [];
      scenario := None;
      blendedAnimations := map[];
    }
  }

  lemma SubsetCard(a: set<string>, b: set<string>)
    requires a <= b
    ensures |a| <= |b|
  {
    assert b == a + (b - a);
  }

  /** After `reset` the statistics are those of a fresh engine. */
  lemma ResetStats(e: NPCEngine)
    requires e.Valid()
    requires e.missionId == None && e.agents == map[] && e.scenario == None && e.blendedAnimations == map[]
    ensures e.MissionStatistics() == MissionStats(None, 0, [], 0, false)
  {
  }

  /** Without agents a mission fails on that count, whatever the scenario. */
  lemma NoAgentsFirst(scenario: Option<map<string, Value>>, id: string)
    ensures MissionOutcome(map[], scenario, id) == Failed(id, "No agents registered for mission")
  {
  }

  /** A scenario with `n` objectives earns 5.0 per objective. */
  lemma RewardPerObjective(agents: map<string, AgentInfo>, scenario: map<string, Value>, id: string, objectives: seq<Value>)
    requires agents != map[] && "objectives" in scenario && scenario["objectives"] == List(objectives)
    ensures MissionOutcome(agents, Some(scenario), id).success
    ensures MissionOutcome(agents, Some(scenario), id).totalReward == 5.0 * |objectives| as real
  {
  }

  /** An `objectives` entry without a length makes the mission fail with the `TypeError`'s message. */
  lemma ObjectivesWithoutLength(agents: map<string, AgentInfo>, scenario: map<string, Value>, id: string, n: int)
    requires agents != map[] && "objectives" in scenario && scenario["objectives"] == Int(n)
    ensures MissionOutcome(agents, Some(scenario), id) == Failed(id, "object of type 'int' has no len()")
  {
    assert "object of type '" + "int" + "' has no len()" == "object of type 'int' has no len()";
    assert Len(Int(n)) == Raised(Error(TypeError, "object of type 'int' has no len()"));
  }
}
