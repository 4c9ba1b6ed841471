/**
 * crewai-multi-agent-cookbook/orchestration.py as an instance of the shared orchestration: its
 * fallback subtask, its six agents, its dispatch chain and its synthesis prompt (no closing text).
 */
module CrewOrchestration {
  import opened Wrappers
  import Dicts
  import Agents
  import opened Tasks
  import CrewRegistry
  import CrewAgents
  import opened Orchestration
  import Execution

  /** The names `coordinate_agent_execution` dispatches on. */
  const DispatchNames: seq<string> := [
    "research_specialist", "data_analyst", "financial_advisor",
    "technical_expert", "creative_writer", "legal_advisor"]

  const SynthesisOpening := "Synthesize these task results into a cohesive response:\n        \nOriginal query: "
  const SynthesisMiddle := "\n\nTask results:\n"

  function CrewConfig(): Config<CrewRegistry.TaskType> {
    Config(CrewRegistry.FromValue, ["search_web"], ["web_research"], CrewAgents.AgentPool(),
           DispatchNames, "Unknown agent type: ", SynthesisOpening, SynthesisMiddle,
           AgentResults, "")
  }

  /**
   * The dispatch chain knows exactly the pool's names, and every pool agent is named by its key,
   * so the name an assignment stores is always one the executor can look up and run.
   */
  lemma DispatchMatchesPool()
    ensures Dicts.Keys(CrewConfig().pool) == DispatchNames
    ensures forall i :: 0 <= i < |CrewConfig().pool| ==>
      CrewConfig().pool[i].0 in DispatchNames && CrewConfig().pool[i].1.name == CrewConfig().pool[i].0
  {
    CrewAgents.PoolConsistent();
    CrewAgents.RegistryConsistent();
    DispatchCovers(CrewConfig(), "");
  }

  /** An unparsable analysis reply gives the single general subtask with web-search tools. */
  lemma FallbackDecomposition(query: string)
    ensures DecomposeSpec(CrewConfig(), query, AnalysisUnparsable) ==
      Ok(Decomposition(query,
        [SubTask("task_1", query, CrewRegistry.General, 3, [], ["search_web"], ["web_research"])],
        ["task_1"], [["task_1"]]))
  {
    var cfg := CrewConfig();
    CrewRegistry.TaskTypeValuesExact("general", CrewRegistry.General);
    assert CrewRegistry.Value(CrewRegistry.General) == "general";
    DecomposeFallback(cfg, query, CrewRegistry.General);
  }

  /**
   * Starting from any agent, with well-formed delegation replies and runs that complete,
   * coordination completes: every delegation target it follows is an agent it can run.
   */
  lemma CoordinationCompletes(maxDepth: int, name: string, task: SubTask<CrewRegistry.TaskType>, depth: int, ask: (Agents.Agent, SubTask<CrewRegistry.TaskType>, int) -> Execution.DelegationReply, run: (Agents.Agent, SubTask<CrewRegistry.TaskType>) -> Result<string>)
    requires name in DispatchNames
    requires forall a, t, dep :: Execution.WellFormedDelegation(ask(a, t, dep))
    requires forall a, t :: run(a, t).Ok?
    ensures Execution.CoordinateSpec(CrewConfig(), maxDepth, name, task, depth, ask, run).outcome.Ok?
  {
    DispatchMatchesPool();
    Execution.CoordinateKnown(CrewConfig(), maxDepth, name, task, depth, ask, run);
  }
}
