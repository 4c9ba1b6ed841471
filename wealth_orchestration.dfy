/**
 * wealth-management-agent/orchestration.py as an instance of the shared orchestration: its
 * fallback subtask, its six specialists, its dispatch chain and its advisory synthesis prompt.
 */
module WealthOrchestration {
  import opened Wrappers
  import Dicts
  import Agents
  import opened Tasks
  import WealthRegistry
  import WealthAgents
  import opened Orchestration
  import Execution

  /** The names `coordinate_specialist_execution` dispatches on. */
  const DispatchNames: seq<string> := [
    "market_intelligence_analyst", "quantitative_analyst", "wealth_strategist",
    "fintech_solutions_architect", "client_communications_specialist", "regulatory_compliance_officer"]

  const SynthesisOpening := "As a senior wealth advisor, synthesize these specialist findings into a clear, actionable client advisory response.\n        \nOriginal Client Inquiry: "
  const SynthesisMiddle := "\n\nSpecialist Findings:\n"
  const SynthesisClosing := "\n\nPlease provide a comprehensive advisory response that:\n1. Addresses the client's original inquiry directly\n2. Integrates insights from all specialist analyses\n3. Provides clear, actionable recommendations\n4. Highlights any risks or considerations\n5. Uses professional wealth advisory language appropriate for client communication\n"

  function WealthConfig(): Config<WealthRegistry.TaskType> {
    Config(WealthRegistry.FromValue, ["market_data_search"], ["market_research"], WealthAgents.AgentPool(),
           DispatchNames, "Unknown specialist type: ", SynthesisOpening, SynthesisMiddle,
           SpecialistFindings, SynthesisClosing)
  }

  /**
   * The dispatch chain knows exactly the pool's names, and every pool agent is named by its key,
   * so the name an assignment stores is always one the executor can look up and run.
   */
  lemma DispatchMatchesPool()
    ensures Dicts.Keys(WealthConfig().pool) == DispatchNames
    ensures forall i :: 0 <= i < |WealthConfig().pool| ==>
      WealthConfig().pool[i].0 in DispatchNames && WealthConfig().pool[i].1.name == WealthConfig().pool[i].0
  {
    WealthAgents.PoolConsistent();
    WealthAgents.RegistryConsistent();
    DispatchCovers(WealthConfig(), "");
  }

  /** An unparsable analysis reply gives the single general subtask with market-data tools. */
  lemma FallbackDecomposition(query: string)
    ensures DecomposeSpec(WealthConfig(), query, AnalysisUnparsable) ==
      Ok(Decomposition(query,
        [SubTask("task_1", query, WealthRegistry.General, 3, [], ["market_data_search"], ["market_research"])],
        ["task_1"], [["task_1"]]))
  {
    var cfg := WealthConfig();
    WealthRegistry.TaskTypeValuesExact("general", WealthRegistry.General);
    assert WealthRegistry.Value(WealthRegistry.General) == "general";
    DecomposeFallback(cfg, query, WealthRegistry.General);
  }

  /**
   * Starting from any specialist, with well-formed delegation replies and runs that complete,
   * coordination completes: every delegation target it follows is a specialist it can run.
   */
  lemma CoordinationCompletes(maxDepth: int, name: string, task: SubTask<WealthRegistry.TaskType>, depth: int, ask: (Agents.Agent, SubTask<WealthRegistry.TaskType>, int) -> Execution.DelegationReply, run: (Agents.Agent, SubTask<WealthRegistry.TaskType>) -> Result<string>)
    requires name in DispatchNames
    requires forall a, t, dep :: Execution.WellFormedDelegation(ask(a, t, dep))
    requires forall a, t :: run(a, t).Ok?
    ensures Execution.CoordinateSpec(WealthConfig(), maxDepth, name, task, depth, ask, run).outcome.Ok?
  {
    DispatchMatchesPool();
    Execution.CoordinateKnown(WealthConfig(), maxDepth, name, task, depth, ask, run);
  }
}
