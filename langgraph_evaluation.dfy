/**
 * langgraph-cookbook/evaluation.py: its `main` messages and its evaluation dataset. The file
 * drives the multi-agent session of the CrewAI orchestration, so its task types are that one's.
 */
module LanggraphEvaluation {
  import opened Wrappers
  import Text
  import Dicts
  import PyValue
  import Workflow
  import CrewRegistry
  import CrewOrchestration
  import opened Evaluations

  const NoQuery := "No query or task provided"
  const ErrorPrefix := "Error processing query: "

  /** `main`; `run` is `run_single_query_eval` on the chosen query. */
  function EvaluationMain(inputs: Dicts.Dict<PyValue.Value>, run: PyValue.Value -> Result<Workflow.WorkflowResult<CrewRegistry.TaskType>>): (r: Result<EvalOutput<CrewRegistry.TaskType>>)
    ensures r.Ok? && r.value.Missing? ==> r.value.error == NoQuery
    ensures r.Ok? && r.value.Failed? ==>
      Text.StartsWith(r.value.response, ErrorPrefix) && r.value.response[|ErrorPrefix|..] == r.value.error
    ensures r.Err? ==> r.error.TypeError? && !PyValue.Hashable(QueryOf(inputs))
  {
    EvalMain(inputs, NoQuery, ErrorPrefix, CrewRegistry.Value, run)
  }

  const Dataset: seq<Scenario> := [
    Scenario("Analyze the financial performance of Commonwealth Bank over the last 5 years and identify key growth drivers",
      ["financial_advisor", "data_analyst", "research_specialist"], "high", None, "requires_delegation"),
    Scenario("Research the latest AI regulations in Australia and their potential impact on banking technology",
      ["research_specialist", "legal_advisor"], "medium", None, "requires_web_search"),
    Scenario("Design a mobile banking app architecture that supports real-time fraud detection",
      ["technical_expert", "financial_advisor"], "high", None, "requires_code"),
    Scenario("Create a marketing campaign for a new sustainable investment product targeting millennials",
      ["creative_writer", "financial_advisor", "research_specialist"], "medium", None, "requires_creativity"),
    Scenario("What are the tax implications of crypto investments for Australian retail investors?",
      ["financial_advisor", "legal_advisor"], "medium", None, "requires_research")
  ]

  /** Five items, each with a non-empty query; every expected agent is one of the six agents. */
  lemma DatasetShape()
    ensures |Dataset| == 5
    ensures forall i :: 0 <= i < |Dataset| ==> Dataset[i].query != []
    ensures forall i, j :: 0 <= i < |Dataset| && 0 <= j < |Dataset[i].expectedAgents| ==>
      Dataset[i].expectedAgents[j] in CrewOrchestration.DispatchNames
  {
  }
}
