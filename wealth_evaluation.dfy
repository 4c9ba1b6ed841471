/** wealth-management-agent/evaluation.py: its `main` messages and its evaluation dataset. */
module WealthEvaluation {
  import opened Wrappers
  import Text
  import Dicts
  import PyValue
  import Workflow
  import WealthRegistry
  import WealthOrchestration
  import opened Evaluations

  const NoInquiry := "No client inquiry provided"
  const ErrorPrefix := "Error processing client inquiry: "

  /** `main`; `run` is `run_single_advisory_eval` on the chosen query. */
  function EvaluationMain(inputs: Dicts.Dict<PyValue.Value>, run: PyValue.Value -> Result<Workflow.WorkflowResult<WealthRegistry.TaskType>>): (r: Result<EvalOutput<WealthRegistry.TaskType>>)
    ensures r.Ok? && r.value.Missing? ==> r.value.error == NoInquiry
    ensures r.Ok? && r.value.Failed? ==>
      Text.StartsWith(r.value.response, ErrorPrefix) && r.value.response[|ErrorPrefix|..] == r.value.error
    ensures r.Err? ==> r.error.TypeError? && !PyValue.Hashable(QueryOf(inputs))
  {
    EvalMain(inputs, NoInquiry, ErrorPrefix, WealthRegistry.Value, run)
  }

  const Dataset: seq<Scenario> := [
    Scenario("Review the Smith family portfolio and recommend rebalancing strategies given their upcoming retirement in 5 years. They currently have a 70/30 equity-bond split with significant concentration in tech stocks.",
      ["quantitative_analyst", "wealth_strategist"], "high", Some("portfolio_review"), "requires_risk_analysis"),
    Scenario("Analyze the impact of the Federal Reserve's recent interest rate decisions on our clients' fixed income allocations. What adjustments should we recommend for clients with significant bond exposure?",
      ["market_intelligence_analyst", "wealth_strategist"], "medium", Some("market_analysis"), "requires_market_research"),
    Scenario("Recommend suitable ESG-focused investment options for a risk-averse high-net-worth client with $5M AUM who wants to align their portfolio with environmental and social values while maintaining capital preservation.",
      ["wealth_strategist", "regulatory_compliance_officer", "market_intelligence_analyst"], "high", Some("investment_recommendation"), "requires_compliance_check"),
    Scenario("Verify the suitability of a concentrated stock position (40% in single company) for a client with a moderate risk profile and 15-year investment horizon. What are the compliance considerations and recommended actions?",
      ["regulatory_compliance_officer", "quantitative_analyst"], "high", Some("compliance_review"), "requires_suitability_analysis"),
    Scenario("Draft a quarterly investment review letter for our wealth management clients explaining recent market volatility, our portfolio positioning, and outlook for the next quarter. The tone should be reassuring yet professional.",
      ["client_communications_specialist", "market_intelligence_analyst"], "medium", Some("client_communication"), "requires_market_context")
  ]

  /**
   * Five scenarios, each with a non-empty query (so `main` always runs it) and a scenario type,
   * and every expected agent is one of the six specialists.
   */
  lemma DatasetShape()
    ensures |Dataset| == 5
    ensures forall i :: 0 <= i < |Dataset| ==> Dataset[i].query != [] && Dataset[i].scenarioType.Some?
    ensures forall i, j :: 0 <= i < |Dataset| && 0 <= j < |Dataset[i].expectedAgents| ==>
      Dataset[i].expectedAgents[j] in WealthOrchestration.DispatchNames
  {
  }
}
