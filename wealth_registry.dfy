/** wealth-management-agent/registry.py: the advisory task types and the five advisory tools. */
module WealthRegistry {
  import opened Wrappers
  import opened PyValue
  import Dicts
  import Text
  import opened SearchTools

  /** The seven advisory task types. */
  datatype TaskType =
    | PortfolioAnalysis | MarketResearch | InvestmentStrategy | ComplianceCheck
    | ClientCommunication | Technical | General

  function Value(t: TaskType): string {
    match t
    case PortfolioAnalysis => "portfolio_analysis"
    case MarketResearch => "market_research"
    case InvestmentStrategy => "investment_strategy"
    case ComplianceCheck => "compliance_check"
    case ClientCommunication => "client_communication"
    case Technical => "technical"
    case General => "general"
  }

  const TaskTypeValues: seq<string> :=
    ["portfolio_analysis", "market_research", "investment_strategy", "compliance_check",
     "client_communication", "technical", "general"]

  /** `TaskType(value)`: the member with that value, or ValueError. */
  function FromValue(s: string): (r: Result<TaskType>)
    ensures r.Ok? ==> Value(r.value) == s
    ensures r.Err? ==> r.error == ValueError("'" + s + "' is not a valid TaskType")
  {
    if s == "portfolio_analysis" then Ok(PortfolioAnalysis)
    else if s == "market_research" then Ok(MarketResearch)
    else if s == "investment_strategy" then Ok(InvestmentStrategy)
    else if s == "compliance_check" then Ok(ComplianceCheck)
    else if s == "client_communication" then Ok(ClientCommunication)
    else if s == "technical" then Ok(Technical)
    else if s == "general" then Ok(General)
    else Err(ValueError("'" + s + "' is not a valid TaskType"))
  }

  /** Exactly seven distinct values; constructing from any other string raises; values round-trip. */
  lemma TaskTypeValuesExact(s: string, t: TaskType)
    ensures |TaskTypeValues| == 7
    ensures forall i, j :: 0 <= i < j < |TaskTypeValues| ==> TaskTypeValues[i] != TaskTypeValues[j]
    ensures FromValue(s).Ok? <==> s in TaskTypeValues
    ensures Value(t) in TaskTypeValues && FromValue(Value(t)) == Ok(t)
  {
  }

  const SearchErrorPrefix := "Market data search error: "

  /** `tool_market_data_search`: never raises on a failed request; at most six results. */
  method MarketDataSearch(query: string, outcome: SearchOutcome) returns (out: string)
    ensures outcome.SearchFailed? ==> out == SearchErrorPrefix + outcome.error
    ensures outcome.SearchOk? ==>
      out == "Market research results for '" + query + "':\n"
        + ResultsBody(ResultLines(if |outcome.organicResults| <= 6 then outcome.organicResults else outcome.organicResults[..6]))
  {
    out := FormatSearch(SearchErrorPrefix, "Market research results for '" + query + "':\n", outcome);
  }

  /** `tool_client_portfolio_query`: a simulated portfolio report for the query. */
  function ClientPortfolioQuery(query: string): string {
    PortfolioPrefix + query + PortfolioSuffix
  }

  const PortfolioPrefix := "Client Portfolio Query: "
  const PortfolioSuffix := "\n\nPortfolio Holdings:\n- US Large Cap Equities: $450,000 (45%)\n- International Developed: $150,000 (15%)\n- Fixed Income - Investment Grade: $200,000 (20%)\n- Fixed Income - High Yield: $50,000 (5%)\n- Alternative Investments: $100,000 (10%)\n- Cash & Equivalents: $50,000 (5%)\n\nTotal AUM: $1,000,000\nRisk Profile: Moderate Growth\nInvestment Horizon: 10+ years\nLast Rebalance: 6 months ago"

  const CalculationDisabled := "Financial calculation result: Calculation disabled for safety"

  /**
   * `tool_financial_calculator`: the guarded `eval`. A rejected expression is never evaluated;
   * an expression whose evaluation raises gets the canned projection.
   */
  function FinancialCalculator(calculation: string, eval: EvalOutcome): (r: string)
    ensures !EvalAllowed(calculation) ==> r == CalculationDisabled
    ensures EvalAllowed(calculation) && eval.Evaluated? ==> r == "Financial calculation result: " + eval.text
    ensures EvalAllowed(calculation) && eval.Raised? ==> r == ProjectionPrefix + calculation + ProjectionSuffix
  {
    if !EvalAllowed(calculation) then CalculationDisabled
    else match eval
      case Evaluated(v) => "Financial calculation result: " + v
      case Raised(_) => ProjectionPrefix + calculation + ProjectionSuffix
  }

  const ProjectionPrefix := "Financial Projection for: "
  const ProjectionSuffix := "\n\nMonte Carlo Simulation (1000 iterations):\n- Expected Return (median): 7.2% annually\n- 25th Percentile: 4.1%\n- 75th Percentile: 10.8%\n- Probability of Meeting Goal: 78%\n\nProjected Portfolio Value (10 years):\n- Conservative: $1,480,000\n- Expected: $1,970,000\n- Optimistic: $2,590,000"

  /** `tool_policy_document_retriever`: simulated policy documents for the query. */
  function PolicyDocuments(query: string): string {
    PolicyPrefix + query + PolicySuffix
  }

  const PolicyPrefix := "Policy Documents Retrieved for: "
  const PolicySuffix := "\n\n[Doc1: Investment Policy Statement Guidelines]\n- Outlines client suitability requirements\n- Risk tolerance assessment criteria\n- Rebalancing triggers and thresholds\n\n[Doc2: Regulatory Compliance - Fiduciary Standards]\n- SEC Regulation Best Interest requirements\n- Suitability documentation standards\n- Disclosure obligations\n\n[Doc3: Product Due Diligence Framework]\n- Approved product list criteria\n- Alternative investment guidelines\n- Concentration limits by asset class"

  /**
   * `PolicyDocumentRetrieverTool._run`'s normalisation: a dict argument becomes its truthy
   * 'description', else its truthy 'query', else `str(dict)`; the result is passed through `str()`.
   */
  function PolicyQuery(query: Value): (r: string)
    ensures !query.Dict? ==> r == PyStr(query)
    ensures query.Dict? ==>
      var description := Dicts.GetOr(query.entries, "description", NoneV);
      var q := Dicts.GetOr(query.entries, "query", NoneV);
      r == if Truthy(description) then PyStr(description) else if Truthy(q) then PyStr(q) else PyStr(query)
  {
    match query
    case Dict(es) =>
      PyStr(Or(Or(Dicts.GetOr(es, "description", NoneV), Dicts.GetOr(es, "query", NoneV)), Str(PyStr(query))))
    case _ => PyStr(query)
  }

  function PolicyDocumentRetriever(query: Value): string {
    PolicyDocuments(PolicyQuery(query))
  }

  /** `tool_portfolio_analytics`: a simulated analytics report for the parameters. */
  function PortfolioAnalytics(params: string): string {
    AnalyticsPrefix + params + AnalyticsSuffix
  }

  const AnalyticsPrefix := "Portfolio Analytics Report: "
  const AnalyticsSuffix := "\n\nRisk Metrics:\n- Portfolio Beta: 0.92\n- Standard Deviation: 12.4%\n- Sharpe Ratio: 0.85\n- Max Drawdown (3yr): -18.2%\n- Value at Risk (95%): -2.1% daily\n\nPerformance Attribution (YTD):\n- Asset Allocation Effect: +1.2%\n- Security Selection Effect: +0.8%\n- Interaction Effect: +0.1%\n- Total Active Return: +2.1%\n\nStyle Analysis:\n- Growth Tilt: Moderate\n- Quality Factor: High\n- Momentum Exposure: Low"

  /** The simulated portfolio report echoes its query right after a fixed prefix; the rest is fixed. */
  lemma PortfolioEchoes(arg: string)
    ensures Text.StartsWith(ClientPortfolioQuery(arg), PortfolioPrefix + arg)
    ensures ClientPortfolioQuery(arg)[|PortfolioPrefix| + |arg|..] == PortfolioSuffix
  {
    Text.Framed(PortfolioPrefix, arg, PortfolioSuffix);
  }

  /** The simulated policy documents echo their query right after a fixed prefix; the rest is fixed. */
  lemma PolicyEchoes(arg: string)
    ensures Text.StartsWith(PolicyDocuments(arg), PolicyPrefix + arg)
    ensures PolicyDocuments(arg)[|PolicyPrefix| + |arg|..] == PolicySuffix
  {
    Text.Framed(PolicyPrefix, arg, PolicySuffix);
  }

  /** The simulated analytics report echoes its parameters right after a fixed prefix; the rest is fixed. */
  lemma AnalyticsEchoes(arg: string)
    ensures Text.StartsWith(PortfolioAnalytics(arg), AnalyticsPrefix + arg)
    ensures PortfolioAnalytics(arg)[|AnalyticsPrefix| + |arg|..] == AnalyticsSuffix
  {
    Text.Framed(AnalyticsPrefix, arg, AnalyticsSuffix);
  }

  /** A plain-string argument reaches the retriever unchanged. */
  lemma PolicyQueryOfString(s: string)
    ensures PolicyDocumentRetriever(Str(s)) == PolicyDocuments(s)
  {
  }

  /** `TOOL_REGISTRY`, in declaration order. */
  const ToolRegistry: seq<(string, Tool)> := [
    ("market_data_search", Tool("market_data_search", "Search for market data, research reports, economic indicators, and financial news.")),
    ("client_portfolio_query", Tool("client_portfolio_query", "Query client portfolio holdings, transactions, account details, and investment history.")),
    ("financial_calculator", Tool("financial_calculator", "Execute financial projections, Monte Carlo simulations, and scenario analysis.")),
    ("policy_document_retriever", Tool("policy_document_retriever", "Retrieve investment policy documents, compliance guidelines, and regulatory requirements.")),
    ("portfolio_analytics", Tool("portfolio_analytics", "Perform portfolio risk analysis, performance attribution, and optimization recommendations."))
  ]

  /** The names `t in TOOL_REGISTRY` accepts, written out (see `RegisteredToolNamesAreKeys`). */
  function RegisteredToolNames(): set<string> {
    {"market_data_search", "client_portfolio_query", "financial_calculator", "policy_document_retriever", "portfolio_analytics"}
  }

  /** The names written out are exactly the tool registry's keys. */
  lemma RegisteredToolNamesAreKeys()
    ensures forall t :: t in RegisteredToolNames() <==> Dicts.HasKey(ToolRegistry, t)
  {
    Dicts.KeysAreHasKey(ToolRegistry);
    assert Dicts.Keys(ToolRegistry) == ["market_data_search", "client_portfolio_query", "financial_calculator", "policy_document_retriever", "portfolio_analytics"];
  }

  /** Five tools under distinct keys, each registered under its own name. */
  lemma ToolRegistryConsistent()
    ensures |ToolRegistry| == 5
    ensures forall i :: 0 <= i < |ToolRegistry| ==> ToolRegistry[i].0 == ToolRegistry[i].1.name
    ensures forall i, j :: 0 <= i < j < |ToolRegistry| ==> ToolRegistry[i].0 != ToolRegistry[j].0
    ensures Dicts.Keys(ToolRegistry) == ["market_data_search", "client_portfolio_query", "financial_calculator",
      "policy_document_retriever", "portfolio_analytics"]
  {
  }
}
