/** crewai-multi-agent-cookbook/registry.py: the task types and the five general-purpose tools. */
module CrewRegistry {
  import opened Wrappers
  import Dicts
  import Text
  import opened SearchTools

  /** The seven task types. */
  datatype TaskType = Research | Analysis | Creative | Technical | Financial | Legal | General

  function Value(t: TaskType): string {
    match t
    case Research => "research"
    case Analysis => "analysis"
    case Creative => "creative"
    case Technical => "technical"
    case Financial => "financial"
    case Legal => "legal"
    case General => "general"
  }

  const TaskTypeValues: seq<string> := ["research", "analysis", "creative", "technical", "financial", "legal", "general"]

  /** `TaskType(value)`: the member with that value, or ValueError. */
  function FromValue(s: string): (r: Result<TaskType>)
    ensures r.Ok? ==> Value(r.value) == s
    ensures r.Err? ==> r.error == ValueError("'" + s + "' is not a valid TaskType")
  {
    if s == "research" then Ok(Research)
    else if s == "analysis" then Ok(Analysis)
    else if s == "creative" then Ok(Creative)
    else if s == "technical" then Ok(Technical)
    else if s == "financial" then Ok(Financial)
    else if s == "legal" then Ok(Legal)
    else if s == "general" then Ok(General)
    else Err(ValueError("'" + s + "' is not a valid TaskType"))
  }

  /** Exactly seven distinct values; constructing from any other string raises; values round-trip. */
  lemma TaskTypeValuesExact(s: string, t: TaskType)
    ensures |TaskTypeValues| == 7
    ensures forall i, j :: 0 <= i < j < |TaskTypeValues| ==> TaskTypeValues[i] != TaskTypeValues[j]
    ensures FromValue(s).Ok? <==> s in TaskTypeValues
    ensures Value(t) in TaskTypeValues && FromValue(Value(t)) == Ok(t)
  {
  }

  /** `tool_search_web`: "SerpAPI error: …" on a failed request; at most six results. */
  method SearchWeb(query: string, outcome: SearchOutcome) returns (out: string)
    ensures outcome.SearchFailed? ==> out == "SerpAPI error: " + outcome.error
    ensures outcome.SearchOk? ==>
      out == "Search results for '" + query + "':\n"
        + ResultsBody(ResultLines(if |outcome.organicResults| <= 6 then outcome.organicResults else outcome.organicResults[..6]))
  {
    out := FormatSearch("SerpAPI error: ", "Search results for '" + query + "':\n", outcome);
  }

  function DatabaseQuery(query: string): string {
    "Database results for query: " + query + DatabaseSuffix
  }

  const DatabaseSuffix := "\n[Simulated data: Customer segments, transaction patterns, risk scores]"

  /** `tool_code_executor`: a rejected snippet is never evaluated; an exception becomes "Code error: …". */
  function CodeExecutor(code: string, eval: EvalOutcome): (r: string)
    ensures !EvalAllowed(code) ==> r == "Code result: Code execution disabled for safety"
    ensures EvalAllowed(code) && eval.Evaluated? ==> r == "Code result: " + eval.text
    ensures EvalAllowed(code) && eval.Raised? ==> r == "Code error: " + eval.message
  {
    if !EvalAllowed(code) then "Code result: Code execution disabled for safety"
    else match eval
      case Evaluated(v) => "Code result: " + v
      case Raised(e) => "Code error: " + e
  }

  function DocumentRetriever(query: string): string {
    "Retrieved documents for: " + query + DocumentSuffix
  }

  const DocumentSuffix := "\n[Doc1: Policy guidelines]\n[Doc2: Best practices]\n[Doc3: Case studies]"

  function FinancialAnalysis(params: string): string {
    "Financial analysis: " + params + FinancialSuffix
  }

  const FinancialSuffix := "\nRisk Score: 0.3\nROI Projection: 12.5%\nMarket Volatility: Medium"

  /** The simulated tools echo their argument right after a fixed prefix; the rest is fixed. */
  lemma StubsEcho(arg: string)
    ensures Text.StartsWith(DatabaseQuery(arg), "Database results for query: " + arg)
    ensures Text.StartsWith(DocumentRetriever(arg), "Retrieved documents for: " + arg)
    ensures Text.StartsWith(FinancialAnalysis(arg), "Financial analysis: " + arg)
    ensures Text.EndsWith(DatabaseQuery(arg), DatabaseSuffix)
    ensures Text.EndsWith(DocumentRetriever(arg), DocumentSuffix)
    ensures Text.EndsWith(FinancialAnalysis(arg), FinancialSuffix)
  {
    Text.Framed("Database results for query: ", arg, DatabaseSuffix);
    Text.Framed("Retrieved documents for: ", arg, DocumentSuffix);
    Text.Framed("Financial analysis: ", arg, FinancialSuffix);
  }

  /** `TOOL_REGISTRY`, in declaration order. */
  const ToolRegistry: seq<(string, Tool)> := [
    ("search_web", Tool("search_web", "Search the web for up-to-date information using SerpAPI.")),
    ("database_query", Tool("database_query", "Query structured databases for data analysis.")),
    ("code_executor", Tool("code_executor", "Execute Python code for calculations and data processing.")),
    ("document_retriever", Tool("document_retriever", "Retrieve and analyze documents from knowledge base.")),
    ("financial_analysis", Tool("financial_analysis", "Perform financial calculations and risk assessments."))
  ]

  /** The names `t in TOOL_REGISTRY` accepts, written out (see `RegisteredToolNamesAreKeys`). */
  function RegisteredToolNames(): set<string> {
    {"search_web", "database_query", "code_executor", "document_retriever", "financial_analysis"}
  }

  /** The names written out are exactly the tool registry's keys. */
  lemma RegisteredToolNamesAreKeys()
    ensures forall t :: t in RegisteredToolNames() <==> Dicts.HasKey(ToolRegistry, t)
  {
    Dicts.KeysAreHasKey(ToolRegistry);
    assert Dicts.Keys(ToolRegistry) == ["search_web", "database_query", "code_executor", "document_retriever", "financial_analysis"];
  }

  /** Five tools under distinct keys, each registered under its own name. */
  lemma ToolRegistryConsistent()
    ensures |ToolRegistry| == 5
    ensures forall i :: 0 <= i < |ToolRegistry| ==> ToolRegistry[i].0 == ToolRegistry[i].1.name
    ensures forall i, j :: 0 <= i < j < |ToolRegistry| ==> ToolRegistry[i].0 != ToolRegistry[j].0
    ensures Dicts.Keys(ToolRegistry) == ["search_web", "database_query", "code_executor", "document_retriever", "financial_analysis"]
  {
  }
}
