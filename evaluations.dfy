/**
 * The `main(inputs, ground_truths)` evaluation entry points of wealth-management-agent/evaluation.py
 * and langgraph-cookbook/evaluation.py: pick the query, run one session, and summarise the
 * orchestration result. The two differ only in their messages, which are parameters here.
 */
module Evaluations {
  import opened Wrappers
  import Dicts
  import opened PyValue
  import opened Tasks
  import Execution
  import Workflow

  /** One `task_breakdown` entry. */
  datatype TaskSummary = TaskSummary(id: string, description: string, kind: string, complexity: int)

  /** One `execution_details` entry. */
  datatype ExecutionDetail = ExecutionDetail(agent: string, description: string, toolsUsed: seq<string>, delegationDepth: int)

  /** The dictionaries `main` returns. */
  datatype EvalOutput<K> =
    | Missing(error: string)
    | Summary(
        response: string,
        subtasksCount: nat,
        agentsUsed: set<string>,
        delegationCount: nat,
        taskBreakdown: seq<TaskSummary>,
        executionDetails: Dicts.Dict<ExecutionDetail>,
        fullResult: Workflow.WorkflowResult<K>)
    | Failed(error: string, response: string)

  /** One `create_evaluation_dataset` item: its query and its `ground_truths` metadata. */
  datatype Scenario = Scenario(
    query: string,
    expectedAgents: seq<string>,
    taskComplexity: string,
    scenarioType: Option<string>,
    requirement: string)   // the one `requires_*` flag, always True

  /** `inputs.get("query") or inputs.get("task")`. */
  function QueryOf(inputs: Dicts.Dict<Value>): Value {
    Or(Dicts.GetOr(inputs, "query", NoneV), Dicts.GetOr(inputs, "task", NoneV))
  }

  function Breakdown<K>(subtasks: seq<SubTask<K>>, kindValue: K -> string): seq<TaskSummary> {
    seq(|subtasks|, i requires 0 <= i < |subtasks| =>
      TaskSummary(subtasks[i].id, subtasks[i].description, kindValue(subtasks[i].kind), subtasks[i].complexity))
  }

  function Detail(res: Execution.ExecutionRecord): ExecutionDetail {
    ExecutionDetail(res.agent, res.taskDescription, res.toolsUsed, res.delegationDepth)
  }

  function Details(results: Dicts.Dict<Execution.ExecutionRecord>): Dicts.Dict<ExecutionDetail> {
    seq(|results|, i requires 0 <= i < |results| => (results[i].0, Detail(results[i].1)))
  }

  /** The execution details are the results, entry by entry: same keys, same order. */
  lemma {:induction false} DetailsLookup(results: Dicts.Dict<Execution.ExecutionRecord>, k: string)
    ensures Dicts.Keys(Details(results)) == Dicts.Keys(results)
    ensures Dicts.Lookup(Details(results), k) ==
      if Dicts.HasKey(results, k) then Some(Detail(Dicts.Lookup(results, k).value)) else None
    decreases |results|
  {
    if results != [] {
      assert Details(results)[1..] == Details(results[1..]);
      DetailsLookup(results[1..], k);
    }
  }

  /** The summary `main` builds from a finished session's result. */
  function Summarize<K>(w: Workflow.WorkflowResult<K>, kindValue: K -> string): EvalOutput<K> {
    Summary(
      w.response,
      |w.decomposition.subtasks|,
      set i | 0 <= i < |w.results| :: w.results[i].1.agent,
      |w.history|,
      Breakdown(w.decomposition.subtasks, kindValue),
      Details(w.results),
      w)
  }

  /**
   * `main`: a missing or falsy query (after the fallback to "task") gives the error dictionary
   * without a run; hashing an unhashable query raises before the `try`; otherwise `run` is the
   * session (`run_single_*_eval`), whose exceptions become an error dictionary.
   */
  function EvalMain<K>(inputs: Dicts.Dict<Value>, missingMessage: string, errorPrefix: string, kindValue: K -> string, run: Value -> Result<Workflow.WorkflowResult<K>>): Result<EvalOutput<K>> {
    var query := QueryOf(inputs);
    if !Truthy(query) then Ok(Missing(missingMessage))
    else if !Hashable(query) then Err(TypeError("unhashable type"))
    else match run(query)
      case Ok(w) => Ok(Summarize(w, kindValue))
      case Err(e) => Ok(Failed(e.Str(), errorPrefix + e.Str()))
  }

  /** No run happens exactly when neither "query" nor "task" holds a truthy value. */
  lemma EvalMissing<K>(inputs: Dicts.Dict<Value>, missingMessage: string, errorPrefix: string, kindValue: K -> string, run: Value -> Result<Workflow.WorkflowResult<K>>)
    ensures EvalMain(inputs, missingMessage, errorPrefix, kindValue, run) == Ok(Missing(missingMessage)) <==>
      !Truthy(Dicts.GetOr(inputs, "query", NoneV)) && !Truthy(Dicts.GetOr(inputs, "task", NoneV))
  {
  }

  /** The run receives the "query" value when truthy, else the "task" value. */
  lemma EvalQuery(inputs: Dicts.Dict<Value>)
    ensures Truthy(Dicts.GetOr(inputs, "query", NoneV)) ==> QueryOf(inputs) == Dicts.Lookup(inputs, "query").value
    ensures !Truthy(Dicts.GetOr(inputs, "query", NoneV)) ==> QueryOf(inputs) == Dicts.GetOr(inputs, "task", NoneV)
  {
  }

  /**
   * After a successful run: the counts are the subtask and delegation counts; the agents used
   * are exactly the agents of the results; the breakdown lists the subtasks in order; the
   * details are keyed by task id, in the results' order, with each result's agent, description,
   * tools and depth.
   */
  lemma EvalSummary<K>(inputs: Dicts.Dict<Value>, missingMessage: string, errorPrefix: string, kindValue: K -> string, run: Value -> Result<Workflow.WorkflowResult<K>>, k: string)
    requires Truthy(QueryOf(inputs)) && Hashable(QueryOf(inputs)) && run(QueryOf(inputs)).Ok?
    ensures var w := run(QueryOf(inputs)).value;
      var r := EvalMain(inputs, missingMessage, errorPrefix, kindValue, run);
      r.Ok? && r.value.Summary? && r.value.response == w.response && r.value.fullResult == w &&
      r.value.subtasksCount == |w.decomposition.subtasks| && r.value.delegationCount == |w.history| &&
      (forall a :: a in r.value.agentsUsed <==> exists i :: 0 <= i < |w.results| && w.results[i].1.agent == a) &&
      |r.value.taskBreakdown| == |w.decomposition.subtasks| &&
      (forall i :: 0 <= i < |w.decomposition.subtasks| ==>
        r.value.taskBreakdown[i].id == w.decomposition.subtasks[i].id &&
        r.value.taskBreakdown[i].description == w.decomposition.subtasks[i].description &&
        r.value.taskBreakdown[i].kind == kindValue(w.decomposition.subtasks[i].kind) &&
        r.value.taskBreakdown[i].complexity == w.decomposition.subtasks[i].complexity) &&
      Dicts.Keys(r.value.executionDetails) == Dicts.Keys(w.results) &&
      (Dicts.HasKey(w.results, k) ==>
        var res := Dicts.Lookup(w.results, k).value;
        Dicts.Lookup(r.value.executionDetails, k) ==
          Some(ExecutionDetail(res.agent, res.taskDescription, res.toolsUsed, res.delegationDepth)))
  {
    DetailsLookup(run(QueryOf(inputs)).value.results, k);
  }

  /** An exception from the run becomes the error dictionary with the prefixed message. */
  lemma EvalFailure<K>(inputs: Dicts.Dict<Value>, missingMessage: string, errorPrefix: string, kindValue: K -> string, run: Value -> Result<Workflow.WorkflowResult<K>>)
    requires Truthy(QueryOf(inputs)) && Hashable(QueryOf(inputs)) && run(QueryOf(inputs)).Err?
    ensures var e := run(QueryOf(inputs)).error;
      EvalMain(inputs, missingMessage, errorPrefix, kindValue, run) == Ok(Failed(e.Str(), errorPrefix + e.Str()))
  {
  }
}
