/**
 * The rest of the two copies of orchestration.py: running the plan group by group, the
 * synthesis prompt, and the orchestrator that chains analysis, planning, execution and
 * synthesis. The model's replies and the agents' runs are inputs, as in `Execution`.
 */
module Workflow {
  import opened Wrappers
  import Dicts
  import Batching
  import Text
  import Agents
  import opened Tasks
  import opened Orchestration
  import opened Execution

  // ---------------------------------------------------------------------------------------
  // Plan execution
  // ---------------------------------------------------------------------------------------

  /** One id of a group: its assignment (KeyError when the plan has none), coordinated from depth 0. */
  function StepSpec<K>(cfg: Config<K>, maxDepth: int, assignments: Dicts.Dict<Assignment<K>>, id: string, ask: (Agents.Agent, SubTask<K>, int) -> DelegationReply, run: (Agents.Agent, SubTask<K>) -> Result<string>): Coordination<K> {
    match Dicts.Index(assignments, id)
    case Err(e) => Coordination(Err(e), [])
    case Ok(a) => CoordinateSpec(cfg, maxDepth, a.agent, a.task, 0, ask, run)
  }

  function Step<K>(cfg: Config<K>, maxDepth: int, assignments: Dicts.Dict<Assignment<K>>, ask: (Agents.Agent, SubTask<K>, int) -> DelegationReply, run: (Agents.Agent, SubTask<K>) -> Result<string>): string -> Coordination<K> {
    id => StepSpec(cfg, maxDepth, assignments, id, ask, run)
  }

  /** The results dictionary (or the exception raised) and the decisions appended on the way. */
  datatype PlanRun<K> = PlanRun(outcome: Result<Dicts.Dict<ExecutionRecord>>, decisions: seq<DelegationDecision<K>>)

  /**
   * Running the ids in order with an arbitrary `step`: each result is written under its id (a
   * repeated id is run again and overwrites); the first exception ends the run, keeping the
   * decisions taken so far.
   */
  function RunIds<K>(step: string -> Coordination<K>, ids: seq<string>): PlanRun<K>
    decreases |ids|
  {
    if ids == [] then PlanRun(Ok([]), [])
    else
      var prev := RunIds(step, ids[..|ids| - 1]);
      var id := ids[|ids| - 1];
      if prev.outcome.Err? then prev
      else
        var s := step(id);
        PlanRun(if s.outcome.Err? then Err(s.outcome.error) else Ok(Dicts.Put(prev.outcome.value, id, s.outcome.value)),
                prev.decisions + s.decisions)
  }

  /** `_execute_advisory_plan` / `_execute_task_plan`: the groups' ids, group after group. */
  function ExecuteSpec<K>(cfg: Config<K>, maxDepth: int, plan: Plan<K>, ask: (Agents.Agent, SubTask<K>, int) -> DelegationReply, run: (Agents.Agent, SubTask<K>) -> Result<string>): PlanRun<K> {
    RunIds(Step(cfg, maxDepth, plan.assignments, ask, run), Batching.Flatten(plan.parallelGroups))
  }

  lemma RunIdsNext<K>(step: string -> Coordination<K>, ids: seq<string>, id: string)
    requires RunIds(step, ids).outcome.Ok?
    ensures var prev := RunIds(step, ids);
      var s := step(id);
      RunIds(step, ids + [id])
        == PlanRun(if s.outcome.Err? then Err(s.outcome.error) else Ok(Dicts.Put(prev.outcome.value, id, s.outcome.value)),
                   prev.decisions + s.decisions)
  {
    assert (ids + [id])[..|ids|] == ids;
  }

  /** An exception ends the run: running more ids changes nothing. */
  lemma {:induction false} RunIdsStops<K>(step: string -> Coordination<K>, ids: seq<string>, all: seq<string>)
    requires ids <= all && RunIds(step, ids).outcome.Err?
    ensures RunIds(step, all) == RunIds(step, ids)
    decreases |all|
  {
    if |all| > |ids| {
      assert ids <= all[..|all| - 1];
      RunIdsStops(step, ids, all[..|all| - 1]);
    } else {
      assert all == ids;
    }
  }

  /** The run completes exactly when every id's step completes. */
  lemma {:induction false} RunIdsOk<K>(step: string -> Coordination<K>, ids: seq<string>)
    ensures RunIds(step, ids).outcome.Ok? <==> forall i :: 0 <= i < |ids| ==> step(ids[i]).outcome.Ok?
    decreases |ids|
  {
    if ids != [] {
      var init := ids[..|ids| - 1];
      RunIdsOk(step, init);
      assert forall i :: 0 <= i < |init| ==> init[i] == ids[i];
    }
  }

  /** The first id whose step raises gives the run's exception. */
  lemma RunIdsFirstError<K>(step: string -> Coordination<K>, ids: seq<string>, i: nat)
    requires i < |ids| && step(ids[i]).outcome.Err?
    requires forall j :: 0 <= j < i ==> step(ids[j]).outcome.Ok?
    ensures RunIds(step, ids).outcome == Err(step(ids[i]).outcome.error)
  {
    var pre := ids[..i];
    assert forall j :: 0 <= j < |pre| ==> pre[j] == ids[j];
    RunIdsOk(step, pre);
    var upto := ids[..i + 1];
    assert upto[..i] == pre && upto[i] == ids[i];
    assert RunIds(step, upto).outcome == Err(step(ids[i]).outcome.error);
    RunIdsStops(step, upto, ids);
  }

  /**
   * A completed run holds one result per distinct id, in first-seen order, and the result under
   * an id is that id's own step result.
   */
  lemma {:induction false} RunIdsResults<K>(step: string -> Coordination<K>, ids: seq<string>, k: string)
    requires RunIds(step, ids).outcome.Ok?
    ensures var results := RunIds(step, ids).outcome.value;
      Dicts.UniqueKeys(results)
      && (Dicts.HasKey(results, k) <==> k in ids)
      && (k in ids ==> step(k).outcome.Ok? && Dicts.Lookup(results, k) == Some(step(k).outcome.value))
    decreases |ids|
  {
    if ids != [] {
      var init := ids[..|ids| - 1];
      var id := ids[|ids| - 1];
      assert ids == init + [id];
      var prev := RunIds(step, init);
      assert prev.outcome.Ok?;
      RunIdsResults(step, init, k);
      var s := step(id);
      assert s.outcome.Ok?;
      Dicts.PutKeepsUnique(prev.outcome.value, id, s.outcome.value);
      var results := Dicts.Put(prev.outcome.value, id, s.outcome.value);
      assert RunIds(step, ids).outcome.value == results;
      if k != id {
        assert Dicts.Lookup(results, k) == Dicts.Lookup(prev.outcome.value, k);
        assert k in ids <==> k in init;
      }
    }
  }

  /** With at most `b` decisions per step, a run appends at most `b` per id. */
  lemma {:induction false} RunIdsDecisions<K>(step: string -> Coordination<K>, ids: seq<string>, b: nat)
    requires forall id :: |step(id).decisions| <= b
    ensures |RunIds(step, ids).decisions| <= |ids| * b
    decreases |ids|
  {
    if ids != [] {
      var init := ids[..|ids| - 1];
      RunIdsDecisions(step, init, b);
      assert |init| * b + b == |ids| * b;
    }
  }

  /** A step that completes needed an assignment and appends at most one decision per level. */
  lemma StepBounds<K>(cfg: Config<K>, maxDepth: int, assignments: Dicts.Dict<Assignment<K>>, ask: (Agents.Agent, SubTask<K>, int) -> DelegationReply, run: (Agents.Agent, SubTask<K>) -> Result<string>, id: string)
    ensures var s := Step(cfg, maxDepth, assignments, ask, run)(id);
      |s.decisions| <= DepthBudget(maxDepth, 0)
      && (s.outcome.Ok? ==>
            Dicts.HasKey(assignments, id)
            && var a := Dicts.Lookup(assignments, id).value;
            var rec := s.outcome.value;
            rec.taskId == a.task.id && rec.taskDescription == a.task.description
            && rec.toolsUsed == a.task.requiredTools
            && 0 <= rec.delegationDepth <= if 0 < maxDepth then maxDepth else 0)
  {
    var found := Dicts.Index(assignments, id);
    if found.Ok? {
      CoordinateBounds(cfg, maxDepth, found.value.agent, found.value.task, 0, ask, run);
    }
  }

  // ---------------------------------------------------------------------------------------
  // Synthesis
  // ---------------------------------------------------------------------------------------

  /** `next(t.description for t in subtasks if t.id == id)`: StopIteration when no subtask has the id. */
  function Describe<K>(subtasks: seq<SubTask<K>>, id: string): (r: Result<string>)
    ensures r.Err? ==> r.error == StopIteration
  {
    if subtasks == [] then Err(StopIteration)
    else if subtasks[0].id == id then Ok(subtasks[0].description)
    else Describe(subtasks[1..], id)
  }

  /** The description found is that of the first subtask with the id, and only a missing id raises. */
  lemma {:induction false} DescribeFirst<K>(subtasks: seq<SubTask<K>>, id: string)
    ensures Describe(subtasks, id).Ok? <==> exists i :: 0 <= i < |subtasks| && subtasks[i].id == id
    ensures Describe(subtasks, id).Ok? ==>
      exists i :: 0 <= i < |subtasks| && subtasks[i].id == id && subtasks[i].description == Describe(subtasks, id).value
        && forall j :: 0 <= j < i ==> subtasks[j].id != id
  {
    if subtasks != [] && subtasks[0].id != id {
      var tail := subtasks[1..];
      DescribeFirst(tail, id);
      assert forall i :: 0 <= i < |tail| ==> tail[i] == subtasks[i + 1];
      if Describe(tail, id).Ok? {
        var i :| 0 <= i < |tail| && tail[i].id == id && tail[i].description == Describe(tail, id).value
          && forall j :: 0 <= j < i ==> tail[j].id != id;
        assert subtasks[i + 1].id == id && forall j :: 0 <= j < i + 1 ==> subtasks[j].id != id;
      } else {
        forall i | 0 <= i < |subtasks| ensures subtasks[i].id != id {
          if i > 0 {
            assert subtasks[i] == tail[i - 1];
          }
        }
      }
    }
  }

  /** One result's section of the prompt. */
  function Section(style: SectionStyle, id: string, desc: string, rec: ExecutionRecord): string {
    match style
    case SpecialistFindings =>
      "\n" + id + " (" + desc + ")\nSpecialist: " + rec.agent + "\nFindings:\n" + rec.result + "\n"
    case AgentResults =>
      "\n" + id + " (" + desc + ") - Agent: " + rec.agent + ":\n" + rec.result + "\n"
  }

  /** One result's section, or the StopIteration raised looking up its description. */
  function Render<K>(style: SectionStyle, subtasks: seq<SubTask<K>>): (string, ExecutionRecord) -> Result<string> {
    (id, rec) => var desc :- Describe(subtasks, id); Ok(Section(style, id, desc, rec))
  }

  /** The sections of the results in the results' order, with an arbitrary `render`; its first exception ends them. */
  function Sections(render: (string, ExecutionRecord) -> Result<string>, results: Dicts.Dict<ExecutionRecord>): Result<string>
    decreases |results|
  {
    if results == [] then Ok("")
    else
      var body :- Sections(render, results[..|results| - 1]);
      var last := results[|results| - 1];
      var sec :- render(last.0, last.1);
      Ok(body + sec)
  }

  /** The prompt's text before the sections. */
  function PromptHead<K>(cfg: Config<K>, query: string): string {
    cfg.synthesisOpening + query + cfg.synthesisMiddle
  }

  function PromptSpec<K>(cfg: Config<K>, query: string, subtasks: seq<SubTask<K>>, results: Dicts.Dict<ExecutionRecord>): Result<string> {
    var body :- Sections(Render(cfg.sectionStyle, subtasks), results);
    Ok(PromptHead(cfg, query) + body + cfg.synthesisClosing)
  }

  /** `_synthesize_advisory_response` / `_synthesize_results`: the reply to the prompt. */
  function SynthesizeSpec<K>(cfg: Config<K>, query: string, d: Decomposition<K>, results: Dicts.Dict<ExecutionRecord>, synth: string -> string): Result<string> {
    var prompt :- PromptSpec(cfg, query, d.subtasks, results);
    Ok(synth(prompt))
  }

  /** The sections exist exactly when every result renders. */
  lemma {:induction false} SectionsOk(render: (string, ExecutionRecord) -> Result<string>, results: Dicts.Dict<ExecutionRecord>)
    ensures Sections(render, results).Ok? <==> forall i :: 0 <= i < |results| ==> render(results[i].0, results[i].1).Ok?
    decreases |results|
  {
    if results != [] {
      var init := results[..|results| - 1];
      SectionsOk(render, init);
      assert forall i :: 0 <= i < |init| ==> init[i] == results[i];
    }
  }

  /** Every result's section occurs in the body. */
  lemma {:induction false} SectionsHold(render: (string, ExecutionRecord) -> Result<string>, results: Dicts.Dict<ExecutionRecord>, i: nat)
    requires i < |results| && Sections(render, results).Ok?
    ensures render(results[i].0, results[i].1).Ok?
    ensures exists pre, post :: Sections(render, results).value == pre + render(results[i].0, results[i].1).value + post
    decreases |results|
  {
    var init := results[..|results| - 1];
    var body := Sections(render, init).value;
    var last := results[|results| - 1];
    var sec := render(last.0, last.1).value;
    assert Sections(render, results).value == body + sec;
    if i == |results| - 1 {
      assert body + sec == body + sec + "";
    } else {
      SectionsHold(render, init, i);
      assert init[i] == results[i];
      var pre, post :| body == pre + render(results[i].0, results[i].1).value + post;
      assert body + sec == pre + render(results[i].0, results[i].1).value + (post + sec);
    }
  }

  /** Sections that fail on a prefix of the results fail for all of them, with the same exception. */
  lemma {:induction false} SectionsStop(render: (string, ExecutionRecord) -> Result<string>, results: Dicts.Dict<ExecutionRecord>, n: nat)
    requires n <= |results| && Sections(render, results[..n]).Err?
    ensures Sections(render, results) == Sections(render, results[..n])
    decreases |results|
  {
    if n < |results| {
      var init := results[..|results| - 1];
      assert init[..n] == results[..n];
      SectionsStop(render, init, n);
    } else {
      assert results[..n] == results;
    }
  }

  /** The prompt exists exactly when every result's id is some subtask's id. */
  lemma PromptOk<K>(cfg: Config<K>, query: string, subtasks: seq<SubTask<K>>, results: Dicts.Dict<ExecutionRecord>)
    ensures PromptSpec(cfg, query, subtasks, results).Ok?
      <==> forall i :: 0 <= i < |results| ==> exists j :: 0 <= j < |subtasks| && subtasks[j].id == results[i].0
  {
    var render := Render(cfg.sectionStyle, subtasks);
    SectionsOk(render, results);
    forall i | 0 <= i < |results|
      ensures render(results[i].0, results[i].1).Ok? <==> exists j :: 0 <= j < |subtasks| && subtasks[j].id == results[i].0
    {
      RenderOk(cfg.sectionStyle, subtasks, results[i].0, results[i].1);
      DescribeFirst(subtasks, results[i].0);
    }
  }

  /** A section renders exactly when its id has a description. */
  lemma RenderOk<K>(style: SectionStyle, subtasks: seq<SubTask<K>>, id: string, rec: ExecutionRecord)
    ensures Render(style, subtasks)(id, rec).Ok? <==> Describe(subtasks, id).Ok?
  {
  }

  /**
   * The prompt opens with the fixed text and the query, holds each result's section with its
   * first subtask's description, and ends with the closing text.
   */
  lemma PromptContents<K>(cfg: Config<K>, query: string, subtasks: seq<SubTask<K>>, results: Dicts.Dict<ExecutionRecord>, i: nat)
    requires PromptSpec(cfg, query, subtasks, results).Ok? && i < |results|
    ensures var p := PromptSpec(cfg, query, subtasks, results).value;
      Text.StartsWith(p, cfg.synthesisOpening + query + cfg.synthesisMiddle)
      && Text.EndsWith(p, cfg.synthesisClosing)
      && Describe(subtasks, results[i].0).Ok?
      && exists pre, post :: p == pre + Section(cfg.sectionStyle, results[i].0, Describe(subtasks, results[i].0).value, results[i].1) + post
  {
    var render := Render(cfg.sectionStyle, subtasks);
    var body := Sections(render, results).value;
    SectionsHold(render, results, i);
    var pre, post :| body == pre + render(results[i].0, results[i].1).value + post;
    Text.FramedPiece(PromptHead(cfg, query), pre, render(results[i].0, results[i].1).value, post, cfg.synthesisClosing);
  }

  /** The synthesis loop: one section per result, then the closing text and the model call. */
  method Synthesize<K>(cfg: Config<K>, query: string, d: Decomposition<K>, results: Dicts.Dict<ExecutionRecord>, synth: string -> string)
    returns (r: Result<string>)
    ensures r == SynthesizeSpec(cfg, query, d, results, synth)
  {
    ghost var render := Render(cfg.sectionStyle, d.subtasks);
    var head := PromptHead(cfg, query);
    var body := "";
    var i := 0;
    while i < |results|
      invariant 0 <= i <= |results|
      invariant Sections(render, results[..i]) == Ok(body)
    {
      var (id, rec) := results[i];
      assert results[..i + 1][..i] == results[..i];
      var desc := Describe(d.subtasks, id);
      if desc.Err? {
        SectionsStop(render, results, i + 1);
        return Err(desc.error);
      }
      body := body + Section(cfg.sectionStyle, id, desc.value, rec);
      i := i + 1;
    }
    assert results[..i] == results;
    var prompt := head + body + cfg.synthesisClosing;
    r := Ok(synth(prompt));
  }

  // ---------------------------------------------------------------------------------------
  // Orchestrator
  // ---------------------------------------------------------------------------------------

  /** The dictionary `orchestrate_*_workflow` returns; `history` is the manager's history then. */
  datatype WorkflowResult<K> = WorkflowResult(
    response: string,
    decomposition: Decomposition<K>,
    plan: Plan<K>,
    results: Dicts.Dict<ExecutionRecord>,
    history: seq<DelegationDecision<K>>)

  /** The workflow's result (or the exception raised) and the decisions appended on the way. */
  datatype WorkflowRun<K> = WorkflowRun(outcome: Result<WorkflowResult<K>>, decisions: seq<DelegationDecision<K>>)

  /**
   * `orchestrate_*_workflow`: analyse, plan, execute, synthesise; an exception in any stage
   * ends the workflow, and decisions taken during execution stay in the history.
   */
  function WorkflowSpec<K>(cfg: Config<K>, maxDepth: int, history: seq<DelegationDecision<K>>, query: string, analysis: AnalysisReply, selections: SubTask<K> -> SelectionReply, ask: (Agents.Agent, SubTask<K>, int) -> DelegationReply, run: (Agents.Agent, SubTask<K>) -> Result<string>, synth: string -> string): WorkflowRun<K> {
    match DecomposeSpec(cfg, query, analysis)
    case Err(e) => WorkflowRun(Err(e), [])
    case Ok(d) =>
      match PlanSpec(cfg, d, selections)
      case Err(e) => WorkflowRun(Err(e), [])
      case Ok(plan) =>
        var ex := ExecuteSpec(cfg, maxDepth, plan, ask, run);
        match ex.outcome
        case Err(e) => WorkflowRun(Err(e), ex.decisions)
        case Ok(results) =>
          match SynthesizeSpec(cfg, query, d, results, synth)
          case Err(e) => WorkflowRun(Err(e), ex.decisions)
          case Ok(response) =>
            WorkflowRun(Ok(WorkflowResult(response, d, plan, results, history + ex.decisions)), ex.decisions)
  }

  /**
   * Synthesis never raises inside the workflow: every executed id had an assignment, and the
   * plan assigns exactly the subtasks' ids, so every result's description is found.
   */
  lemma WorkflowSynthesisTotal<K>(cfg: Config<K>, maxDepth: int, query: string, d: Decomposition<K>, selections: SubTask<K> -> SelectionReply, ask: (Agents.Agent, SubTask<K>, int) -> DelegationReply, run: (Agents.Agent, SubTask<K>) -> Result<string>, synth: string -> string)
    requires PlanSpec(cfg, d, selections).Ok?
    requires ExecuteSpec(cfg, maxDepth, PlanSpec(cfg, d, selections).value, ask, run).outcome.Ok?
    ensures SynthesizeSpec(cfg, query, d, ExecuteSpec(cfg, maxDepth, PlanSpec(cfg, d, selections).value, ask, run).outcome.value, synth).Ok?
  {
    var plan := PlanSpec(cfg, d, selections).value;
    var ids := Batching.Flatten(plan.parallelGroups);
    var step := Step(cfg, maxDepth, plan.assignments, ask, run);
    var results := RunIds(step, ids).outcome.value;
    PlanShape(cfg, d, selections);
    forall i | 0 <= i < |results| ensures exists j :: 0 <= j < |d.subtasks| && d.subtasks[j].id == results[i].0 {
      var k := results[i].0;
      RunIdsResults(step, ids, k);
      assert Dicts.HasKey(results, k);
      StepBounds(cfg, maxDepth, plan.assignments, ask, run, k);
    }
    PromptOk(cfg, query, d.subtasks, results);
  }

  /**
   * In a completed workflow every result sits under the id of the subtask it ran, describes that
   * subtask, records a depth within the maximum, and the history grew by at most the maximum
   * depth per executed id.
   */
  lemma WorkflowRecords<K>(cfg: Config<K>, maxDepth: int, history: seq<DelegationDecision<K>>, query: string, analysis: AnalysisReply, selections: SubTask<K> -> SelectionReply, ask: (Agents.Agent, SubTask<K>, int) -> DelegationReply, run: (Agents.Agent, SubTask<K>) -> Result<string>, synth: string -> string, k: string)
    requires maxDepth >= 0
    requires WorkflowSpec(cfg, maxDepth, history, query, analysis, selections, ask, run, synth).outcome.Ok?
    ensures var w := WorkflowSpec(cfg, maxDepth, history, query, analysis, selections, ask, run, synth).outcome.value;
      |w.history| <= |history| + |Batching.Flatten(w.plan.parallelGroups)| * maxDepth
      && (Dicts.HasKey(w.results, k) ==>
            var rec := Dicts.Lookup(w.results, k).value;
            rec.taskId == k
            && (exists j :: 0 <= j < |w.decomposition.subtasks| && w.decomposition.subtasks[j].id == k
                  && w.decomposition.subtasks[j].description == rec.taskDescription)
            && 0 <= rec.delegationDepth <= maxDepth)
  {
    var d := DecomposeSpec(cfg, query, analysis).value;
    var plan := PlanSpec(cfg, d, selections).value;
    var ids := Batching.Flatten(plan.parallelGroups);
    var step := Step(cfg, maxDepth, plan.assignments, ask, run);
    var ex := RunIds(step, ids);
    var w := WorkflowSpec(cfg, maxDepth, history, query, analysis, selections, ask, run, synth).outcome.value;
    assert w.plan == plan && w.decomposition == d && w.results == ex.outcome.value && w.history == history + ex.decisions;
    forall id ensures |step(id).decisions| <= maxDepth {
      StepBounds(cfg, maxDepth, plan.assignments, ask, run, id);
    }
    RunIdsDecisions(step, ids, maxDepth);
    RunIdsResults(step, ids, k);
    if Dicts.HasKey(w.results, k) {
      PlanShape(cfg, d, selections);
      StepBounds(cfg, maxDepth, plan.assignments, ask, run, k);
      AssignPrefixLast(d.subtasks, |d.subtasks|, Choose(cfg, selections), k);
    }
  }

  /** `ClientAdvisoryOrchestrator` / `PrincipalRouterAgent`: one delegation manager shared with the executor. */
  class Orchestrator<K> {
    const cfg: Config<K>
    const manager: DelegationManager<K>
    const executor: Executor<K>

    ghost predicate Valid() {
      executor.manager == manager && executor.cfg == cfg
    }

    /** The manager starts with the default maximum depth of 5 and an empty history. */
    constructor (cfg: Config<K>)
      ensures Valid() && this.cfg == cfg && fresh(manager) && manager.maxDepth == 5 && manager.history == []
    {
      var m := new DelegationManager<K>(5);
      var ex := new Executor<K>(cfg, m);
      this.cfg := cfg;
      manager := m;
      executor := ex;
    }

    /** The loop over the groups. */
    method ExecutePlan(plan: Plan<K>, ask: (Agents.Agent, SubTask<K>, int) -> DelegationReply, run: (Agents.Agent, SubTask<K>) -> Result<string>)
      returns (r: Result<Dicts.Dict<ExecutionRecord>>)
      requires Valid()
      modifies manager
      ensures var e := ExecuteSpec(cfg, manager.maxDepth, plan, ask, run);
        r == e.outcome && manager.history == old(manager.history) + e.decisions
    {
      var groups := plan.parallelGroups;
      ghost var step := Step(cfg, manager.maxDepth, plan.assignments, ask, run);
      ghost var start := manager.history;
      var results: Dicts.Dict<ExecutionRecord> := [];
      var g := 0;
      while g < |groups|
        invariant 0 <= g <= |groups|
        invariant RunIds(step, Batching.Flatten(groups[..g])).outcome == Ok(results)
        invariant manager.history == start + RunIds(step, Batching.Flatten(groups[..g])).decisions
      {
        ghost var done := Batching.Flatten(groups[..g]);
        Batching.FlattenNextGroup(groups, g);
        var outcome := RunGroup(plan.assignments, groups[g], ask, run, start, done, results);
        if outcome.Err? {
          Batching.FlattenGroupsPrefix(groups, g + 1);
          RunIdsStops(step, done + groups[g], Batching.Flatten(groups));
          return Err(outcome.error);
        }
        results := outcome.value;
        g := g + 1;
      }
      assert groups[..g] == groups;
      r := Ok(results);
    }

    /** The loop over one group's ids, continuing a run that has done the ids `done`. */
    method RunGroup(assignments: Dicts.Dict<Assignment<K>>, group: seq<string>, ask: (Agents.Agent, SubTask<K>, int) -> DelegationReply, run: (Agents.Agent, SubTask<K>) -> Result<string>,
                    ghost start: seq<DelegationDecision<K>>, ghost done: seq<string>, results0: Dicts.Dict<ExecutionRecord>)
      returns (r: Result<Dicts.Dict<ExecutionRecord>>)
      requires Valid()
      requires RunIds(Step(cfg, manager.maxDepth, assignments, ask, run), done).outcome == Ok(results0)
      requires manager.history == start + RunIds(Step(cfg, manager.maxDepth, assignments, ask, run), done).decisions
      modifies manager
      ensures var e := RunIds(Step(cfg, manager.maxDepth, assignments, ask, run), done + group);
        r == e.outcome && manager.history == start + e.decisions
    {
      ghost var step := Step(cfg, manager.maxDepth, assignments, ask, run);
      var results := results0;
      var j := 0;
      Batching.PrefixEnds(done, group);
      while j < |group|
        invariant 0 <= j <= |group|
        invariant RunIds(step, done + group[..j]).outcome == Ok(results)
        invariant manager.history == start + RunIds(step, done + group[..j]).decisions
      {
        ghost var e := RunIds(step, done + group[..j]);
        var id := group[j];
        var outcome := RunTask(assignments, id, ask, run);
        RunIdsNext(step, done + group[..j], id);
        Batching.PrefixNext(done, group, j);
        ConcatAssoc(start, e.decisions, step(id).decisions);
        if outcome.Err? {
          RunIdsStops(step, done + group[..j + 1], done + group);
          return Err(outcome.error);
        }
        results := Dicts.Put(results, id, outcome.value);
        j := j + 1;
      }
      r := Ok(results);
    }

    /** One id: `execution_plan["task_assignments"][task_id]`, then the coordination from depth 0. */
    method RunTask(assignments: Dicts.Dict<Assignment<K>>, id: string, ask: (Agents.Agent, SubTask<K>, int) -> DelegationReply, run: (Agents.Agent, SubTask<K>) -> Result<string>)
      returns (r: Result<ExecutionRecord>)
      requires Valid()
      modifies manager
      ensures var s := StepSpec(cfg, manager.maxDepth, assignments, id, ask, run);
        r == s.outcome && manager.history == old(manager.history) + s.decisions
    {
      var assignment := Dicts.Index(assignments, id);
      if assignment.Err? {
        return Err(assignment.error);
      }
      r := executor.Coordinate(assignment.value.agent, assignment.value.task, 0, ask, run);
    }

    /** `orchestrate_*_workflow`; the returned history is the manager's history at the end. */
    method Orchestrate(query: string, analysis: AnalysisReply, selections: SubTask<K> -> SelectionReply, ask: (Agents.Agent, SubTask<K>, int) -> DelegationReply, run: (Agents.Agent, SubTask<K>) -> Result<string>, synth: string -> string)
      returns (r: Result<WorkflowResult<K>>)
      requires Valid()
      modifies manager
      ensures var w := WorkflowSpec(cfg, manager.maxDepth, old(manager.history), query, analysis, selections, ask, run, synth);
        r == w.outcome && manager.history == old(manager.history) + w.decisions
    {
      var d :- Decompose(cfg, query, analysis);
      var plan :- CreatePlan(cfg, d, selections);
      var results :- ExecutePlan(plan, ask, run);
      var response :- Synthesize(cfg, query, d, results, synth);
      r := Ok(WorkflowResult(response, d, plan, results, manager.history));
    }
  }
}
