/**
 * The second half of the two copies of orchestration.py: the delegation manager, the executor
 * that follows delegations up to a maximum depth, the plan-execution loop, the synthesis prompt
 * and the top-level orchestrator. The model's delegation replies, the agents' task runs and the
 * synthesis reply are inputs.
 */
module Execution {
  import opened Wrappers
  import opened PyValue
  import Dicts
  import Batching
  import Agents
  import opened Tasks
  import opened Orchestration

  // ---------------------------------------------------------------------------------------
  // Delegation manager
  // ---------------------------------------------------------------------------------------

  /** The delegation reply: unparsable JSON, or whatever JSON value it parsed to. */
  datatype DelegationReply = DelegationUnparsable | DelegationParsed(data: Value)

  /** The decision data substituted when the reply is not JSON. */
  const ParseFailedData: Value := Dict([
    ("should_delegate", Bool(false)), ("to_agent", NoneV),
    ("reason", Str("JSON parsing failed")), ("confidence", Float(0.5))])

  function DecisionData(reply: DelegationReply): Value {
    match reply
    case DelegationUnparsable => ParseFailedData
    case DelegationParsed(v) => v
  }

  /** `data[key]` read as an absent-means-None lookup, for stating contracts. */
  function Field(data: Value, key: string): Value
    requires data.Dict?
  {
    Dicts.GetOr(data.entries, key, NoneV)
  }

  /**
   * The decision read off the reply data: `data["should_delegate"] and data["to_agent"]`
   * decides; only then are "reason" and "confidence" read.
   */
  function DecisionFrom<K>(agent: Agents.Agent, task: SubTask<K>, data: Value): (r: Result<Option<DelegationDecision<K>>>)
    ensures r.Ok? && r.value.Some? ==>
      r.value.value.fromAgent == agent.name && r.value.value.task == task && Truthy(r.value.value.toAgent)
  {
    var should :- GetItem(data, "should_delegate");
    if !Truthy(should) then Ok(None)
    else
      var to :- GetItem(data, "to_agent");
      if !Truthy(to) then Ok(None)
      else
        var reason :- GetItem(data, "reason");
        var confidence :- GetItem(data, "confidence");
        Ok(Some(DelegationDecision(agent.name, to, task, reason, confidence)))
  }

  /**
   * The three outcomes: no delegation exactly when "should_delegate" is present and falsy or
   * "to_agent" is present and falsy; a decision exactly when all four keys are there and the
   * first two truthy, holding the reply's values; otherwise the missing key's KeyError (a
   * TypeError for a reply that is not an object).
   */
  lemma DecisionFromCases<K>(agent: Agents.Agent, task: SubTask<K>, data: Value)
    ensures var r := DecisionFrom(agent, task, data);
      (!data.Dict? ==> r.Err? && r.error.TypeError?)
      && (data.Dict? ==>
            (r == Ok(None) <==>
              Dicts.HasKey(data.entries, "should_delegate")
              && (!Truthy(Field(data, "should_delegate"))
                  || (Dicts.HasKey(data.entries, "to_agent") && !Truthy(Field(data, "to_agent"))))))
      && (data.Dict? ==>
            (r.Ok? && r.value.Some? <==>
              Truthy(Field(data, "should_delegate")) && Truthy(Field(data, "to_agent"))
              && Dicts.HasKey(data.entries, "reason") && Dicts.HasKey(data.entries, "confidence")))
      && (r.Ok? && r.value.Some? ==>
            r.value.value == DelegationDecision(agent.name, Field(data, "to_agent"), task,
                                                Field(data, "reason"), Field(data, "confidence")))
      && (data.Dict? && r.Err? ==>
            r.error in {KeyError("should_delegate"), KeyError("to_agent"), KeyError("reason"), KeyError("confidence")})
  {
  }

  /** `evaluate_delegation_need`: no model call at or beyond the maximum depth. */
  function EvaluateSpec<K>(maxDepth: int, agent: Agents.Agent, task: SubTask<K>, depth: int, reply: DelegationReply): (r: Result<Option<DelegationDecision<K>>>)
    ensures depth >= maxDepth ==> r == Ok(None)
    ensures r.Ok? && r.value.Some? ==>
      depth < maxDepth && r.value.value.fromAgent == agent.name && r.value.value.task == task
      && Truthy(r.value.value.toAgent)
  {
    if depth >= maxDepth then Ok(None) else DecisionFrom(agent, task, DecisionData(reply))
  }

  /** An unparsable reply never delegates and never raises. */
  lemma EvaluateUnparsable<K>(maxDepth: int, agent: Agents.Agent, task: SubTask<K>, depth: int)
    ensures EvaluateSpec(maxDepth, agent, task, depth, DelegationUnparsable) == Ok(None)
  {
    assert Field(ParseFailedData, "should_delegate") == Bool(false);
  }

  /** The decisions a call of `evaluate_delegation_need` appends to the history. */
  function Recorded<K>(r: Result<Option<DelegationDecision<K>>>): seq<DelegationDecision<K>> {
    if r.Ok? && r.value.Some? then [r.value.value] else []
  }

  /** `DelegationManager`: the maximum depth and the history of decisions taken. */
  class DelegationManager<K> {
    const maxDepth: int
    var history: seq<DelegationDecision<K>>

    constructor (maxDepth: int)
      ensures this.maxDepth == maxDepth && history == []
    {
      this.maxDepth := maxDepth;
      history := [];
    }

    /** Decides, and appends a decision to delegate (and nothing else) to the history. */
    method Evaluate(agent: Agents.Agent, task: SubTask<K>, depth: int, reply: DelegationReply)
      returns (r: Result<Option<DelegationDecision<K>>>)
      modifies this
      ensures r == EvaluateSpec(maxDepth, agent, task, depth, reply)
      ensures history == old(history) + Recorded(r)
    {
      if depth >= maxDepth {
        return Ok(None);
      }
      var data := DecisionData(reply);
      r := DecisionFrom(agent, task, data);
      if r.Ok? && r.value.Some? {
        history := history + [r.value.value];
      }
    }
  }

  // ---------------------------------------------------------------------------------------
  // Executor
  // ---------------------------------------------------------------------------------------

  /** The dictionary `coordinate_*_execution` returns. */
  datatype ExecutionRecord = ExecutionRecord(
    agent: string,
    taskId: string,
    taskDescription: string,
    result: string,
    toolsUsed: seq<string>,
    delegationDepth: int)

  /** The result of coordinating one task and the decisions appended on the way. */
  datatype Coordination<K> = Coordination(outcome: Result<ExecutionRecord>, decisions: seq<DelegationDecision<K>>)

  /** Running the task with the agent reached: only names the if/elif chain knows execute. */
  function RunSpec<K>(cfg: Config<K>, name: string, agent: Agents.Agent, task: SubTask<K>, depth: int, run: (Agents.Agent, SubTask<K>) -> Result<string>): (r: Result<ExecutionRecord>)
    ensures name !in cfg.dispatchNames ==> r == Err(ValueError(cfg.unknownAgentMessage + name))
    ensures name in cfg.dispatchNames ==> (r.Ok? <==> run(agent, task).Ok?)
    ensures r.Ok? ==> r.value == ExecutionRecord(agent.name, task.id, task.description, run(agent, task).value, task.requiredTools, depth)
  {
    if name !in cfg.dispatchNames then Err(ValueError(cfg.unknownAgentMessage + name))
    else
      var result :- run(agent, task);
      Ok(ExecutionRecord(agent.name, task.id, task.description, result, task.requiredTools, depth))
  }

  lemma ConcatAssoc<T>(a: seq<T>, b: seq<T>, c: seq<T>)
    ensures a + b + c == a + (b + c)
  {
  }

  function DepthBudget(maxDepth: int, depth: int): nat {
    if depth < maxDepth then maxDepth - depth else 0
  }

  /**
   * `coordinate_*_execution(name, task, depth)`: look the agent up, ask whether to delegate,
   * and go on from the answer (see `AfterEvaluation`).
   */
  function CoordinateSpec<K>(cfg: Config<K>, maxDepth: int, name: string, task: SubTask<K>, depth: int, ask: (Agents.Agent, SubTask<K>, int) -> DelegationReply, run: (Agents.Agent, SubTask<K>) -> Result<string>): Coordination<K>
    decreases DepthBudget(maxDepth, depth), 1
  {
    match Dicts.Index(cfg.pool, name)
    case Err(e) => Coordination(Err(e), [])
    case Ok(agent) =>
      var ev := EvaluateSpec(maxDepth, agent, task, depth, ask(agent, task, depth));
      var rest := AfterEvaluation(cfg, maxDepth, name, agent, task, depth, ev, ask, run);
      Coordination(rest.outcome, Recorded(ev) + rest.decisions)
  }

  /**
   * After the delegation check `ev`: its error is raised; no delegation runs the task; a decision
   * (taken below the maximum depth) whose target is a registered name is coordinated one level
   * deeper, any other target leaves the task with the requested agent. The decisions are those
   * taken after `ev`.
   */
  function AfterEvaluation<K>(cfg: Config<K>, maxDepth: int, name: string, agent: Agents.Agent, task: SubTask<K>, depth: int, ev: Result<Option<DelegationDecision<K>>>, ask: (Agents.Agent, SubTask<K>, int) -> DelegationReply, run: (Agents.Agent, SubTask<K>) -> Result<string>): Coordination<K>
    requires ev.Ok? && ev.value.Some? ==> depth < maxDepth
    decreases DepthBudget(maxDepth, depth), 0
  {
    if ev.Err? then Coordination(Err(ev.error), [])
    else if ev.value.None? then Coordination(RunSpec(cfg, name, agent, task, depth, run), [])
    else
      var d := ev.value.value;
      match InKeys(d.toAgent, Dicts.Keys(cfg.pool))
      case Err(e) => Coordination(Err(e), [])
      case Ok(known) =>
        if known then CoordinateSpec(cfg, maxDepth, d.toAgent.s, task, depth + 1, ask, run)
        else Coordination(RunSpec(cfg, name, agent, task, depth, run), [])
  }

  /**
   * Delegation is bounded: at most one decision per level below the maximum depth, the record
   * describes the task it was given, and its depth counts the delegations followed.
   */
  lemma {:induction false} CoordinateBounds<K>(cfg: Config<K>, maxDepth: int, name: string, task: SubTask<K>, depth: int, ask: (Agents.Agent, SubTask<K>, int) -> DelegationReply, run: (Agents.Agent, SubTask<K>) -> Result<string>)
    ensures var c := CoordinateSpec(cfg, maxDepth, name, task, depth, ask, run);
      |c.decisions| <= DepthBudget(maxDepth, depth)
      && (forall i :: 0 <= i < |c.decisions| ==> c.decisions[i].task == task)
      && (c.outcome.Ok? ==>
            var rec := c.outcome.value;
            rec.taskId == task.id && rec.taskDescription == task.description
            && rec.toolsUsed == task.requiredTools
            && depth <= rec.delegationDepth <= depth + |c.decisions|
            && rec.delegationDepth <= if depth < maxDepth then maxDepth else depth)
    decreases DepthBudget(maxDepth, depth)
  {
    var c := CoordinateSpec(cfg, maxDepth, name, task, depth, ask, run);
    var found := Dicts.Index(cfg.pool, name);
    if found.Ok? {
      var agent := found.value;
      var ev := EvaluateSpec(maxDepth, agent, task, depth, ask(agent, task, depth));
      if ev.Ok? && ev.value.Some? {
        var d := ev.value.value;
        var known := InKeys(d.toAgent, Dicts.Keys(cfg.pool));
        if known.Ok? && known.value {
          CoordinateBounds(cfg, maxDepth, d.toAgent.s, task, depth + 1, ask, run);
          var rest := CoordinateSpec(cfg, maxDepth, d.toAgent.s, task, depth + 1, ask, run);
          assert c.decisions == [d] + rest.decisions;
        }
      }
    }
  }

  /**
   * Pool name `n` ran the task of `c`: it is registered and known to the dispatch chain, the
   * record names its agent, and it is the starting name or the target of a decision taken.
   */
  predicate RanBy<K>(cfg: Config<K>, c: Coordination<K>, start: string, n: string)
    requires c.outcome.Ok?
  {
    Dicts.HasKey(cfg.pool, n) && n in cfg.dispatchNames
    && c.outcome.value.agent == Dicts.Lookup(cfg.pool, n).value.name
    && (n == start || exists i :: 0 <= i < |c.decisions| && c.decisions[i].toAgent == Str(n))
  }

  /** The record names the agent that ran the task: the requested one, or a delegate. */
  lemma {:induction false} CoordinateAgent<K>(cfg: Config<K>, maxDepth: int, name: string, task: SubTask<K>, depth: int, ask: (Agents.Agent, SubTask<K>, int) -> DelegationReply, run: (Agents.Agent, SubTask<K>) -> Result<string>)
    requires CoordinateSpec(cfg, maxDepth, name, task, depth, ask, run).outcome.Ok?
    ensures exists n :: RanBy(cfg, CoordinateSpec(cfg, maxDepth, name, task, depth, ask, run), name, n)
    decreases DepthBudget(maxDepth, depth)
  {
    var c := CoordinateSpec(cfg, maxDepth, name, task, depth, ask, run);
    var agent := Dicts.Index(cfg.pool, name).value;
    var ev := EvaluateSpec(maxDepth, agent, task, depth, ask(agent, task, depth));
    if ev.value.Some? && InKeys(ev.value.value.toAgent, Dicts.Keys(cfg.pool)).value {
      var d := ev.value.value;
      CoordinateAgent(cfg, maxDepth, d.toAgent.s, task, depth + 1, ask, run);
      var rest := CoordinateSpec(cfg, maxDepth, d.toAgent.s, task, depth + 1, ask, run);
      var n :| RanBy(cfg, rest, d.toAgent.s, n);
      assert c == Coordination(rest.outcome, [d] + rest.decisions);
      RanByDelegate(cfg, c, rest, d, name, n);
    } else {
      assert c.outcome == RunSpec(cfg, name, agent, task, depth, run);
      assert RanBy(cfg, c, name, name);
    }
  }

  /** A name that ran the delegate's coordination ran the delegating one. */
  lemma RanByDelegate<K>(cfg: Config<K>, c: Coordination<K>, rest: Coordination<K>, d: DelegationDecision<K>, name: string, n: string)
    requires rest.outcome.Ok? && d.toAgent.Str? && RanBy(cfg, rest, d.toAgent.s, n)
    requires c == Coordination(rest.outcome, [d] + rest.decisions)
    ensures RanBy(cfg, c, name, n)
  {
    if n == d.toAgent.s {
      assert c.decisions[0].toAgent == Str(n);
    } else {
      var i :| 0 <= i < |rest.decisions| && rest.decisions[i].toAgent == Str(n);
      assert c.decisions[i + 1].toAgent == Str(n);
    }
  }

  /** A delegation reply that parses to a dict with all four keys and a string-or-null target. */
  predicate WellFormedDelegation(reply: DelegationReply) {
    reply.DelegationUnparsable?
    || (reply.data.Dict?
        && Dicts.HasKey(reply.data.entries, "should_delegate") && Dicts.HasKey(reply.data.entries, "to_agent")
        && Dicts.HasKey(reply.data.entries, "reason") && Dicts.HasKey(reply.data.entries, "confidence")
        && (Field(reply.data, "to_agent").Str? || Field(reply.data, "to_agent").NoneV?))
  }

  /**
   * With a registered starting name, every registered name known to the dispatch chain and
   * well-formed delegation replies, coordination fails only when an agent's run fails.
   */
  lemma {:induction false} CoordinateSafe<K>(cfg: Config<K>, maxDepth: int, name: string, task: SubTask<K>, depth: int, ask: (Agents.Agent, SubTask<K>, int) -> DelegationReply, run: (Agents.Agent, SubTask<K>) -> Result<string>)
    requires Dicts.HasKey(cfg.pool, name)
    requires forall i :: 0 <= i < |cfg.pool| ==> cfg.pool[i].0 in cfg.dispatchNames
    requires forall a, t, dep :: WellFormedDelegation(ask(a, t, dep))
    requires forall a, t :: run(a, t).Ok?
    ensures CoordinateSpec(cfg, maxDepth, name, task, depth, ask, run).outcome.Ok?
    decreases DepthBudget(maxDepth, depth)
  {
    InPoolDispatched(cfg, name);
    var agent := Dicts.Index(cfg.pool, name).value;
    var reply := ask(agent, task, depth);
    assert WellFormedDelegation(reply);
    var ev := EvaluateSpec(maxDepth, agent, task, depth, reply);
    if depth < maxDepth && reply.DelegationUnparsable? {
      EvaluateUnparsable(maxDepth, agent, task, depth);
    }
    assert ev.Ok?;
    if ev.value.Some? {
      var d := ev.value.value;
      assert d.toAgent.Str?;
      var known := InKeys(d.toAgent, Dicts.Keys(cfg.pool));
      if known.value {
        KeyInPool(cfg.pool, d.toAgent.s);
        CoordinateSafe(cfg, maxDepth, d.toAgent.s, task, depth + 1, ask, run);
      }
    }
  }

  lemma InPoolDispatched<K>(cfg: Config<K>, name: string)
    requires Dicts.HasKey(cfg.pool, name)
    requires forall i :: 0 <= i < |cfg.pool| ==> cfg.pool[i].0 in cfg.dispatchNames
    ensures name in cfg.dispatchNames
  {
    var i :| 0 <= i < |cfg.pool| && cfg.pool[i].0 == name;
  }

  lemma KeyInPool(pool: Dicts.Dict<Agents.Agent>, s: string)
    requires s in Dicts.Keys(pool)
    ensures Dicts.HasKey(pool, s)
  {
    var j :| 0 <= j < |Dicts.Keys(pool)| && Dicts.Keys(pool)[j] == s;
    assert pool[j].0 == s;
  }

  /**
   * When the dispatch chain lists exactly the pool's keys, coordination from any name it knows
   * completes, given well-formed delegation replies and runs that complete.
   */
  lemma CoordinateKnown<K>(cfg: Config<K>, maxDepth: int, name: string, task: SubTask<K>, depth: int, ask: (Agents.Agent, SubTask<K>, int) -> DelegationReply, run: (Agents.Agent, SubTask<K>) -> Result<string>)
    requires Dicts.Keys(cfg.pool) == cfg.dispatchNames && name in cfg.dispatchNames
    requires forall a, t, dep :: WellFormedDelegation(ask(a, t, dep))
    requires forall a, t :: run(a, t).Ok?
    ensures CoordinateSpec(cfg, maxDepth, name, task, depth, ask, run).outcome.Ok?
  {
    DispatchCovers(cfg, name);
    CoordinateSafe(cfg, maxDepth, name, task, depth, ask, run);
  }

  /** `SpecialistExecutor` / `AgentExecutor`: the agent pool and the shared delegation manager. */
  class Executor<K> {
    const cfg: Config<K>
    const manager: DelegationManager<K>

    constructor (cfg: Config<K>, manager: DelegationManager<K>)
      ensures this.cfg == cfg && this.manager == manager
    {
      this.cfg := cfg;
      this.manager := manager;
    }

    /** `coordinate_*_execution`; the decisions taken on the way stay in the history even if it raises. */
    method Coordinate(name: string, task: SubTask<K>, depth: int, ask: (Agents.Agent, SubTask<K>, int) -> DelegationReply, run: (Agents.Agent, SubTask<K>) -> Result<string>)
      returns (r: Result<ExecutionRecord>)
      modifies manager
      ensures var c := CoordinateSpec(cfg, manager.maxDepth, name, task, depth, ask, run);
        r == c.outcome && manager.history == old(manager.history) + c.decisions
      decreases DepthBudget(manager.maxDepth, depth), 1
    {
      var found := Dicts.Index(cfg.pool, name);
      if found.Err? {
        return Err(found.error);
      }
      var agent := found.value;
      ghost var before := manager.history;
      var delegation := manager.Evaluate(agent, task, depth, ask(agent, task, depth));
      r := Proceed(name, agent, task, depth, delegation, ask, run);
      ghost var rest := AfterEvaluation(cfg, manager.maxDepth, name, agent, task, depth, delegation, ask, run);
      ConcatAssoc(before, Recorded(delegation), rest.decisions);
    }

    /** Everything after the delegation check. */
    method Proceed(name: string, agent: Agents.Agent, task: SubTask<K>, depth: int, ev: Result<Option<DelegationDecision<K>>>, ask: (Agents.Agent, SubTask<K>, int) -> DelegationReply, run: (Agents.Agent, SubTask<K>) -> Result<string>)
      returns (r: Result<ExecutionRecord>)
      requires ev.Ok? && ev.value.Some? ==> depth < manager.maxDepth
      modifies manager
      ensures var c := AfterEvaluation(cfg, manager.maxDepth, name, agent, task, depth, ev, ask, run);
        r == c.outcome && manager.history == old(manager.history) + c.decisions
      decreases DepthBudget(manager.maxDepth, depth), 0
    {
      if ev.Err? {
        return Err(ev.error);
      }
      if ev.value.None? {
        r := Execute(name, agent, task, depth, run);
        return;
      }
      var d := ev.value.value;
      var known := InKeys(d.toAgent, Dicts.Keys(cfg.pool));
      if known.Err? {
        return Err(known.error);
      }
      if known.value {
        r := Coordinate(d.toAgent.s, task, depth + 1, ask, run);
      } else {
        r := Execute(name, agent, task, depth, run);
      }
    }

    /** The if/elif chain on the requested name, then the agent's run. */
    method Execute(name: string, agent: Agents.Agent, task: SubTask<K>, depth: int, run: (Agents.Agent, SubTask<K>) -> Result<string>)
      returns (r: Result<ExecutionRecord>)
      ensures r == RunSpec(cfg, name, agent, task, depth, run)
    {
      if name !in cfg.dispatchNames {
        return Err(ValueError(cfg.unknownAgentMessage + name));
      }
      var result := run(agent, task);
      if result.Err? {
        return Err(result.error);
      }
      r := Ok(ExecutionRecord(agent.name, task.id, task.description, result.value, task.requiredTools, depth));
    }
  }
}
