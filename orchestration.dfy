/**
 * The control logic shared by the two multi-agent cookbooks (wealth-management-agent and
 * crewai-multi-agent-cookbook, orchestration.py): decomposing a query, routing each subtask to
 * an agent, bounded delegation, plan execution and the synthesis prompt. The model's replies
 * are inputs: each is either "parse failed" or the parsed value.
 */
module Orchestration {
  import opened Wrappers
  import opened PyValue
  import Dicts
  import Batching
  import Agents
  import opened Tasks

  /** How the synthesis prompt renders one task result. */
  datatype SectionStyle =
    | SpecialistFindings   // "\n{id} ({desc})\nSpecialist: {agent}\nFindings:\n{result}\n"
    | AgentResults         // "\n{id} ({desc}) - Agent: {agent}:\n{result}\n"

  /** What differs between the two copies of orchestration.py. */
  datatype Config<K> = Config(
    parseKind: string -> Result<K>,          // `TaskType(value)`
    fallbackTools: seq<string>,              // of the single fallback subtask
    fallbackCapabilities: seq<string>,
    pool: Dicts.Dict<Agents.Agent>,          // `{name: cls() for name, cls in AGENT_REGISTRY.items()}`
    dispatchNames: seq<string>,              // the names the executor's if/elif chain knows
    unknownAgentMessage: string,             // the ValueError text before the name
    synthesisOpening: string,                // prompt text before the query
    synthesisMiddle: string,                 // prompt text between the query and the sections
    sectionStyle: SectionStyle,
    synthesisClosing: string)                // prompt text after the sections

  // ---------------------------------------------------------------------------------------
  // Task analysis
  // ---------------------------------------------------------------------------------------

  /**
   * One element of the reply's "subtasks" list: an object, where `None` is an absent key, or a
   * JSON value that is not an object (a list, string, number or null).
   */
  datatype RawSubTask =
    | RawSubTask(
        id: Option<string>,
        description: Option<string>,
        kind: Option<string>,
        complexity: Option<int>,
        dependencies: Option<seq<string>>,
        requiredTools: Option<seq<string>>,
        requiredCapabilities: Option<seq<string>>)
    | RawNotObject

  /** What `v["key"]` raises on a JSON value that is not an object. */
  const NotSubscriptable := TypeError("indices must be integers or slices, not str")

  /**
   * The decomposition reply: unparsable JSON, JSON that is not an object, or an object whose
   * keys may be absent.
   */
  datatype AnalysisReply =
    | AnalysisUnparsable
    | AnalysisNotObject
    | Analysis(subtasks: Option<seq<RawSubTask>>, executionOrder: Option<seq<string>>,
               parallelGroups: Option<seq<seq<string>>>)

  /** The analysis the analyzer substitutes when the reply is not JSON. */
  function FallbackAnalysis<K>(cfg: Config<K>, query: string): AnalysisReply {
    Analysis(
      Some([RawSubTask(Some("task_1"), Some(query), Some("general"), Some(3), Some([]),
                       Some(cfg.fallbackTools), Some(cfg.fallbackCapabilities))]),
      Some(["task_1"]),
      Some([["task_1"]]))
  }

  /**
   * `SubTask(id=st["id"], description=st["description"], type=TaskType(st["type"]),
   * complexity=st["complexity"], ...)`: the keyword arguments are evaluated in this order,
   * so the first missing key (or an unknown type tag) is the error raised.
   */
  function ConvertSubTask<K>(cfg: Config<K>, st: RawSubTask): (r: Result<SubTask<K>>)
    ensures st.RawNotObject? ==> r == Err(NotSubscriptable)
    ensures st.RawSubTask? && st.id.None? ==> r == Err(KeyError("id"))
    ensures st.RawSubTask? && st.id.Some? && st.description.None? ==> r == Err(KeyError("description"))
    ensures st.RawSubTask? && st.id.Some? && st.description.Some? && st.kind.None? ==> r == Err(KeyError("type"))
    ensures st.RawSubTask? && st.id.Some? && st.description.Some? && st.kind.Some? && cfg.parseKind(st.kind.value).Err? ==>
      r == Err(cfg.parseKind(st.kind.value).error)
    ensures r.Ok? <==>
      st.RawSubTask? && st.id.Some? && st.description.Some? && st.kind.Some? && cfg.parseKind(st.kind.value).Ok? && st.complexity.Some?
    ensures r.Ok? ==>
      r.value.id == st.id.value && r.value.description == st.description.value
      && r.value.kind == cfg.parseKind(st.kind.value).value && r.value.complexity == st.complexity.value
      && r.value.dependencies == st.dependencies.GetOr([])
      && r.value.requiredTools == st.requiredTools.GetOr([])
      && r.value.requiredCapabilities == st.requiredCapabilities.GetOr([])
  {
    if st.RawNotObject? then Err(NotSubscriptable)
    else if st.id.None? then Err(KeyError("id"))
    else if st.description.None? then Err(KeyError("description"))
    else if st.kind.None? then Err(KeyError("type"))
    else
      var kind :- cfg.parseKind(st.kind.value);
      if st.complexity.None? then Err(KeyError("complexity"))
      else Ok(SubTask(st.id.value, st.description.value, kind, st.complexity.value,
                      st.dependencies.GetOr([]), st.requiredTools.GetOr([]), st.requiredCapabilities.GetOr([])))
  }

  /** The conversion loop: every element converted in order, or the first failing element's error. */
  function ConvertAll<K>(cfg: Config<K>, raws: seq<RawSubTask>): (r: Result<seq<SubTask<K>>>)
    ensures r.Ok? <==> forall i :: 0 <= i < |raws| ==> ConvertSubTask(cfg, raws[i]).Ok?
    ensures r.Ok? ==> |r.value| == |raws| && forall i :: 0 <= i < |raws| ==> r.value[i] == ConvertSubTask(cfg, raws[i]).value
    ensures r.Err? ==> exists i :: FirstFailure(cfg, raws, i) && r.error == ConvertSubTask(cfg, raws[i]).error
  {
    if raws == [] then Ok([])
    else
      var head := ConvertSubTask(cfg, raws[0]);
      if head.Err? then
        assert FirstFailure(cfg, raws, 0);
        Err(head.error)
      else
        var tail := ConvertAll(cfg, raws[1..]);
        if tail.Err? then
          FirstFailureShift(cfg, raws);
          Err(tail.error)
        else Ok([head.value] + tail.value)
  }

  /** Element `i` is the first one whose conversion fails. */
  predicate FirstFailure<K>(cfg: Config<K>, raws: seq<RawSubTask>, i: int) {
    0 <= i < |raws| && ConvertSubTask(cfg, raws[i]).Err?
    && forall j :: 0 <= j < i ==> ConvertSubTask(cfg, raws[j]).Ok?
  }

  lemma FirstFailureShift<K>(cfg: Config<K>, raws: seq<RawSubTask>)
    requires raws != [] && ConvertSubTask(cfg, raws[0]).Ok?
    ensures forall i :: FirstFailure(cfg, raws[1..], i) ==> FirstFailure(cfg, raws, i + 1) && raws[1..][i] == raws[i + 1]
  {
    forall i | FirstFailure(cfg, raws[1..], i) ensures FirstFailure(cfg, raws, i + 1) {
      forall j | 0 <= j < i + 1 ensures ConvertSubTask(cfg, raws[j]).Ok? {
        if j > 0 {
          assert raws[j] == raws[1..][j - 1];
        }
      }
    }
  }

  /** `[[t.id] for t in subtasks]`. */
  function SingletonGroups<K>(subtasks: seq<SubTask<K>>): (groups: seq<seq<string>>)
    ensures |groups| == |subtasks| && forall i :: 0 <= i < |subtasks| ==> groups[i] == [subtasks[i].id]
  {
    seq(|subtasks|, i requires 0 <= i < |subtasks| => [subtasks[i].id])
  }

  /** What `analyze_client_inquiry` / `decompose_user_query` returns for a reply. */
  function DecomposeSpec<K>(cfg: Config<K>, query: string, reply: AnalysisReply): Result<Decomposition<K>> {
    var analysis := if reply.AnalysisUnparsable? then FallbackAnalysis(cfg, query) else reply;
    if analysis.AnalysisNotObject? then Err(NotSubscriptable)
    else if analysis.subtasks.None? then Err(KeyError("subtasks"))
    else
      var subtasks :- ConvertAll(cfg, analysis.subtasks.value);
      if analysis.executionOrder.None? then Err(KeyError("execution_order"))
      else Ok(Decomposition(query, subtasks, analysis.executionOrder.value,
                            analysis.parallelGroups.GetOr(SingletonGroups(subtasks))))
  }

  /** The analyzer: post-processing of the reply, with the subtask loop. */
  method Decompose<K>(cfg: Config<K>, query: string, reply: AnalysisReply) returns (r: Result<Decomposition<K>>)
    ensures r == DecomposeSpec(cfg, query, reply)
  {
    var analysis := reply;
    if reply.AnalysisUnparsable? {
      analysis := FallbackAnalysis(cfg, query);
    }
    if analysis.AnalysisNotObject? {
      return Err(NotSubscriptable);
    }
    if analysis.subtasks.None? {
      return Err(KeyError("subtasks"));
    }
    var raws := analysis.subtasks.value;
    var subtasks: seq<SubTask<K>> := [];
    var i := 0;
    while i < |raws|
      invariant 0 <= i <= |raws| && |subtasks| == i
      invariant forall j :: 0 <= j < i ==> ConvertSubTask(cfg, raws[j]).Ok? && subtasks[j] == ConvertSubTask(cfg, raws[j]).value
    {
      var st := ConvertSubTask(cfg, raws[i]);
      if st.Err? {
        assert FirstFailure(cfg, raws, i);
        FirstFailureUnique(cfg, raws, i);
        return Err(st.error);
      }
      subtasks := subtasks + [st.value];
      i := i + 1;
    }
    var converted := ConvertAll(cfg, raws);
    assert converted.Ok? && subtasks == converted.value;
    if analysis.executionOrder.None? {
      return Err(KeyError("execution_order"));
    }
    r := Ok(Decomposition(query, subtasks, analysis.executionOrder.value,
                          analysis.parallelGroups.GetOr(SingletonGroups(subtasks))));
  }

  lemma FirstFailureUnique<K>(cfg: Config<K>, raws: seq<RawSubTask>, i: int)
    requires FirstFailure(cfg, raws, i)
    ensures ConvertAll(cfg, raws) == Err(ConvertSubTask(cfg, raws[i]).error)
  {
    var r := ConvertAll(cfg, raws);
    assert r.Err?;
    var k :| FirstFailure(cfg, raws, k) && r.error == ConvertSubTask(cfg, raws[k]).error;
    assert 0 <= k < |raws|;
    assert ConvertSubTask(cfg, raws[k]).Err?;
  }

  /**
   * An unparsable reply yields exactly one subtask: "task_1", the query, type "general",
   * complexity 3, no dependencies, the fallback tools and capabilities; order and groups ["task_1"].
   */
  lemma DecomposeFallback<K>(cfg: Config<K>, query: string, general: K)
    requires cfg.parseKind("general") == Ok(general)
    ensures DecomposeSpec(cfg, query, AnalysisUnparsable) ==
      Ok(Decomposition(query, [SubTask("task_1", query, general, 3, [], cfg.fallbackTools, cfg.fallbackCapabilities)],
                       ["task_1"], [["task_1"]]))
  {
    var raw := RawSubTask(Some("task_1"), Some(query), Some("general"), Some(3), Some([]),
                          Some(cfg.fallbackTools), Some(cfg.fallbackCapabilities));
    var task := SubTask("task_1", query, general, 3, [], cfg.fallbackTools, cfg.fallbackCapabilities);
    assert ConvertSubTask(cfg, raw) == Ok(task);
    var converted := ConvertAll(cfg, [raw]);
    assert converted.Ok? && |converted.value| == 1 && converted.value[0] == task;
    assert converted.value == [task];
  }

  /**
   * A parsed reply: the query is kept, the subtasks keep their order and count (absent list
   * fields become []), and absent groups default to one singleton group per subtask.
   */
  lemma DecomposeParsed<K>(cfg: Config<K>, query: string, reply: AnalysisReply)
    requires !reply.AnalysisUnparsable?
    ensures reply.AnalysisNotObject? ==> DecomposeSpec(cfg, query, reply) == Err(NotSubscriptable)
    ensures reply.Analysis? && reply.subtasks.None? ==> DecomposeSpec(cfg, query, reply) == Err(KeyError("subtasks"))
    ensures var r := DecomposeSpec(cfg, query, reply);
      r.Ok? ==>
        reply.Analysis? && reply.subtasks.Some? && reply.executionOrder.Some?
        && r.value.originalQuery == query
        && |r.value.subtasks| == |reply.subtasks.value|
        && (forall i :: 0 <= i < |reply.subtasks.value| ==>
              r.value.subtasks[i] == ConvertSubTask(cfg, reply.subtasks.value[i]).value)
        && r.value.executionOrder == reply.executionOrder.value
        && r.value.parallelGroups == reply.parallelGroups.GetOr(SingletonGroups(r.value.subtasks))
    ensures var r := DecomposeSpec(cfg, query, reply);
      (reply.Analysis? && reply.subtasks.Some? && exists i :: 0 <= i < |reply.subtasks.value| && ConvertSubTask(cfg, reply.subtasks.value[i]).Err?) ==>
        r.Err?
    ensures var r := DecomposeSpec(cfg, query, reply);
      (reply.Analysis? && reply.subtasks.Some? && ConvertAll(cfg, reply.subtasks.value).Ok? && reply.executionOrder.None?) ==>
        r == Err(KeyError("execution_order"))
  {
  }

  // ---------------------------------------------------------------------------------------
  // Routing
  // ---------------------------------------------------------------------------------------

  /**
   * The selection reply: unparsable, JSON that is not an object (its TypeError is not among the
   * exceptions the router catches), or an object with possibly absent "agent" / "confidence".
   */
  datatype SelectionReply =
    | SelectionUnparsable
    | SelectionNotObject
    | Selection(agent: Option<string>, confidence: Option<real>)

  /** The returned `(agent, confidence)` pair. */
  datatype Choice = Choice(agent: Agents.Agent, confidence: real)

  /** The scoring loop: each candidate's capability score, or KeyError for the first unknown one. */
  function ScoreMap(pool: Dicts.Dict<Agents.Agent>, names: seq<string>, required: seq<string>): (r: Result<map<string, real>>)
    ensures r.Ok? <==> forall i :: 0 <= i < |names| ==> Dicts.HasKey(pool, names[i])
    ensures r.Ok? ==> r.value.Keys == set n | n in names
    ensures r.Ok? ==> forall n :: n in r.value ==> r.value[n] == PoolScore(pool, n, required)
    ensures r.Err? ==> exists i :: FirstMissing(pool, names, i) && r.error == KeyError(names[i])
  {
    if names == [] then Ok(map[])
    else
      match Dicts.Lookup(pool, names[0])
      case None =>
        assert FirstMissing(pool, names, 0);
        Err(KeyError(names[0]))
      case Some(a) =>
        var rest := ScoreMap(pool, names[1..], required);
        if rest.Err? then
          FirstMissingShift(pool, names);
          Err(rest.error)
        else
          assert names == [names[0]] + names[1..];
          Ok(rest.value[names[0] := Agents.Score(a.capabilities, required)])
  }

  /** The capability score of the pool agent `n` (0 for a name outside the pool). */
  function PoolScore(pool: Dicts.Dict<Agents.Agent>, n: string, required: seq<string>): real {
    match Dicts.Lookup(pool, n)
    case Some(a) => Agents.Score(a.capabilities, required)
    case None => 0.0
  }

  /** Candidate `i` is the first one missing from the pool. */
  predicate FirstMissing(pool: Dicts.Dict<Agents.Agent>, names: seq<string>, i: int) {
    0 <= i < |names| && !Dicts.HasKey(pool, names[i])
    && forall j :: 0 <= j < i ==> Dicts.HasKey(pool, names[j])
  }

  lemma FirstMissingShift(pool: Dicts.Dict<Agents.Agent>, names: seq<string>)
    requires names != [] && Dicts.HasKey(pool, names[0])
    ensures forall i :: FirstMissing(pool, names[1..], i) ==> FirstMissing(pool, names, i + 1) && names[1..][i] == names[i + 1]
  {
    forall i | FirstMissing(pool, names[1..], i) ensures FirstMissing(pool, names, i + 1) {
      forall j | 0 <= j < i + 1 ensures Dicts.HasKey(pool, names[j]) {
        if j > 0 {
          assert names[j] == names[1..][j - 1];
        }
      }
    }
  }

  lemma FirstMissingUnique(pool: Dicts.Dict<Agents.Agent>, names: seq<string>, i: int, required: seq<string>)
    requires FirstMissing(pool, names, i)
    ensures ScoreMap(pool, names, required) == Err(KeyError(names[i]))
  {
    var r := ScoreMap(pool, names, required);
    assert r.Err?;
    var k :| FirstMissing(pool, names, k) && r.error == KeyError(names[k]);
    assert 0 <= k < |names|;
  }

  /** `max(names, key=lambda n: scores[n])`: the index of the first candidate with the highest score. */
  function FirstMax(names: seq<string>, scores: map<string, real>): (i: nat)
    requires names != []
    requires forall j :: 0 <= j < |names| ==> names[j] in scores
    ensures i < |names|
    ensures forall j :: 0 <= j < |names| ==> scores[names[j]] <= scores[names[i]]
    ensures forall j :: 0 <= j < i ==> scores[names[j]] < scores[names[i]]
  {
    if |names| == 1 then 0
    else
      var k := FirstMax(names[..|names| - 1], scores);
      if scores[names[|names| - 1]] > scores[names[k]] then |names| - 1 else k
  }

  /** What `select_specialist_for_task` / `select_agent_for_task` returns. */
  function SelectSpec<K>(cfg: Config<K>, task: SubTask<K>, candidates: Option<seq<string>>, reply: SelectionReply): Result<Choice> {
    var names := candidates.GetOr(Dicts.Keys(cfg.pool));
    var scores :- ScoreMap(cfg.pool, names, task.requiredCapabilities);
    Decide(cfg.pool, names, scores, reply)
  }

  /** After scoring: the model's pick when the reply has both keys, else the first best score. */
  function Decide(pool: Dicts.Dict<Agents.Agent>, names: seq<string>, scores: map<string, real>, reply: SelectionReply): Result<Choice>
    requires forall j :: 0 <= j < |names| ==> names[j] in scores
  {
    if reply.SelectionNotObject? then Err(NotSubscriptable)
    else if reply.Selection? && reply.agent.Some? && reply.confidence.Some? then
      var a :- Dicts.Index(pool, reply.agent.value);
      Ok(Choice(a, reply.confidence.value))
    else if names == [] then Err(ValueError("max() arg is an empty sequence"))
    else
      var best := names[FirstMax(names, scores)];
      var a :- Dicts.Index(pool, best);
      Ok(Choice(a, scores[best]))
  }

  /** The scoring loop of the router: each candidate's score, stopping at the first unknown name. */
  method ScoreCandidates(pool: Dicts.Dict<Agents.Agent>, names: seq<string>, required: seq<string>)
    returns (r: Result<map<string, real>>)
    ensures r == ScoreMap(pool, names, required)
  {
    var scores: map<string, real> := map[];
    var i := 0;
    while i < |names|
      invariant 0 <= i <= |names|
      invariant forall j :: 0 <= j < i ==> Dicts.HasKey(pool, names[j])
      invariant scores.Keys == set j | 0 <= j < i :: names[j]
      invariant forall n :: n in scores ==> scores[n] == PoolScore(pool, n, required)
    {
      var found := Dicts.Lookup(pool, names[i]);
      if found.None? {
        assert FirstMissing(pool, names, i);
        FirstMissingUnique(pool, names, i, required);
        return Err(KeyError(names[i]));
      }
      var score := Agents.CapabilityScore(found.value, required);
      scores := scores[names[i] := score];
      i := i + 1;
    }
    var expected := ScoreMap(pool, names, required);
    assert expected.Ok?;
    assert (set j | 0 <= j < |names| :: names[j]) == set n | n in names;
    assert scores == expected.value;
    return Ok(scores);
  }

  /** The router's selection: score the candidates, then take the reply's pick or the best score. */
  method SelectAgent<K>(cfg: Config<K>, task: SubTask<K>, candidates: Option<seq<string>>, reply: SelectionReply)
    returns (r: Result<Choice>)
    ensures r == SelectSpec(cfg, task, candidates, reply)
  {
    var names := candidates.GetOr(Dicts.Keys(cfg.pool));
    var scored := ScoreCandidates(cfg.pool, names, task.requiredCapabilities);
    if scored.Err? {
      return Err(scored.error);
    }
    var scores := scored.value;
    if reply.SelectionNotObject? {
      return Err(NotSubscriptable);
    }
    if reply.Selection? && reply.agent.Some? && reply.confidence.Some? {
      var a := Dicts.Index(cfg.pool, reply.agent.value);
      if a.Err? {
        return Err(a.error);
      }
      return Ok(Choice(a.value, reply.confidence.value));
    }
    if names == [] {
      return Err(ValueError("max() arg is an empty sequence"));
    }
    assert forall j :: 0 <= j < |names| ==> names[j] in scores;
    var best := names[FirstMax(names, scores)];
    assert Dicts.HasKey(cfg.pool, best);
    r := Ok(Choice(Dicts.Index(cfg.pool, best).value, scores[best]));
  }

  /** `c` is the pool agent of the first candidate with the highest score, at that score. */
  predicate FirstBest(pool: Dicts.Dict<Agents.Agent>, names: seq<string>, required: seq<string>, c: Choice) {
    exists k :: 0 <= k < |names| && Dicts.Lookup(pool, names[k]) == Some(c.agent)
      && c.confidence == PoolScore(pool, names[k], required)
      && (forall j :: 0 <= j < |names| ==> PoolScore(pool, names[j], required) <= c.confidence)
      && (forall j :: 0 <= j < k ==> PoolScore(pool, names[j], required) < c.confidence)
  }

  /**
   * Without a usable reply the choice is the pool agent of the first candidate, in candidate
   * order, with the highest capability score, and that score is the confidence; with no
   * candidates the call raises ValueError. Candidates default to every pool name.
   */
  lemma SelectFallback<K>(cfg: Config<K>, task: SubTask<K>, candidates: Option<seq<string>>, reply: SelectionReply)
    requires reply.SelectionUnparsable? || (reply.Selection? && !(reply.agent.Some? && reply.confidence.Some?))
    requires forall i :: 0 <= i < |candidates.GetOr(Dicts.Keys(cfg.pool))| ==>
      Dicts.HasKey(cfg.pool, candidates.GetOr(Dicts.Keys(cfg.pool))[i])
    ensures candidates.GetOr(Dicts.Keys(cfg.pool)) == [] ==>
      SelectSpec(cfg, task, candidates, reply) == Err(ValueError("max() arg is an empty sequence"))
    ensures candidates.GetOr(Dicts.Keys(cfg.pool)) != [] ==>
      SelectSpec(cfg, task, candidates, reply).Ok?
      && FirstBest(cfg.pool, candidates.GetOr(Dicts.Keys(cfg.pool)), task.requiredCapabilities, SelectSpec(cfg, task, candidates, reply).value)
  {
    var names := candidates.GetOr(Dicts.Keys(cfg.pool));
    var sm := ScoreMap(cfg.pool, names, task.requiredCapabilities);
    assert sm.Ok?;
    if names != [] {
      var scores := sm.value;
      assert forall j :: 0 <= j < |names| ==> names[j] in scores;
      var k := FirstMax(names, scores);
      var c := Choice(Dicts.Index(cfg.pool, names[k]).value, scores[names[k]]);
      assert Decide(cfg.pool, names, scores, reply) == Ok(c);
      FirstMaxIsFirstBest(cfg.pool, names, task.requiredCapabilities, scores);
    }
  }

  /** The first maximum of the score map is the first best pool agent. */
  lemma FirstMaxIsFirstBest(pool: Dicts.Dict<Agents.Agent>, names: seq<string>, required: seq<string>, scores: map<string, real>)
    requires names != []
    requires forall j :: 0 <= j < |names| ==> Dicts.HasKey(pool, names[j]) && names[j] in scores
    requires forall n :: n in scores ==> scores[n] == PoolScore(pool, n, required)
    ensures FirstBest(pool, names, required, Choice(Dicts.Index(pool, names[FirstMax(names, scores)]).value, scores[names[FirstMax(names, scores)]]))
  {
    var k := FirstMax(names, scores);
    var c := Choice(Dicts.Index(pool, names[k]).value, scores[names[k]]);
    assert Dicts.Lookup(pool, names[k]) == Some(c.agent);
    assert c.confidence == PoolScore(pool, names[k], required);
    assert forall j :: 0 <= j < |names| ==> PoolScore(pool, names[j], required) == scores[names[j]];
  }

  /** A usable reply naming an agent outside the pool raises KeyError for that name. */
  lemma SelectUnknownAgent<K>(cfg: Config<K>, task: SubTask<K>, candidates: Option<seq<string>>, reply: SelectionReply)
    requires reply.Selection? && reply.agent.Some? && reply.confidence.Some?
    requires var names := candidates.GetOr(Dicts.Keys(cfg.pool));
      forall i :: 0 <= i < |names| ==> Dicts.HasKey(cfg.pool, names[i])
    ensures Dicts.HasKey(cfg.pool, reply.agent.value) ==>
      SelectSpec(cfg, task, candidates, reply) == Ok(Choice(Dicts.Lookup(cfg.pool, reply.agent.value).value, reply.confidence.value))
    ensures !Dicts.HasKey(cfg.pool, reply.agent.value) ==>
      SelectSpec(cfg, task, candidates, reply) == Err(KeyError(reply.agent.value))
  {
    assert ScoreMap(cfg.pool, candidates.GetOr(Dicts.Keys(cfg.pool)), task.requiredCapabilities).Ok?;
  }

  /** A reply that is JSON but not an object raises TypeError, which the router does not catch. */
  lemma SelectNotObject<K>(cfg: Config<K>, task: SubTask<K>, candidates: Option<seq<string>>)
    requires var names := candidates.GetOr(Dicts.Keys(cfg.pool));
      forall i :: 0 <= i < |names| ==> Dicts.HasKey(cfg.pool, names[i])
    ensures SelectSpec(cfg, task, candidates, SelectionNotObject) == Err(NotSubscriptable)
  {
    assert ScoreMap(cfg.pool, candidates.GetOr(Dicts.Keys(cfg.pool)), task.requiredCapabilities).Ok?;
  }

  /** A dispatch chain listing exactly the pool's keys knows every pool agent, and only those. */
  lemma DispatchCovers<K>(cfg: Config<K>, name: string)
    requires Dicts.Keys(cfg.pool) == cfg.dispatchNames
    ensures forall i :: 0 <= i < |cfg.pool| ==> cfg.pool[i].0 in cfg.dispatchNames
    ensures name in cfg.dispatchNames <==> Dicts.HasKey(cfg.pool, name)
  {
    var ks := Dicts.Keys(cfg.pool);
    if name in ks {
      var i :| 0 <= i < |ks| && ks[i] == name;
      assert cfg.pool[i].0 == name;
    }
    if Dicts.HasKey(cfg.pool, name) {
      var i :| 0 <= i < |cfg.pool| && cfg.pool[i].0 == name;
      assert ks[i] == name;
    }
    forall i | 0 <= i < |cfg.pool| ensures cfg.pool[i].0 in cfg.dispatchNames {
      assert ks[i] == cfg.pool[i].0;
    }
  }

  // ---------------------------------------------------------------------------------------
  // Execution plan
  // ---------------------------------------------------------------------------------------

  /** `{"agent": ..., "confidence": ..., "task": ...}`. */
  datatype Assignment<K> = Assignment(agent: string, confidence: real, task: SubTask<K>)

  /** `{"parallel_groups": ..., "task_assignments": ..., "delegation_paths": []}`. */
  datatype Plan<K> = Plan(parallelGroups: seq<seq<string>>, assignments: Dicts.Dict<Assignment<K>>, delegationPaths: seq<string>)

  /** The router's choice for one subtask of the plan (all pool names are candidates). */
  function Choose<K>(cfg: Config<K>, replies: SubTask<K> -> SelectionReply): SubTask<K> -> Result<Choice> {
    task => SelectSpec(cfg, task, None, replies(task))
  }

  /**
   * The assignment loop over an arbitrary chooser, after its first `n` subtasks: one choice per
   * subtask in order, written under the subtask's id (last write wins); the first choice that
   * raises ends it.
   */
  function AssignPrefix<K>(tasks: seq<SubTask<K>>, n: nat, choose: SubTask<K> -> Result<Choice>): (r: Result<Dicts.Dict<Assignment<K>>>)
    requires n <= |tasks|
    ensures r.Ok? <==> forall i :: 0 <= i < n ==> choose(tasks[i]).Ok?
  {
    if n == 0 then Ok([])
    else
      var r0 := AssignPrefix(tasks, n - 1, choose);
      if r0.Err? then Err(r0.error)
      else
        var choice := choose(tasks[n - 1]);
        if choice.Err? then Err(choice.error)
        else
          Ok(Dicts.Put(r0.value, tasks[n - 1].id, Assignment(choice.value.agent.name, choice.value.confidence, tasks[n - 1])))
  }

  function AssignAll<K>(tasks: seq<SubTask<K>>, choose: SubTask<K> -> Result<Choice>): Result<Dicts.Dict<Assignment<K>>> {
    AssignPrefix(tasks, |tasks|, choose)
  }

  /** Subtask `i` is the first whose choice raises. */
  predicate FirstRejected<K>(tasks: seq<SubTask<K>>, choose: SubTask<K> -> Result<Choice>, i: int) {
    0 <= i < |tasks| && choose(tasks[i]).Err?
    && forall j :: 0 <= j < i ==> choose(tasks[j]).Ok?
  }

  /** The loop raises exactly the error of the first rejected subtask. */
  lemma {:induction false} FirstRejectedUnique<K>(tasks: seq<SubTask<K>>, n: nat, choose: SubTask<K> -> Result<Choice>, i: int)
    requires i < n <= |tasks| && FirstRejected(tasks, choose, i)
    ensures AssignPrefix(tasks, n, choose) == Err(choose(tasks[i]).error)
  {
    if i < n - 1 {
      FirstRejectedUnique(tasks, n - 1, choose, i);
    } else {
      assert AssignPrefix(tasks, n - 1, choose).Ok?;
    }
  }

  /** Once the first `i` subtasks are assigned, a rejection of subtask `i` is the loop's error. */
  lemma RejectedAfterPrefix<K>(tasks: seq<SubTask<K>>, i: nat, choose: SubTask<K> -> Result<Choice>)
    requires i < |tasks| && AssignPrefix(tasks, i, choose).Ok? && choose(tasks[i]).Err?
    ensures AssignPrefix(tasks, |tasks|, choose) == Err(choose(tasks[i]).error)
  {
    FirstRejectedUnique(tasks, |tasks|, choose, i);
  }

  function PlanSpec<K>(cfg: Config<K>, d: Decomposition<K>, replies: SubTask<K> -> SelectionReply): Result<Plan<K>> {
    var assignments :- AssignAll(d.subtasks, Choose(cfg, replies));
    Ok(Plan(d.parallelGroups, assignments, []))
  }

  /** The assignment loop of `create_advisory_execution_plan` / `create_execution_plan`. */
  method AssignLoop<K>(tasks: seq<SubTask<K>>, choose: SubTask<K> -> Result<Choice>) returns (r: Result<Dicts.Dict<Assignment<K>>>)
    ensures r == AssignAll(tasks, choose)
  {
    var assignments: Dicts.Dict<Assignment<K>> := [];
    var i := 0;
    while i < |tasks|
      invariant 0 <= i <= |tasks|
      invariant AssignPrefix(tasks, i, choose) == Ok(assignments)
    {
      var task := tasks[i];
      var choice := choose(task);
      if choice.Err? {
        RejectedAfterPrefix(tasks, i, choose);
        return Err(choice.error);
      }
      assignments := Dicts.Put(assignments, task.id, Assignment(choice.value.agent.name, choice.value.confidence, task));
      i := i + 1;
    }
    r := Ok(assignments);
  }

  /** `create_advisory_execution_plan` / `create_execution_plan`. */
  method CreatePlan<K>(cfg: Config<K>, d: Decomposition<K>, replies: SubTask<K> -> SelectionReply) returns (r: Result<Plan<K>>)
    ensures r == PlanSpec(cfg, d, replies)
  {
    var assignments :- AssignLoop(d.subtasks, Choose(cfg, replies));
    r := Ok(Plan(d.parallelGroups, assignments, []));
  }

  /** The assignments after `n` subtasks are a dictionary: no id occurs twice. */
  lemma AssignPrefixUnique<K>(tasks: seq<SubTask<K>>, n: nat, choose: SubTask<K> -> Result<Choice>)
    requires n <= |tasks| && AssignPrefix(tasks, n, choose).Ok?
    ensures Dicts.UniqueKeys(AssignPrefix(tasks, n, choose).value)
  {
    AssignedUnique(tasks, n, choose, AssignPrefix(tasks, n, choose).value);
  }

  lemma {:induction false} AssignedUnique<K>(tasks: seq<SubTask<K>>, n: nat, choose: SubTask<K> -> Result<Choice>, a: Dicts.Dict<Assignment<K>>)
    requires n <= |tasks| && AssignPrefix(tasks, n, choose) == Ok(a)
    ensures Dicts.UniqueKeys(a)
  {
    if n > 0 {
      var a0, v := AssignPrefixPut(tasks, n, choose);
      AssignedUnique(tasks, n - 1, choose, a0);
      Dicts.PutKeepsUnique(a0, tasks[n - 1].id, v);
    }
  }

  /** The assignments after `n` subtasks are those after `n - 1` with the newest put under its id. */
  lemma AssignPrefixPut<K>(tasks: seq<SubTask<K>>, n: nat, choose: SubTask<K> -> Result<Choice>)
    returns (a0: Dicts.Dict<Assignment<K>>, v: Assignment<K>)
    requires 0 < n <= |tasks| && AssignPrefix(tasks, n, choose).Ok?
    ensures AssignPrefix(tasks, n - 1, choose) == Ok(a0)
    ensures AssignPrefix(tasks, n, choose) == Ok(Dicts.Put(a0, tasks[n - 1].id, v))
    ensures v.task == tasks[n - 1]
  {
    a0 := AssignPrefix(tasks, n - 1, choose).value;
    var choice := choose(tasks[n - 1]).value;
    v := Assignment(choice.agent.name, choice.confidence, tasks[n - 1]);
  }

  /** The assignments after `n` subtasks have exactly those subtasks' ids as keys. */
  lemma {:induction false} AssignPrefixHasKey<K>(tasks: seq<SubTask<K>>, n: nat, choose: SubTask<K> -> Result<Choice>, k: string)
    requires n <= |tasks| && AssignPrefix(tasks, n, choose).Ok?
    ensures Dicts.HasKey(AssignPrefix(tasks, n, choose).value, k) <==> IdBefore(tasks, n, k)
  {
    if n > 0 {
      AssignPrefixHasKeyStep(tasks, n, choose, k);
      AssignPrefixHasKey(tasks, n - 1, choose, k);
      IdBeforeStep(tasks, n, k);
    }
  }

  /** One more assignment adds its subtask's id to the keys and keeps the others. */
  lemma AssignPrefixHasKeyStep<K>(tasks: seq<SubTask<K>>, n: nat, choose: SubTask<K> -> Result<Choice>, k: string)
    requires 0 < n <= |tasks| && AssignPrefix(tasks, n, choose).Ok?
    ensures AssignPrefix(tasks, n - 1, choose).Ok?
    ensures Dicts.HasKey(AssignPrefix(tasks, n, choose).value, k) <==>
      Dicts.HasKey(AssignPrefix(tasks, n - 1, choose).value, k) || tasks[n - 1].id == k
  {
    var a0, a := AssignPrefixStep(tasks, n, choose);
    if k != tasks[n - 1].id {
      assert Dicts.Lookup(a, k) == Dicts.Lookup(a0, k);
    }
  }

  /** Some of the first `n` subtasks has id `k`. */
  predicate IdBefore<K>(tasks: seq<SubTask<K>>, n: nat, k: string)
    requires n <= |tasks|
  {
    exists i :: 0 <= i < n && tasks[i].id == k
  }

  /** An id occurs among the first `n` subtasks when it is the last one's or occurs before it. */
  lemma IdBeforeStep<K>(tasks: seq<SubTask<K>>, n: nat, k: string)
    requires 0 < n <= |tasks|
    ensures IdBefore(tasks, n, k) <==> IdBefore(tasks, n - 1, k) || tasks[n - 1].id == k
  {
    if IdBefore(tasks, n, k) {
      var i :| 0 <= i < n && tasks[i].id == k;
      if i < n - 1 {
        assert 0 <= i < n - 1 && tasks[i].id == k;
      }
    }
    if tasks[n - 1].id == k {
      assert 0 <= n - 1 < n && tasks[n - 1].id == k;
    }
  }

  /** The assignment under an id holds the last of the first `n` subtasks with that id. */
  lemma {:induction false} AssignPrefixLast<K>(tasks: seq<SubTask<K>>, n: nat, choose: SubTask<K> -> Result<Choice>, k: string)
    requires n <= |tasks| && AssignPrefix(tasks, n, choose).Ok?
    requires Dicts.HasKey(AssignPrefix(tasks, n, choose).value, k)
    ensures var t := Dicts.Lookup(AssignPrefix(tasks, n, choose).value, k).value.task;
      t.id == k && exists i :: LastWithId(tasks, n, i, k) && tasks[i] == t
  {
    assert n > 0;
    if k == tasks[n - 1].id {
      AssignPrefixLookupLast(tasks, n, choose);
      assert LastWithId(tasks, n, n - 1, k);
    } else {
      AssignPrefixLookupOther(tasks, n, choose, k);
      AssignPrefixLast(tasks, n - 1, choose, k);
      var t := Dicts.Lookup(AssignPrefix(tasks, n - 1, choose).value, k).value.task;
      var i :| LastWithId(tasks, n - 1, i, k) && tasks[i] == t;
      LastWithIdExtends(tasks, n, i, k);
    }
  }

  /** The newest assignment sits under its own subtask's id. */
  lemma AssignPrefixLookupLast<K>(tasks: seq<SubTask<K>>, n: nat, choose: SubTask<K> -> Result<Choice>)
    requires 0 < n <= |tasks| && AssignPrefix(tasks, n, choose).Ok?
    ensures Dicts.Lookup(AssignPrefix(tasks, n, choose).value, tasks[n - 1].id).Some?
    ensures Dicts.Lookup(AssignPrefix(tasks, n, choose).value, tasks[n - 1].id).value.task == tasks[n - 1]
  {
    var a0, a := AssignPrefixStep(tasks, n, choose);
  }

  /** Any other id keeps the assignment it had before the newest subtask. */
  lemma AssignPrefixLookupOther<K>(tasks: seq<SubTask<K>>, n: nat, choose: SubTask<K> -> Result<Choice>, k: string)
    requires 0 < n <= |tasks| && AssignPrefix(tasks, n, choose).Ok? && k != tasks[n - 1].id
    ensures AssignPrefix(tasks, n - 1, choose).Ok?
    ensures Dicts.Lookup(AssignPrefix(tasks, n, choose).value, k) == Dicts.Lookup(AssignPrefix(tasks, n - 1, choose).value, k)
  {
    var a0, a := AssignPrefixStep(tasks, n, choose);
  }

  /** Subtask `i` is the last of the first `n` with id `k`. */
  predicate LastWithId<K>(tasks: seq<SubTask<K>>, n: nat, i: int, k: string) {
    0 <= i < n <= |tasks| && tasks[i].id == k && forall j :: i < j < n ==> tasks[j].id != k
  }

  lemma LastWithIdExtends<K>(tasks: seq<SubTask<K>>, n: nat, i: int, k: string)
    requires 0 < n <= |tasks| && LastWithId(tasks, n - 1, i, k) && tasks[n - 1].id != k
    ensures LastWithId(tasks, n, i, k)
  {
  }

  /** One more subtask: the assignments before it, with its own assignment put under its id. */
  lemma AssignPrefixStep<K>(tasks: seq<SubTask<K>>, n: nat, choose: SubTask<K> -> Result<Choice>)
    returns (a0: Dicts.Dict<Assignment<K>>, a: Dicts.Dict<Assignment<K>>)
    requires 0 < n <= |tasks| && AssignPrefix(tasks, n, choose).Ok?
    ensures AssignPrefix(tasks, n - 1, choose) == Ok(a0) && choose(tasks[n - 1]).Ok?
    ensures AssignPrefix(tasks, n, choose) == Ok(a)
    ensures Dicts.Lookup(a, tasks[n - 1].id).Some? && Dicts.Lookup(a, tasks[n - 1].id).value.task == tasks[n - 1]
    ensures forall k :: k != tasks[n - 1].id ==> Dicts.Lookup(a, k) == Dicts.Lookup(a0, k)
  {
    a0 := AssignPrefix(tasks, n - 1, choose).value;
    var choice := choose(tasks[n - 1]).value;
    a := Dicts.Put(a0, tasks[n - 1].id, Assignment(choice.agent.name, choice.confidence, tasks[n - 1]));
  }

  /** The plan copies the groups, has one assignment per subtask id and no delegation paths. */
  lemma PlanShape<K>(cfg: Config<K>, d: Decomposition<K>, replies: SubTask<K> -> SelectionReply)
    requires PlanSpec(cfg, d, replies).Ok?
    ensures var p := PlanSpec(cfg, d, replies).value;
      p.parallelGroups == d.parallelGroups && p.delegationPaths == []
      && Dicts.UniqueKeys(p.assignments)
      && (forall k :: Dicts.HasKey(p.assignments, k) <==> exists i :: 0 <= i < |d.subtasks| && d.subtasks[i].id == k)
      && forall k :: Dicts.HasKey(p.assignments, k) ==> Dicts.Lookup(p.assignments, k).value.task.id == k
  {
    var choose := Choose(cfg, replies);
    var a := AssignPrefix(d.subtasks, |d.subtasks|, choose).value;
    AssignPrefixUnique(d.subtasks, |d.subtasks|, choose);
    forall k ensures Dicts.HasKey(a, k) <==> exists i :: 0 <= i < |d.subtasks| && d.subtasks[i].id == k {
      AssignPrefixHasKey(d.subtasks, |d.subtasks|, choose, k);
      assert IdBefore(d.subtasks, |d.subtasks|, k) <==> exists i :: 0 <= i < |d.subtasks| && d.subtasks[i].id == k;
    }
    forall k | Dicts.HasKey(a, k) ensures Dicts.Lookup(a, k).value.task.id == k {
      AssignPrefixLast(d.subtasks, |d.subtasks|, choose, k);
    }
  }
}
