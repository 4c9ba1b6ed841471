/**
 * langgraph-cookbook/main.py: the code-generation graph. Its nodes return partial states that
 * LangGraph merges into the state; here each node returns the merged state. The model call,
 * `exec(imports)` and `compile(code)` are inputs: `gen` gives what `code_gen_chain` returns for
 * the messages so far, and `importError` and `compileError` give `str(e)` of the exception
 * raised, if any. The chain asks for structured output with the raw reply included, so the
 * reply always holds "parsed", and `parse_output` returns its content: the `code` object, or
 * None when the model's output did not parse. `gen` returns None in that case.
 */
module LanggraphFlow {
  import opened Wrappers
  import PyValue
  import Dicts

  datatype Message = Message(role: string, content: string)

  /** The `code` model: prefix, imports, code. */
  datatype CodeSolution = CodeSolution(prefix: string, imports: string, code: string)

  datatype GraphState = GraphState(error: string, messages: seq<Message>, generation: Option<CodeSolution>, iterations: int)

  /** The values `decide_to_finish` returns: "generate", "reflect", "finish". */
  datatype Route = Regenerate | Reflect | Finish

  const MaxIterations := 3

  /** What `code_check` raises when the state holds no generation. */
  const NoGeneration := AttributeError("'NoneType' object has no attribute 'imports'")

  /** The switch in `decide_to_finish` that would enable the reflect branch; it is off. */
  const ReflectFlag := "do not reflect"

  const ReflectionMessage := Message("assistant", "Let me review the code once more to make sure it's correct and follows best practices.")

  /** `parse_output`: the "parsed" entry when the reply has one, else the reply itself. */
  function ParseOutput(solution: PyValue.Value): (r: Result<PyValue.Value>)
    ensures solution.Dict? ==> r.Ok?
    ensures solution.Dict? && Dicts.HasKey(solution.entries, "parsed") ==> Some(r.value) == Dicts.Lookup(solution.entries, "parsed")
    ensures solution.Dict? && !Dicts.HasKey(solution.entries, "parsed") ==> r.value == solution
  {
    match PyValue.In(PyValue.Str("parsed"), solution)
    case Err(e) => Err(e)
    case Ok(found) => if found then PyValue.GetItem(solution, "parsed") else Ok(solution)
  }

  /** `generate`: the chain's output for the messages so far, one more iteration. */
  function Generate(state: GraphState, gen: seq<Message> -> Option<CodeSolution>): (r: GraphState)
    ensures r.iterations == state.iterations + 1 && r.generation == gen(state.messages)
    ensures r.messages == state.messages && r.error == state.error
  {
    state.(generation := gen(state.messages), iterations := state.iterations + 1)
  }

  /** The error message `code_check` builds: compilation is tried only when the imports ran. */
  function CheckError(g: CodeSolution, importError: string -> Option<string>, compileError: string -> Option<string>): Option<string> {
    match importError(g.imports)
    case Some(m) => Some("Import error: " + m)
    case None =>
      match compileError(g.code)
      case Some(m) => Some("Code execution error: " + m)
      case None => None
  }

  /**
   * `code_check`: on an error, "yes" and exactly one assistant message; otherwise "no" and the
   * messages unchanged. Without a generation, reading `generation.imports` raises.
   */
  function CodeCheck(state: GraphState, importError: string -> Option<string>, compileError: string -> Option<string>): (r: Result<GraphState>)
    ensures r.Ok? <==> state.generation.Some?
    ensures r.Ok? ==> r.value.generation == state.generation && r.value.iterations == state.iterations
    ensures r.Ok? ==>
      var g := state.generation.value;
      (r.value.error == "yes" <==> importError(g.imports).Some? || compileError(g.code).Some?) &&
      (r.value.error == "no" <==> importError(g.imports).None? && compileError(g.code).None?)
    ensures r.Ok? && r.value.error == "no" ==> r.value.messages == state.messages
    ensures r.Ok? && r.value.error == "yes" ==>
      |r.value.messages| == |state.messages| + 1 && r.value.messages[..|state.messages|] == state.messages &&
      r.value.messages[|state.messages|].role == "assistant"
  {
    match state.generation
    case None => Err(NoGeneration)
    case Some(g) =>
      match CheckError(g, importError, compileError)
      case Some(m) =>
        Ok(state.(error := "yes", messages := state.messages + [Message("assistant", "There was an error with the code: " + m + ". Let me fix it.")]))
      case None => Ok(state.(error := "no"))
  }

  /** A failed import is reported as such whatever compilation would have said. */
  lemma ImportErrorFirst(g: CodeSolution, importError: string -> Option<string>, compileError: string -> Option<string>, compileError': string -> Option<string>)
    requires importError(g.imports).Some?
    ensures CheckError(g, importError, compileError) == CheckError(g, importError, compileError') == Some("Import error: " + importError(g.imports).value)
  {
  }

  /** `reflect`: one fixed assistant message. */
  function ReflectNode(state: GraphState): (r: GraphState)
    ensures r.messages == state.messages + [ReflectionMessage]
    ensures r.error == state.error && r.generation == state.generation && r.iterations == state.iterations
  {
    state.(messages := state.messages + [ReflectionMessage])
  }

  /** `decide_to_finish` with the reflect switch `flag`. */
  function Decide(state: GraphState, flag: string): Route {
    if state.error == "yes" && state.iterations < MaxIterations then Regenerate
    else if state.error == "no" && flag == "reflect" then Reflect
    else Finish
  }

  /** With the switch as written, the graph regenerates exactly after an error below three tries, and never reflects. */
  lemma DecideAsWritten(state: GraphState)
    ensures Decide(state, ReflectFlag) == Regenerate <==> state.error == "yes" && state.iterations < MaxIterations
    ensures Decide(state, ReflectFlag) != Reflect
  {
  }

  /**
   * The wiring START -> generate -> code_check -> `decide_to_finish`, entered at "generate".
   * The reflect node is unreachable because of the switch. A generation that did not parse
   * makes `code_check` raise, and the exception ends the run.
   */
  function RunFrom(state: GraphState, gen: seq<Message> -> Option<CodeSolution>, importError: string -> Option<string>, compileError: string -> Option<string>): (r: Result<GraphState>)
    ensures r.Err? ==> r.error == NoGeneration
    decreases if state.iterations < MaxIterations then MaxIterations - state.iterations else 0
  {
    var checked :- CodeCheck(Generate(state, gen), importError, compileError);
    match Decide(checked, ReflectFlag)
    case Regenerate => RunFrom(checked, gen, importError, compileError)
    case Reflect => assert false; Ok(checked)
    case Finish => Ok(checked)
  }

  /** A generation that does not parse raises at once, before any further generation. */
  lemma ParseFailureRaises(state: GraphState, gen: seq<Message> -> Option<CodeSolution>, importError: string -> Option<string>, compileError: string -> Option<string>)
    requires gen(state.messages).None?
    ensures RunFrom(state, gen, importError, compileError) == Err(NoGeneration)
  {
  }

  /** `solve_coding_question`'s initial state. */
  function InitialState(question: string): GraphState {
    GraphState("no", [Message("human", question)], None, 0)
  }

  /**
   * From a state with fewer than three iterations: the run raises only because a generation did
   * not parse, and never raises when every generation parses. When it completes, it stops after
   * one more generation at least and three in all at most, with a generation; it stops either
   * because `code_check` passed or because the third generation failed; and the messages grew by
   * one per failed check.
   */
  lemma {:induction false} RunBounds(state: GraphState, gen: seq<Message> -> Option<CodeSolution>, importError: string -> Option<string>, compileError: string -> Option<string>)
    requires 0 <= state.iterations < MaxIterations
    ensures RunFrom(state, gen, importError, compileError).Err? ==>
      exists messages :: messages in Conversations(state, gen, importError, compileError) && gen(messages).None?
    ensures (forall messages :: gen(messages).Some?) ==> RunFrom(state, gen, importError, compileError).Ok?
    ensures RunFrom(state, gen, importError, compileError).Ok? ==>
      var r := RunFrom(state, gen, importError, compileError).value;
      state.iterations < r.iterations <= MaxIterations && r.generation.Some? &&
      (r.error == "no" || (r.error == "yes" && r.iterations == MaxIterations)) &&
      |r.messages| == |state.messages| + (r.iterations - state.iterations) - (if r.error == "no" then 1 else 0) &&
      r.messages[..|state.messages|] == state.messages
    decreases MaxIterations - state.iterations
  {
    var g := Generate(state, gen);
    if g.generation.Some? {
      var checked := CodeCheck(g, importError, compileError).value;
      if Decide(checked, ReflectFlag) == Regenerate {
        RunBounds(checked, gen, importError, compileError);
        if RunFrom(checked, gen, importError, compileError).Ok? {
          var r := RunFrom(checked, gen, importError, compileError).value;
          assert r.messages[..|state.messages|] == r.messages[..|checked.messages|][..|state.messages|];
        }
      }
    }
  }

  /**
   * The message lists the run's generations are asked for, in order, up to the first that does
   * not parse.
   */
  function Conversations(state: GraphState, gen: seq<Message> -> Option<CodeSolution>, importError: string -> Option<string>, compileError: string -> Option<string>): seq<seq<Message>>
    decreases if state.iterations < MaxIterations then MaxIterations - state.iterations else 0
  {
    var g := Generate(state, gen);
    match CodeCheck(g, importError, compileError)
    case Err(_) => [state.messages]
    case Ok(checked) =>
      if Decide(checked, ReflectFlag) == Regenerate then [state.messages] + Conversations(checked, gen, importError, compileError)
      else [state.messages]
  }

  /**
   * `solve_coding_question`: it raises exactly when the run does, and only on a generation that
   * did not parse; otherwise one to three generations, and the last one is returned.
   */
  lemma SolveBounds(question: string, gen: seq<Message> -> Option<CodeSolution>, importError: string -> Option<string>, compileError: string -> Option<string>)
    ensures RunFrom(InitialState(question), gen, importError, compileError).Err? ==>
      exists messages :: messages in Conversations(InitialState(question), gen, importError, compileError) && gen(messages).None?
    ensures (forall messages :: gen(messages).Some?) ==> RunFrom(InitialState(question), gen, importError, compileError).Ok?
    ensures RunFrom(InitialState(question), gen, importError, compileError).Ok? ==>
      var r := RunFrom(InitialState(question), gen, importError, compileError).value;
      1 <= r.iterations <= MaxIterations && r.generation.Some? &&
      |r.messages| >= 1 && r.messages[0] == Message("human", question) &&
      (r.iterations < MaxIterations ==> r.error == "no")
  {
    var s := InitialState(question);
    RunBounds(s, gen, importError, compileError);
    if RunFrom(s, gen, importError, compileError).Ok? {
      var r := RunFrom(s, gen, importError, compileError).value;
      assert r.messages[..1] == s.messages;
    }
  }
}
