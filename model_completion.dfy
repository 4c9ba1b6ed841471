/**
 * template_pipelines/model_completion.py: template substitution over a chat history, the
 * ground-truth label of a datapoint, one model completion posted as an event, and the pipeline
 * that starts a session and runs the completion. The model, the evaluator and the two REST
 * endpoints are inputs; their replies are what the functions below branch on.
 */
module ModelCompletion {
  import opened Wrappers
  import Text
  import Dicts
  import opened PyValue
  import ModelMetrics

  /** One chat message, `{"role": ..., "content": ...}`. */
  datatype Message = Message(role: string, content: string)

  /** The literal text the key's pattern `\{\{key\}\}` matches. */
  function Placeholder(key: string): (p: string)
    ensures |p| == |key| + 4
  {
    "{{" + key + "}}"
  }

  /** One key in one message: replace only when the pattern is found. */
  function Substitute(content: string, key: string, value: string): string {
    var pattern := Placeholder(key);
    if Text.Contains(content, pattern) then Text.ReplaceAll(content, pattern, value) else content
  }

  /** A message's content after every key has been substituted, in the dictionary's order. */
  function Substituted(content: string, vars: Entries): string
    decreases |vars|
  {
    if vars == [] then content
    else
      var (key, value) := vars[|vars| - 1];
      Substitute(Substituted(content, vars[..|vars| - 1]), key, PyStr(value))
  }

  /** Where the pattern does not occur, replacing changes nothing. */
  lemma {:induction false} ReplaceAllNoMatch(s: string, pattern: string, value: string)
    requires pattern != [] && !Text.Contains(s, pattern)
    ensures Text.ReplaceAll(s, pattern, value) == s
    decreases |s|
  {
    if |s| >= |pattern| {
      assert s != [];
      ReplaceAllNoMatch(s[1..], pattern, value);
      assert [s[0]] + s[1..] == s;
    }
  }

  /** The guard before `re.sub` is only a shortcut: substituting is replacing every occurrence. */
  lemma SubstituteIsReplaceAll(content: string, key: string, value: string)
    ensures Substitute(content, key, value) == Text.ReplaceAll(content, Placeholder(key), value)
  {
    if !Text.Contains(content, Placeholder(key)) {
      ReplaceAllNoMatch(content, Placeholder(key), value);
    }
  }

  /** A content that is exactly the placeholder becomes the value. */
  lemma PlaceholderFilled(key: string, value: string)
    ensures Substitute(Placeholder(key), key, value) == value
  {
    var p := Placeholder(key);
    assert Text.StartsWith(p, p);
    assert p[..|p|] == p && p[|p|..] == [];
    assert Text.ReplaceAll(p[|p|..], p, value) == [];
    assert Text.ReplaceAll(p, p, value) == value + Text.ReplaceAll(p[|p|..], p, value);
    assert value + [] == value;
  }

  /** Substituting two dictionaries in turn is substituting their concatenation. */
  lemma {:induction false} SubstitutedAppend(content: string, first: Entries, second: Entries)
    ensures Substituted(content, first + second) == Substituted(Substituted(content, first), second)
    decreases |second|
  {
    if second == [] {
      assert first + second == first;
    } else {
      var n := |second| - 1;
      assert (first + second)[..|first + second| - 1] == first + second[..n];
      assert (first + second)[|first + second| - 1] == second[n];
      SubstitutedAppend(content, first, second[..n]);
    }
  }

  /**
   * Substitution is sequential: a value that brings in the placeholder of a later key is
   * itself substituted.
   */
  lemma ChainedSubstitution(first: string, second: string, value: string)
    ensures Substituted(Placeholder(first), [(first, Str(Placeholder(second))), (second, Str(value))]) == value
  {
    var vars: Entries := [(first, Str(Placeholder(second))), (second, Str(value))];
    assert vars[..1] == [(first, Str(Placeholder(second)))];
    assert vars[..1][..0] == [];
    PlaceholderFilled(first, Placeholder(second));
    assert Substituted(Placeholder(first), vars[..1]) == Placeholder(second);
    PlaceholderFilled(second, value);
  }

  /**
   * `replace_variables`: the messages are updated in place, key by key; roles, order and
   * number of messages stay as they were.
   */
  method ReplaceVariables(messages: array<Message>, inputs: Entries)
    modifies messages
    ensures forall m :: 0 <= m < messages.Length ==>
      messages[m] == old(messages[m]).(content := Substituted(old(messages[m]).content, inputs))
  {
    var i := 0;
    while i < |inputs|
      invariant 0 <= i <= |inputs|
      invariant forall m :: 0 <= m < messages.Length ==>
        messages[m] == old(messages[m]).(content := Substituted(old(messages[m]).content, inputs[..i]))
    {
      var (key, v) := inputs[i];
      var value := PyStr(v);
      var pattern := Placeholder(key);
      assert inputs[..i + 1][..i] == inputs[..i];
      assert inputs[..i + 1][i] == inputs[i];
      var j := 0;
      while j < messages.Length
        invariant 0 <= j <= messages.Length
        invariant forall m :: 0 <= m < j ==>
          messages[m] == old(messages[m]).(content := Substituted(old(messages[m]).content, inputs[..i + 1]))
        invariant forall m :: j <= m < messages.Length ==>
          messages[m] == old(messages[m]).(content := Substituted(old(messages[m]).content, inputs[..i]))
      {
        if Text.Contains(messages[j].content, pattern) {
          messages[j] := messages[j].(content := Text.ReplaceAll(messages[j].content, pattern, value));
        }
        j := j + 1;
      }
      i := i + 1;
    }
    assert inputs[..i] == inputs;
  }

  /** Python's `x == 1`: an int, a bool or a float equal to one. */
  predicate EqualsOne(v: Value) {
    v == Int(1) || v == Bool(true) || v == Float(1.0)
  }

  /**
   * The label `run_pipeline` derives from `multiple_choice_scores`: None when the array is
   * falsy, "Yes" when its first score is 1, else "No" when its second is, else "N/A".
   */
  function GroundTruthLabel(scores: Value): (r: Result<Option<string>>)
    ensures !Truthy(scores) ==> r == Ok(None)
    ensures r.Ok? && r.value.Some? ==> r.value.value in ["Yes", "No", "N/A"]
    ensures scores.List? && scores.items != [] ==>
      var xs := scores.items;
      (r == Ok(Some("Yes")) <==> EqualsOne(xs[0])) &&
      (r == Ok(Some("No")) <==> !EqualsOne(xs[0]) && |xs| >= 2 && EqualsOne(xs[1])) &&
      (r.Err? <==> !EqualsOne(xs[0]) && |xs| < 2)
  {
    if !Truthy(scores) then Ok(None)
    else
      match scores
      case List(xs) =>
        if EqualsOne(xs[0]) then Ok(Some("Yes"))
        else if |xs| < 2 then Err(IndexError("list index out of range"))
        else if EqualsOne(xs[1]) then Ok(Some("No"))
        else Ok(Some("N/A"))
      // a one-character string is never equal to 1
      case Str(s) => if |s| < 2 then Err(IndexError("string index out of range")) else Ok(Some("N/A"))
      // the keys of a parsed JSON object are strings, so the int key 0 is missing; Python's
      // `str` of this error is 0, unquoted, where `PyError.Str` gives '0'
      case Dict(_) => Err(KeyError("0"))
      case _ => Err(TypeError("object has no len()"))
  }

  /** The canonical score array of each label. */
  function ScoresFor(answer: string): Value {
    if answer == "Yes" then List([Int(1), Int(0)])
    else if answer == "No" then List([Int(0), Int(1)])
    else List([Int(0), Int(0)])
  }

  /** Each label is read back from its score array. */
  lemma LabelOfScores(answer: string)
    requires answer in ["Yes", "No", "N/A"]
    ensures GroundTruthLabel(ScoresFor(answer)) == Ok(Some(answer))
  {
  }

  /** The providers `model_completion` knows. */
  datatype Provider = OpenAI | OpenRouter | Ollama

  function ProviderOf(name: string): (p: Option<Provider>)
    ensures p.Some? <==> name in ["openai", "openrouter", "ollama"]
  {
    if name == "openai" then Some(OpenAI)
    else if name == "openrouter" then Some(OpenRouter)
    else if name == "ollama" then Some(Ollama)
    else None
  }

  /** `if ground_truth:` on a label or None. */
  predicate LabelTruthy(groundTruth: Option<string>) {
    groundTruth.Some? && groundTruth.value != ""
  }

  /** The parts of the "Model Summary" event that depend on the run. */
  datatype ModelEvent = ModelEvent(
    sessionId: Value,
    inputs: Entries,
    chatHistory: seq<Message>,
    output: string,
    rating: Value,
    explanation: Value,
    groundTruth: Option<string>)

  /** The reply of a POST: a failed request (HTTP status or transport), or the decoded body. */
  datatype PostReply = PostFailed | PostBody(json: Value)

  /**
   * The event `model_completion` posts: the completion of a known provider, graded against a
   * truthy ground truth. An unknown provider leaves the completion None, which the tokenizer
   * rejects; a falsy ground truth leaves `gt_rating` unbound.
   */
  function CompletionEvent(
    sessionId: Value, messages: seq<Message>, provider: string, inputs: Entries,
    groundTruth: Option<string>,
    complete: (Provider, seq<Message>) -> string,
    judge: (string, string) -> ModelMetrics.EvaluatorReply): (r: Result<ModelEvent>)
    ensures ProviderOf(provider).None? ==> r.Err? && r.error.TypeError?
    ensures ProviderOf(provider).Some? && !LabelTruthy(groundTruth) ==> r == Err(NameError("gt_rating"))
    ensures r.Ok? ==> ProviderOf(provider).Some? && LabelTruthy(groundTruth)
    ensures r.Ok? ==>
      var output := complete(ProviderOf(provider).value, messages);
      r.value.output == output && r.value.groundTruth == groundTruth &&
      r.value.chatHistory == messages && r.value.sessionId == sessionId && r.value.inputs == inputs &&
      ModelMetrics.GroundTruthMatch(judge(output, groundTruth.value)) == Ok((r.value.rating, r.value.explanation)) &&
      ModelMetrics.ValidRating(r.value.rating)
  {
    match ProviderOf(provider)
    case None => Err(TypeError("expected string or buffer"))
    case Some(p) =>
      var output := complete(p, messages);
      if !LabelTruthy(groundTruth) then Err(NameError("gt_rating"))
      else
        var (rating, explanation) :- ModelMetrics.GroundTruthMatch(judge(output, groundTruth.value));
        Ok(ModelEvent(sessionId, inputs, messages, output, rating, explanation, groundTruth))
  }

  /**
   * `model_completion`: post the event and return its id; a failed request gives None, a body
   * without "event_id" raises.
   */
  function ModelCompletion(
    sessionId: Value, messages: seq<Message>, provider: string, inputs: Entries,
    groundTruth: Option<string>,
    complete: (Provider, seq<Message>) -> string,
    judge: (string, string) -> ModelMetrics.EvaluatorReply,
    post: ModelEvent -> PostReply): (r: Result<Option<Value>>)
    ensures var e := CompletionEvent(sessionId, messages, provider, inputs, groundTruth, complete, judge);
      (e.Err? ==> r == Err(e.error)) &&
      (e.Ok? && post(e.value).PostFailed? ==> r == Ok(None)) &&
      (e.Ok? && post(e.value).PostBody? ==>
        match GetItem(post(e.value).json, "event_id")
        case Ok(id) => r == Ok(Some(id))
        case Err(err) => r == Err(err))
  {
    var event :- CompletionEvent(sessionId, messages, provider, inputs, groundTruth, complete, judge);
    match post(event)
    case PostFailed => Ok(None)
    case PostBody(json) =>
      var id :- GetItem(json, "event_id");
      Ok(Some(id))
  }

  /** `datapoint[outer][inner]` on a datapoint dictionary. */
  function Field(datapoint: Entries, outer: string, inner: string): (r: Result<Value>)
    ensures r.Ok? ==> Dicts.HasKey(datapoint, outer)
    ensures !Dicts.HasKey(datapoint, outer) ==> r == Err(KeyError(outer))
  {
    var v :- Dicts.Index(datapoint, outer);
    GetItem(v, inner)
  }

  /** `len(v)`, raising TypeError for a value without a length. */
  function Len(v: Value): (r: Result<nat>)
    ensures r.Ok? <==> v.List? || v.Str? || v.Dict?
  {
    match v
    case List(xs) => Ok(|xs|)
    case Str(s) => Ok(|s|)
    case Dict(es) => Ok(|es|)
    case _ => Err(TypeError("object has no len()"))
  }

  /** `v[0]` on a value of positive length. */
  function First(v: Value): Result<Value> {
    match v
    case List(xs) => if xs == [] then Err(IndexError("list index out of range")) else Ok(xs[0])
    case Str(s) => if s == [] then Err(IndexError("string index out of range")) else Ok(Str([s[0]]))
    // as in `GroundTruthLabel`, the int key would render unquoted in Python
    case Dict(_) => Err(KeyError("0"))
    case _ => Err(TypeError("object is not subscriptable"))
  }

  /** The session's `full_answer`: the first target when there is one, else "". */
  function FullAnswer(datapoint: Entries): (r: Result<Value>)
    ensures !Dicts.HasKey(datapoint, "ground_truth") ==> r == Ok(Str(""))
    ensures Dicts.Lookup(datapoint, "ground_truth") == Some(Dict([("targets", List([]))])) ==> r == Ok(Str(""))
    ensures forall t: Value, ts: seq<Value> ::
      Dicts.Lookup(datapoint, "ground_truth") == Some(Dict([("targets", List([t] + ts))])) ==> r == Ok(t)
  {
    match Dicts.Lookup(datapoint, "ground_truth")
    case None => Ok(Str(""))
    case Some(gt) =>
      var hasTargets :- In(Str("targets"), gt);
      if !hasTargets then Ok(Str(""))
      else
        var targets :- GetItem(gt, "targets");
        var n :- Len(targets);
        if n > 0 then First(targets) else Ok(Str(""))
  }

  /** What `run_pipeline` sends to start the session. */
  datatype SessionRequest = SessionRequest(question: Value, datapointId: Value, groundTruth: Option<string>, fullAnswer: Value)

  /** What `run_pipeline` returns when the session started. */
  datatype PipelineResult = PipelineResult(eventIds: seq<Option<Value>>, sessionId: Value)

  /** The request `run_pipeline` reads out of a datapoint, raising as the subscripts do. */
  function SessionRequestOf(datapoint: Entries): (r: Result<SessionRequest>)
    ensures r.Ok? ==> Field(datapoint, "inputs", "inputs") == Ok(r.value.question)
    ensures r.Ok? ==> Dicts.Lookup(datapoint, "_id") == Some(r.value.datapointId)
    ensures r.Ok? ==> Field(datapoint, "metadata", "multiple_choice_scores").Ok?
    ensures r.Ok? ==> GroundTruthLabel(Field(datapoint, "metadata", "multiple_choice_scores").value) == Ok(r.value.groundTruth)
    ensures !Dicts.HasKey(datapoint, "inputs") ==> r == Err(KeyError("inputs"))
  {
    var question :- Field(datapoint, "inputs", "inputs");
    var scores :- Field(datapoint, "metadata", "multiple_choice_scores");
    var groundTruth :- GroundTruthLabel(scores);
    var datapointId :- Dicts.Index(datapoint, "_id");
    var fullAnswer :- FullAnswer(datapoint);
    Ok(SessionRequest(question, datapointId, groundTruth, fullAnswer))
  }

  /**
   * `run_pipeline`: start a session (any failure gives None), fill the question into the two
   * prompts, run the completion and return its event id with the session id.
   */
  method RunPipeline(
    datapoint: Entries, systemPrompt: string, userPrompt: string, provider: string,
    startSession: SessionRequest -> PostReply,
    complete: (Provider, seq<Message>) -> string,
    judge: (string, string) -> ModelMetrics.EvaluatorReply,
    post: ModelEvent -> PostReply) returns (r: Result<Option<PipelineResult>>)
    ensures SessionRequestOf(datapoint).Err? ==> r == Err(SessionRequestOf(datapoint).error)
    ensures SessionRequestOf(datapoint).Ok? ==>
      var request := SessionRequestOf(datapoint).value;
      match startSession(request)
      case PostFailed => r == Ok(None)
      case PostBody(json) =>
        match GetItem(json, "session_id")
        case Err(_) => r == Ok(None)
        case Ok(sessionId) =>
          var vars: Entries := [("question", request.question)];
          var messages := [Message("system", Substituted(systemPrompt, vars)), Message("user", Substituted(userPrompt, vars))];
          match ModelCompletion(sessionId, messages, provider, vars, request.groundTruth, complete, judge, post)
          case Err(e) => r == Err(e)
          case Ok(eventId) => r == Ok(Some(PipelineResult([eventId], sessionId)))
  {
    var request := SessionRequestOf(datapoint);
    if request.Err? {
      return Err(request.error);
    }
    var sessionId: Value;
    match startSession(request.value) {
      case PostFailed =>
        return Ok(None);
      case PostBody(json) =>
        var id := GetItem(json, "session_id");
        if id.Err? {
          return Ok(None);
        }
        sessionId := id.value;
    }
    var inputs: Entries := [("question", request.value.question)];
    var chatHistory := new Message[2];
    chatHistory[0] := Message("system", systemPrompt);
    chatHistory[1] := Message("user", userPrompt);
    ReplaceVariables(chatHistory, inputs);
    assert chatHistory[..] == [Message("system", Substituted(systemPrompt, inputs)), Message("user", Substituted(userPrompt, inputs))];
    var eventId := ModelCompletion(sessionId, chatHistory[..], provider, inputs, request.value.groundTruth, complete, judge, post);
    if eventId.Err? {
      return Err(eventId.error);
    }
    return Ok(Some(PipelineResult([eventId.value], sessionId)));
  }

  /** A prompt holding only the question's placeholder becomes the question's text. */
  lemma QuestionFilled(question: Value)
    ensures Substituted(Placeholder("question"), [("question", question)]) == PyStr(question)
  {
    var vars: Entries := [("question", question)];
    assert vars[..0] == [];
    PlaceholderFilled("question", PyStr(question));
  }
}
