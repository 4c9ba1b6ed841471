/**
 * qdrant-discovery/app.py: normalising the model's interpretation of the user's feedback, and
 * the `run_agent` loop. The model, the embedding service, Qdrant and the console are inputs:
 * `Oracles` answers the calls, and each `Round` holds the user's stripped reply and what the random
 * quote lookup of that round would give.
 */
module QuoteAgent {
  import opened Wrappers
  import Dicts
  import opened PyValue
  import opened QuoteRetrieval

  /** The model call: it raised, its content is not JSON, or it parsed to `data`. */
  datatype InterpretReply = ClientError | NotJson | Json(data: Value)

  /** The dictionary `interpret_user_input_with_llm` returns: always these three keys. */
  datatype Interpretation = Interpretation(positive: Option<seq<Value>>, negative: Option<seq<Value>>, stopRequested: bool)

  const DefaultInterpretation := Interpretation(None, None, false)

  const ExamplesPerCategory := 3
  const ContextLimit := 5
  const MissingQuoteText := Str("Quote text not available.")

  /** The reply passes validation: a dict with the three keys and a boolean `stop_requested`. */
  predicate WellFormed(reply: InterpretReply) {
    reply.Json? && reply.data.Dict? &&
    Dicts.HasKey(reply.data.entries, "positive_examples") &&
    Dicts.HasKey(reply.data.entries, "negative_examples") &&
    Dicts.HasKey(reply.data.entries, "stop_requested") &&
    Dicts.Lookup(reply.data.entries, "stop_requested").value.Bool?
  }

  /** A truthy list is cut to its first `n` items; anything else becomes None. */
  function Examples(v: Value, n: nat): (r: Option<seq<Value>>)
    ensures r.Some? <==> v.List? && v.items != []
    ensures r.Some? ==> v.List? && |r.value| <= n && |r.value| <= |v.items| && r.value == v.items[..|r.value|]
    ensures r.Some? && |r.value| < n ==> r.value == v.items
  {
    if Truthy(v) && v.List? then Some(if |v.items| <= n then v.items else v.items[..n]) else None
  }

  /** `interpret_user_input_with_llm` after the model has answered. */
  function Interpret(reply: InterpretReply, numExamples: nat): (r: Interpretation)
    ensures !WellFormed(reply) ==> r == DefaultInterpretation
    ensures WellFormed(reply) ==>
      var es := reply.data.entries;
      r.stopRequested == Dicts.Lookup(es, "stop_requested").value.b &&
      r.positive == Examples(Dicts.Lookup(es, "positive_examples").value, numExamples) &&
      r.negative == Examples(Dicts.Lookup(es, "negative_examples").value, numExamples)
  {
    if !WellFormed(reply) then DefaultInterpretation
    else
      var es := reply.data.entries;
      Interpretation(
        Examples(Dicts.Lookup(es, "positive_examples").value, numExamples),
        Examples(Dicts.Lookup(es, "negative_examples").value, numExamples),
        Dicts.Lookup(es, "stop_requested").value.b)
  }

  /** The services `run_agent` calls. `embed(x)` is `get_embedding(x)` (any failure included). */
  datatype Oracles = Oracles(
    interpret: (string, Value) -> InterpretReply,
    embed: Value -> Result<Embedding>,
    batch: seq<QueryRequest> -> Result<seq<QueryResponse>>)

  /**
   * One pass of the loop: the line read from the console, already stripped as `input().strip()`
   * returns it, and what `get_random_quote` gives if it is called.
   */
  datatype Round = Round(userInput: string, randomQuote: Result<Point>)

  /** The loop's variables. */
  datatype AgentState = AgentState(
    positive: seq<Embedding>,
    negative: seq<Embedding>,
    seen: set<int>,
    current: Point,
    roundCount: nat)

  /** `current_quote.payload.get("quote", "Quote text not available.")`. */
  function QuoteText(p: Point): Value {
    Dicts.GetOr(p.payload, "quote", MissingQuoteText)
  }

  /** The embeddings that succeed, in order: failures are logged and skipped. */
  function Successes(examples: seq<Value>, embed: Value -> Result<Embedding>): seq<Embedding>
    decreases |examples|
  {
    if examples == [] then []
    else
      var last := examples[|examples| - 1];
      Successes(examples[..|examples| - 1], embed) + (if embed(last).Ok? then [embed(last).value] else [])
  }

  /** At most one embedding per example, and exactly one each when none fails. */
  lemma {:induction false} SuccessesLength(examples: seq<Value>, embed: Value -> Result<Embedding>)
    ensures |Successes(examples, embed)| <= |examples|
    ensures (forall i :: 0 <= i < |examples| ==> embed(examples[i]).Ok?) ==> |Successes(examples, embed)| == |examples|
    decreases |examples|
  {
    if examples != [] {
      var init := examples[..|examples| - 1];
      assert forall i :: 0 <= i < |init| ==> init[i] == examples[i];
      SuccessesLength(init, embed);
    }
  }

  function Gained(examples: Option<seq<Value>>, embed: Value -> Result<Embedding>): seq<Embedding> {
    match examples
    case None => []
    case Some(xs) => if xs == [] then [] else Successes(xs, embed)
  }

  /** The first result whose id has not been shown yet. */
  function FirstUnseen(results: seq<Point>, seen: set<int>): (r: Option<Point>)
    ensures r.Some? ==> exists i ::
      0 <= i < |results| && results[i] == r.value && results[i].id !in seen && forall j :: 0 <= j < i ==> results[j].id in seen
    ensures r.None? ==> forall j :: 0 <= j < |results| ==> results[j].id in seen
  {
    if results == [] then None
    else if results[0].id !in seen then Some(results[0])
    else
      var r := FirstUnseen(results[1..], seen);
      if r.Some? then
        var i :| 0 <= i < |results[1..]| && results[1..][i] == r.value && results[1..][i].id !in seen &&
          forall j :: 0 <= j < i ==> results[1..][j].id in seen;
        assert results[i + 1] == r.value;
        r
      else r
  }

  /** Showing a point: it becomes current and its id is marked seen. */
  function Show(s: AgentState, p: Point): AgentState {
    s.(current := p, seen := s.seen + {p.id})
  }

  /** The random fallback: on an exception the current quote stays. */
  function ShowRandom(s: AgentState, random: Result<Point>): AgentState {
    if random.Ok? then Show(s, random.value) else s
  }

  /** Choosing the next quote once the embedding lists are updated. */
  function NextQuote(s: AgentState, round: Round, o: Oracles): AgentState {
    if s.positive != [] && s.negative != [] then
      match QueryByContext(CreateContextPairs(s.positive, s.negative), ContextLimit, Some(s.seen), o.batch)
      case Err(_) => s
      case Ok(results) =>
        match FirstUnseen(results, s.seen)
        case Some(p) => Show(s, p)
        case None => ShowRandom(s, round.randomQuote)
    else ShowRandom(s, round.randomQuote)
  }

  datatype RoundResult = StopNow(rounds: nat) | Continue(next: AgentState)

  /** One round: count it, ask the model, stop or extend the examples and pick the next quote. */
  function PlayRound(s: AgentState, round: Round, o: Oracles): RoundResult {
    var counted := s.(roundCount := s.roundCount + 1);
    var interp := Interpret(o.interpret(round.userInput, QuoteText(s.current)), ExamplesPerCategory);
    if interp.stopRequested then StopNow(counted.roundCount) else Continue(Proceed(counted, interp, round, o))
  }

  /** A round without a stop request: embed the examples, then pick the next quote. */
  function Proceed(s: AgentState, interp: Interpretation, round: Round, o: Oracles): AgentState {
    var grown := s.(positive := s.positive + Gained(interp.positive, o.embed),
                    negative := s.negative + Gained(interp.negative, o.embed));
    NextQuote(grown, round, o)
  }

  /** How the loop ends: no first quote, a stop request after `rounds` rounds, or rounds left to play. */
  datatype AgentOutcome = NoInitialQuote | Stopped(rounds: nat) | AwaitingInput(state: AgentState)

  function RunRounds(s: AgentState, rounds: seq<Round>, o: Oracles): AgentOutcome
    decreases |rounds|
  {
    if rounds == [] then AwaitingInput(s)
    else match PlayRound(s, rounds[0], o)
      case StopNow(n) => Stopped(n)
      case Continue(next) => RunRounds(next, rounds[1..], o)
  }

  function InitialState(first: Point): AgentState {
    AgentState([], [], {first.id}, first, 0)
  }

  /** `run_agent`: the first random quote, then the rounds. */
  function RunAgentSpec(initial: Result<Point>, rounds: seq<Round>, o: Oracles): AgentOutcome {
    if initial.Err? then NoInitialQuote else RunRounds(InitialState(initial.value), rounds, o)
  }

  /**
   * Picking the next quote keeps the lists; the seen set grows by the shown quote only. Without
   * both lists non-empty the random quote is the choice; a quote that changed is the random one
   * or an unseen point of the context search.
   */
  lemma NextQuoteEffects(s: AgentState, round: Round, o: Oracles)
    requires s.current.id in s.seen
    ensures var t := NextQuote(s, round, o);
      t.positive == s.positive && t.negative == s.negative && t.roundCount == s.roundCount &&
      t.current.id in t.seen && t.seen == s.seen + {t.current.id} &&
      (!(s.positive != [] && s.negative != []) ==> t == ShowRandom(s, round.randomQuote)) &&
      (t.current != s.current ==>
        (round.randomQuote.Ok? && t.current == round.randomQuote.value) ||
        (s.positive != [] && s.negative != [] && t.current.id !in s.seen &&
         var found := QueryByContext(CreateContextPairs(s.positive, s.negative), ContextLimit, Some(s.seen), o.batch);
         found.Ok? && t.current in found.value))
  {
    if s.positive != [] && s.negative != [] {
      var found := QueryByContext(CreateContextPairs(s.positive, s.negative), ContextLimit, Some(s.seen), o.batch);
      if found.Ok? {
        var p := FirstUnseen(found.value, s.seen);
        if p.Some? {
          var i :| 0 <= i < |found.value| && found.value[i] == p.value && found.value[i].id !in s.seen &&
            forall j :: 0 <= j < i ==> found.value[j].id in s.seen;
        }
      }
    }
  }

  /**
   * In a round: it is counted; a stop request ends the loop; otherwise the lists grow by the
   * successful embeddings of the examples before the next quote is picked.
   */
  lemma PlayRoundEffects(s: AgentState, round: Round, o: Oracles)
    requires s.current.id in s.seen
    ensures var interp := Interpret(o.interpret(round.userInput, QuoteText(s.current)), ExamplesPerCategory);
      match PlayRound(s, round, o)
      case StopNow(n) => interp.stopRequested && n == s.roundCount + 1
      case Continue(t) =>
        !interp.stopRequested && t.roundCount == s.roundCount + 1 &&
        t.positive == s.positive + Gained(interp.positive, o.embed) &&
        t.negative == s.negative + Gained(interp.negative, o.embed) &&
        t.current.id in t.seen && t.seen == s.seen + {t.current.id}
  {
    var interp := Interpret(o.interpret(round.userInput, QuoteText(s.current)), ExamplesPerCategory);
    if !interp.stopRequested {
      var counted := s.(roundCount := s.roundCount + 1);
      var grown := counted.(positive := s.positive + Gained(interp.positive, o.embed),
                            negative := s.negative + Gained(interp.negative, o.embed));
      NextQuoteEffects(grown, round, o);
      assert Proceed(counted, interp, round, o) == NextQuote(grown, round, o);
    }
  }

  /** The seen set always holds the quote on display, and the stop count is at least one. */
  lemma {:induction false} RunRoundsEffects(s: AgentState, rounds: seq<Round>, o: Oracles)
    requires s.current.id in s.seen
    ensures match RunRounds(s, rounds, o)
      case Stopped(n) => s.roundCount < n <= s.roundCount + |rounds|
      case AwaitingInput(t) => t.roundCount == s.roundCount + |rounds| && t.current.id in t.seen && s.seen <= t.seen
      case NoInitialQuote => false
    decreases |rounds|
  {
    if rounds != [] {
      PlayRoundEffects(s, rounds[0], o);
      match PlayRound(s, rounds[0], o)
      case StopNow(n) =>
      case Continue(next) => RunRoundsEffects(next, rounds[1..], o);
    }
  }

  /** `run_agent` returns a round count of at least one when the user stops. */
  lemma RunAgentStops(initial: Result<Point>, rounds: seq<Round>, o: Oracles)
    ensures RunAgentSpec(initial, rounds, o).Stopped? ==> 1 <= RunAgentSpec(initial, rounds, o).rounds <= |rounds|
    ensures RunAgentSpec(initial, rounds, o) == NoInitialQuote <==> initial.Err?
  {
    if initial.Ok? {
      RunRoundsEffects(InitialState(initial.value), rounds, o);
    }
  }

  /** The embedding loop over one example list. */
  method EmbedAll(embeddings: seq<Embedding>, examples: seq<Value>, embed: Value -> Result<Embedding>) returns (r: seq<Embedding>)
    ensures r == embeddings + Successes(examples, embed)
  {
    r := embeddings;
    var i := 0;
    while i < |examples|
      invariant 0 <= i <= |examples|
      invariant r == embeddings + Successes(examples[..i], embed)
    {
      assert examples[..i + 1][..i] == examples[..i];
      var e := embed(examples[i]);
      if e.Ok? {
        r := r + [e.value];
      }
      i := i + 1;
    }
    assert examples[..i] == examples;
  }

  /** The loop that picks the first unseen result. */
  method PickUnseen(results: seq<Point>, seen: set<int>) returns (next: Option<Point>)
    ensures next == FirstUnseen(results, seen)
  {
    next := None;
    var i := 0;
    while i < |results|
      invariant 0 <= i <= |results|
      invariant forall j :: 0 <= j < i ==> results[j].id in seen
      invariant FirstUnseen(results, seen) == FirstUnseen(results[i..], seen)
    {
      assert results[i..][1..] == results[i + 1..];
      if results[i].id !in seen {
        next := Some(results[i]);
        return;
      }
      i := i + 1;
    }
  }

  /** `run_agent`, with the loop bounded by the rounds supplied. */
  method RunAgent(initial: Result<Point>, rounds: seq<Round>, o: Oracles) returns (r: AgentOutcome)
    ensures r == RunAgentSpec(initial, rounds, o)
  {
    if initial.Err? {
      return NoInitialQuote;
    }
    var positive: seq<Embedding> := [];
    var negative: seq<Embedding> := [];
    var current := initial.value;
    var seen := {current.id};
    var roundCount := 0;
    var i := 0;
    while i < |rounds|
      invariant 0 <= i <= |rounds|
      invariant RunRounds(AgentState(positive, negative, seen, current, roundCount), rounds[i..], o) ==
        RunAgentSpec(initial, rounds, o)
    {
      assert rounds[i..][1..] == rounds[i + 1..];
      var step := RoundStep(AgentState(positive, negative, seen, current, roundCount), rounds[i], o);
      if step.StopNow? {
        return Stopped(step.rounds);
      }
      positive, negative, seen := step.next.positive, step.next.negative, step.next.seen;
      current, roundCount := step.next.current, step.next.roundCount;
      i := i + 1;
    }
    assert rounds[i..] == [];
    r := AwaitingInput(AgentState(positive, negative, seen, current, roundCount));
  }

  /** The body of the loop. */
  method RoundStep(s: AgentState, round: Round, o: Oracles) returns (r: RoundResult)
    ensures r == PlayRound(s, round, o)
  {
    var counted := s.(roundCount := s.roundCount + 1);
    var interp := Interpret(o.interpret(round.userInput, QuoteText(s.current)), ExamplesPerCategory);
    if interp.stopRequested {
      return StopNow(counted.roundCount);
    }
    var next := ProceedStep(counted, interp, round, o);
    return Continue(next);
  }

  /** Embedding the examples and picking the next quote. */
  method ProceedStep(s: AgentState, interp: Interpretation, round: Round, o: Oracles) returns (r: AgentState)
    ensures r == Proceed(s, interp, round, o)
  {
    var positive, negative := s.positive, s.negative;
    if interp.positive.Some? && interp.positive.value != [] {
      positive := EmbedAll(positive, interp.positive.value, o.embed);
    }
    if interp.negative.Some? && interp.negative.value != [] {
      negative := EmbedAll(negative, interp.negative.value, o.embed);
    }
    assert positive == s.positive + Gained(interp.positive, o.embed);
    assert negative == s.negative + Gained(interp.negative, o.embed);
    var current, seen := NextQuoteStep(positive, negative, s.seen, s.current, s.roundCount, round, o);
    r := AgentState(positive, negative, seen, current, s.roundCount);
  }

  /** The `try` block that picks the next quote; an exception keeps the current one. */
  method NextQuoteStep(positive: seq<Embedding>, negative: seq<Embedding>, seen: set<int>, current: Point, roundCount: nat, round: Round, o: Oracles)
    returns (current': Point, seen': set<int>)
    ensures NextQuote(AgentState(positive, negative, seen, current, roundCount), round, o) ==
      AgentState(positive, negative, seen', current', roundCount)
  {
    current', seen' := current, seen;
    if positive != [] && negative != [] {
      var pairs := CreateContextPairs(positive, negative);
      var results := QueryByContext(pairs, ContextLimit, Some(seen), o.batch);
      if results.Err? {
        return;
      }
      var next := PickUnseen(results.value, seen);
      if next.Some? {
        current', seen' := next.value, seen + {next.value.id};
        return;
      }
    }
    if round.randomQuote.Ok? {
      current', seen' := round.randomQuote.value, seen + {round.randomQuote.value.id};
    }
  }
}
