/**
 * metrics/model_metrics.py: `ground_truth_match` after the evaluator model has answered. The
 * model call is an input: it raised, or it returned a tool call whose arguments either failed
 * to decode or decoded to a JSON value.
 */
module ModelMetrics {
  import opened Wrappers
  import Dicts
  import opened PyValue

  /** What the evaluator call gives back. */
  datatype EvaluatorReply =
    | ApiError(message: string)              // `str(e)` of the exception from the client
    | ToolCallError(error: PyError)          // reading `choices[0].message.tool_calls[0]` raised
    | Arguments(decoded: Option<Value>)      // `json.loads(arguments)`; None on JSONDecodeError

  const NoRating := "The model failed to provide a rating."
  const InvalidRating := "The model failed to provide a valid rating."
  const ErrorPrefix := "Error occurred while running the evaluator model. Error: "

  /** `isinstance(rating, int)`: booleans are ints in Python. */
  predicate IsPyInt(v: Value) {
    v.Int? || v.Bool?
  }

  function IntValue(v: Value): int
    requires IsPyInt(v)
  {
    if v.Int? then v.i else if v.b then 1 else 0
  }

  /** The value `ground_truth_match` returns: the rating only when it is an int in 0..5. */
  predicate ValidRating(v: Value) {
    IsPyInt(v) && 0 <= IntValue(v) <= 5
  }

  /** The membership tests and the look-ups, before the range check. */
  function Unchecked(arguments: Value): (r: Result<(Value, Value)>) {
    if arguments == NoneV then Ok((Int(0), Str(NoRating)))
    else
      var hasRating :- In(Str("rating"), arguments);
      if !hasRating then Ok((Int(0), Str(InvalidRating)))
      else
        var hasExplanation :- In(Str("explanation"), arguments);
        if !hasExplanation then Ok((Int(0), Str(InvalidRating)))
        else
          var rating :- GetItem(arguments, "rating");
          var explanation :- GetItem(arguments, "explanation");
          Ok((rating, explanation))
  }

  /** `ground_truth_match`: the pair (rating, explanation), or the exception it lets escape. */
  function GroundTruthMatch(reply: EvaluatorReply): (r: Result<(Value, Value)>)
    ensures r.Ok? ==> ValidRating(r.value.0)
  {
    match reply
    case ApiError(m) => Ok((Int(0), Str(ErrorPrefix + m)))
    case ToolCallError(e) => Err(e)
    case Arguments(decoded) =>
      var (rating, explanation) :- Unchecked(decoded.GetOr(NoneV));
      if !ValidRating(rating) then Ok((Int(0), Str(InvalidRating))) else Ok((rating, explanation))
  }

  /** A failed call gives 0 and the error message; undecodable arguments give 0 and "no rating". */
  lemma FailureCases(m: string)
    ensures GroundTruthMatch(ApiError(m)) == Ok((Int(0), Str(ErrorPrefix + m)))
    ensures GroundTruthMatch(Arguments(None)) == Ok((Int(0), Str(NoRating)))
    ensures GroundTruthMatch(Arguments(Some(NoneV))) == Ok((Int(0), Str(NoRating)))
  {
  }

  /**
   * A dictionary with both keys gives its rating and explanation when the rating is an int in
   * 0..5, else 0 and "no valid rating"; a dictionary lacking either key gives 0 and "no valid
   * rating".
   */
  lemma DictArguments(es: Entries)
    ensures var r := GroundTruthMatch(Arguments(Some(Dict(es))));
      r.Ok? &&
      (Dicts.HasKey(es, "rating") && Dicts.HasKey(es, "explanation") ==>
        var rating := Dicts.Lookup(es, "rating").value;
        r.value == if ValidRating(rating) then (rating, Dicts.Lookup(es, "explanation").value) else (Int(0), Str(InvalidRating))) &&
      (!(Dicts.HasKey(es, "rating") && Dicts.HasKey(es, "explanation")) ==> r.value == (Int(0), Str(InvalidRating)))
  {
    InKeysOfDict(es, "rating");
    InKeysOfDict(es, "explanation");
  }

  lemma InKeysOfDict(es: Entries, key: string)
    ensures In(Str(key), Dict(es)) == Ok(Dicts.HasKey(es, key))
  {
    var ks := Dicts.Keys(es);
    if Dicts.HasKey(es, key) {
      var i :| 0 <= i < |es| && es[i].0 == key;
      assert ks[i] == key;
    }
  }

  /** A rating outside 0..5, or not an int (a float, say), is replaced. */
  lemma OutOfRange(es: Entries, rating: Value, explanation: Value)
    requires Dicts.Lookup(es, "rating") == Some(rating) && Dicts.Lookup(es, "explanation") == Some(explanation)
    requires !ValidRating(rating)
    ensures GroundTruthMatch(Arguments(Some(Dict(es)))) == Ok((Int(0), Str(InvalidRating)))
  {
    DictArguments(es);
  }
}
