/**
 * crewai-cookbook/evaluate_crew_results.py: `evaluate_result`, which reads the LLM judge's
 * scores (or a fallback table when the judge's output is not JSON), emits one span metric per
 * criterion and averages the scores. The judge and the crew run are inputs.
 */
module CrewEvaluation {
  import opened Wrappers
  import Dicts
  import opened PyValue

  /** `EVALUATION_CRITERIA`'s keys, in their order. */
  const CriteriaKeys := ["relevance", "accuracy", "completeness", "readability", "actionability"]

  /** The judge's output: not JSON, or the decoded value. */
  datatype JudgeReply = NotJson | Json(decoded: Value)

  const FallbackScore := 5

  /** The fallback record of one criterion: the middle score and an explanation naming it. */
  function FallbackEntry(criterion: string): Value {
    Dict([("score", Int(FallbackScore)), ("explanation", Str("Failed to parse LLM judge's evaluation for " + criterion))])
  }

  /** The fallback table after assigning the given criteria in order. */
  function Fallback(criteria: seq<string>): Entries
    decreases |criteria|
  {
    if criteria == [] then []
    else
      var n := |criteria| - 1;
      Dicts.Put(Fallback(criteria[..n]), criteria[n], FallbackEntry(criteria[n]))
  }

  /** Every assigned criterion maps to its fallback record, and nothing else is present. */
  lemma {:induction false} FallbackLookup(criteria: seq<string>, key: string)
    ensures Dicts.Lookup(Fallback(criteria), key) == if key in criteria then Some(FallbackEntry(key)) else None
    decreases |criteria|
  {
    if criteria != [] {
      var n := |criteria| - 1;
      FallbackLookup(criteria[..n], key);
      assert criteria == criteria[..n] + [criteria[n]];
      assert key in criteria <==> key in criteria[..n] || key == criteria[n];
    }
  }

  /** Distinct criteria are the table's keys, in assignment order. */
  lemma {:induction false} FallbackKeys(criteria: seq<string>)
    requires forall i, j :: 0 <= i < j < |criteria| ==> criteria[i] != criteria[j]
    ensures Dicts.Keys(Fallback(criteria)) == criteria
    decreases |criteria|
  {
    if criteria != [] {
      var n := |criteria| - 1;
      var init := criteria[..n];
      FallbackKeys(init);
      Dicts.PutKeys(Fallback(init), criteria[n], FallbackEntry(criteria[n]));
      forall i | 0 <= i < |Fallback(init)|
        ensures Fallback(init)[i].0 != criteria[n]
      {
        assert Dicts.Keys(Fallback(init))[i] == Fallback(init)[i].0;
        assert init[i] == criteria[i];
      }
      assert criteria == init + [criteria[n]];
    }
  }

  /** Assigning keys one by one never repeats a key. */
  lemma {:induction false} FallbackUnique(criteria: seq<string>)
    ensures Dicts.UniqueKeys(Fallback(criteria))
    decreases |criteria|
  {
    if criteria != [] {
      var n := |criteria| - 1;
      FallbackUnique(criteria[..n]);
      Dicts.PutKeepsUnique(Fallback(criteria[..n]), criteria[n], FallbackEntry(criteria[n]));
    }
  }

  /** The `except json.JSONDecodeError` branch: one fallback record per criterion. */
  method FallbackResults() returns (evaluationResults: Entries)
    ensures evaluationResults == Fallback(CriteriaKeys)
  {
    evaluationResults := [];
    var i := 0;
    while i < |CriteriaKeys|
      invariant 0 <= i <= |CriteriaKeys|
      invariant evaluationResults == Fallback(CriteriaKeys[..i])
    {
      var criterion := CriteriaKeys[i];
      assert CriteriaKeys[..i + 1][..i] == CriteriaKeys[..i];
      evaluationResults := Dicts.Put(evaluationResults, criterion, FallbackEntry(criterion));
      i := i + 1;
    }
    assert CriteriaKeys[..i] == CriteriaKeys;
  }

  /** The fallback has exactly the five criteria, each with score 5 and its own explanation. */
  lemma FallbackShape(key: string)
    ensures Dicts.Keys(Fallback(CriteriaKeys)) == CriteriaKeys
    ensures Dicts.Lookup(Fallback(CriteriaKeys), key) == if key in CriteriaKeys then Some(FallbackEntry(key)) else None
  {
    var c := CriteriaKeys;
    assert c[0] != c[1] && c[0] != c[2] && c[0] != c[3] && c[0] != c[4];
    assert c[1] != c[2] && c[1] != c[3] && c[1] != c[4];
    assert c[2] != c[3] && c[2] != c[4] && c[3] != c[4];
    FallbackKeys(c);
    FallbackLookup(c, key);
  }

  /** `[result_data["score"] for result_data in evaluation_results.values()]`. */
  function Scores(results: Entries): (r: Result<seq<Value>>)
    ensures r.Ok? <==> forall k :: 0 <= k < |results| ==> GetItem(results[k].1, "score").Ok?
    ensures r.Ok? ==> (|r.value| == |results| &&
      forall k :: 0 <= k < |results| ==> r.value[k] == GetItem(results[k].1, "score").value)
    decreases |results|
  {
    if results == [] then Ok([])
    else
      var n := |results| - 1;
      var init := results[..n];
      var scores :- Scores(init);
      assert forall k :: 0 <= k < n ==> init[k] == results[k];
      var score :- GetItem(results[n].1, "score");
      Ok(scores + [score])
  }

  /** Once a prefix of the entries raises, the whole comprehension raises the same error. */
  lemma {:induction false} ScoresPrefixFailure(results: Entries, n: nat)
    requires 0 < n <= |results| && Scores(results[..n]).Err?
    ensures Scores(results) == Scores(results[..n])
    decreases |results| - n
  {
    if n < |results| {
      assert results[..n + 1][..n] == results[..n];
      ScoresPrefixFailure(results, n + 1);
    } else {
      assert results[..n] == results;
    }
  }

  /** The name of a criterion's span metric. */
  function MetricName(criterion: string): string {
    "evaluation_" + criterion + "_score"
  }

  /**
   * The `enrich_span` loop: one metric per criterion, in order, named after it and carrying its
   * score; an entry without a score raises before the average is taken.
   */
  method SpanMetrics(evaluationResults: Entries) returns (r: Result<seq<(string, Value)>>)
    ensures r.Ok? <==> Scores(evaluationResults).Ok?
    ensures r.Ok? ==> (|r.value| == |evaluationResults| &&
      forall k :: 0 <= k < |evaluationResults| ==>
        r.value[k] == (MetricName(evaluationResults[k].0), Scores(evaluationResults).value[k]))
    ensures r.Err? ==> r == Err(Scores(evaluationResults).error)
  {
    var metrics: seq<(string, Value)> := [];
    var i := 0;
    while i < |evaluationResults|
      invariant 0 <= i <= |evaluationResults| && |metrics| == i
      invariant forall k :: 0 <= k < i ==> GetItem(evaluationResults[k].1, "score").Ok?
      invariant Scores(evaluationResults[..i]).Ok?
      invariant forall k :: 0 <= k < i ==>
        metrics[k] == (MetricName(evaluationResults[k].0), GetItem(evaluationResults[k].1, "score").value)
    {
      var (criterion, resultData) := evaluationResults[i];
      var score := GetItem(resultData, "score");
      assert evaluationResults[..i + 1][..i] == evaluationResults[..i];
      if score.Err? {
        ScoresPrefixFailure(evaluationResults, i + 1);
        return Err(score.error);
      }
      metrics := metrics + [(MetricName(criterion), score.value)];
      i := i + 1;
    }
    return Ok(metrics);
  }

  /** A score as a number for `sum`: ints, floats and bools add; anything else raises. */
  function Numeric(v: Value): (r: Result<real>)
    ensures r.Ok? <==> v.Int? || v.Float? || v.Bool?
    ensures v.Int? ==> r == Ok(v.i as real)
  {
    match v
    case Int(i) => Ok(i as real)
    case Float(x) => Ok(x)
    case Bool(b) => Ok(if b then 1.0 else 0.0)
    case _ => Err(TypeError("unsupported operand type(s) for +"))
  }

  /** `sum(scores)`, added left to right from 0. */
  function Sum(scores: seq<Value>): Result<real>
    decreases |scores|
  {
    if scores == [] then Ok(0.0)
    else
      var total :- Sum(scores[..|scores| - 1]);
      var x :- Numeric(scores[|scores| - 1]);
      Ok(total + x)
  }

  /** `sum(scores) / len(scores) if scores else 0`. */
  function Average(scores: seq<Value>): (r: Result<Value>)
    ensures scores == [] ==> r == Ok(Int(0))
  {
    if scores == [] then Ok(Int(0))
    else
      var total :- Sum(scores);
      Ok(Float(total / |scores| as real))
  }

  /** Scores between `lo` and `hi` add up to between n * lo and n * hi. */
  lemma {:induction false} SumBounds(scores: seq<Value>, lo: real, hi: real)
    requires forall k :: 0 <= k < |scores| ==> Numeric(scores[k]).Ok? && lo <= Numeric(scores[k]).value <= hi
    ensures Sum(scores).Ok?
    ensures |scores| as real * lo <= Sum(scores).value <= |scores| as real * hi
    decreases |scores|
  {
    if scores != [] {
      var init := scores[..|scores| - 1];
      assert forall k :: 0 <= k < |init| ==> init[k] == scores[k];
      SumBounds(init, lo, hi);
      var m := |init| as real;
      var x := Numeric(scores[|scores| - 1]).value;
      assert Sum(scores).value == Sum(init).value + x;
      assert |scores| as real * lo == m * lo + lo;
      assert |scores| as real * hi == m * hi + hi;
    }
  }

  /** The average of scores between `lo` and `hi` lies between them. */
  lemma AverageBounds(scores: seq<Value>, lo: real, hi: real)
    requires scores != []
    requires forall k :: 0 <= k < |scores| ==> Numeric(scores[k]).Ok? && lo <= Numeric(scores[k]).value <= hi
    ensures Average(scores).Ok? && Average(scores).value.Float?
    ensures lo <= Average(scores).value.r <= hi
  {
    SumBounds(scores, lo, hi);
    var n := |scores| as real;
    var s := Sum(scores).value;
    assert s / n * n == s;
  }

  /** The sum exists exactly when every score is a number. */
  lemma {:induction false} SumOk(scores: seq<Value>)
    ensures Sum(scores).Ok? <==> forall k :: 0 <= k < |scores| ==> Numeric(scores[k]).Ok?
    decreases |scores|
  {
    if scores != [] {
      var init := scores[..|scores| - 1];
      SumOk(init);
      assert forall k :: 0 <= k < |init| ==> init[k] == scores[k];
    }
  }

  /** The average exists exactly when every score is a number (no scores average 0). */
  lemma AverageOk(scores: seq<Value>)
    ensures Average(scores).Ok? <==> forall k :: 0 <= k < |scores| ==> Numeric(scores[k]).Ok?
  {
    SumOk(scores);
  }

  /** The result of `evaluate_result`, with the span metrics it emitted. */
  datatype Evaluation = Evaluation(results: Entries, averageScore: Value, spanMetrics: seq<(string, Value)>)

  /** `{"results": ..., "average_score": ...}`: exactly the two keys. */
  function Returned(e: Evaluation): (v: Value)
    ensures v.Dict? && Dicts.Keys(v.entries) == ["results", "average_score"]
  {
    Dict([("results", Dict(e.results)), ("average_score", e.averageScore)])
  }

  /**
   * `evaluate_result`: the judge's dictionary, or the fallback table when its output is not JSON;
   * one span metric per criterion; and the average score. A decoded value that is not a
   * dictionary has no `.items()`.
   */
  method EvaluateResult(judge: JudgeReply) returns (r: Result<Evaluation>)
    ensures judge.Json? && !judge.decoded.Dict? ==> r.Err? && r.error.AttributeError?
    ensures r.Ok? ==>
      r.value.results == (if judge.NotJson? then Fallback(CriteriaKeys) else judge.decoded.entries) &&
      Scores(r.value.results).Ok? && Average(Scores(r.value.results).value) == Ok(r.value.averageScore) &&
      |r.value.spanMetrics| == |r.value.results| &&
      forall k :: 0 <= k < |r.value.results| ==>
        r.value.spanMetrics[k] == (MetricName(r.value.results[k].0), Scores(r.value.results).value[k])
    ensures judge.NotJson? ==> r.Ok? && r.value.results == Fallback(CriteriaKeys) && r.value.averageScore == Float(5.0)
    ensures judge.Json? && judge.decoded.Dict? && Scores(judge.decoded.entries).Err? ==>
      r == Err(Scores(judge.decoded.entries).error)
    ensures judge.Json? && judge.decoded.Dict? && Scores(judge.decoded.entries).Ok? ==>
      var average := Average(Scores(judge.decoded.entries).value);
      (average.Err? ==> r == Err(average.error)) && (average.Ok? ==> r.Ok?)
  {
    var evaluationResults: Entries;
    match judge {
      case NotJson =>
        evaluationResults := FallbackResults();
        FallbackAverage();
      case Json(decoded) =>
        if !decoded.Dict? {
          return Err(AttributeError("object has no attribute 'items'"));
        }
        evaluationResults := decoded.entries;
    }
    var metrics := SpanMetrics(evaluationResults);
    if metrics.Err? {
      return Err(metrics.error);
    }
    var scores := Scores(evaluationResults);
    var averageScore := Average(scores.value);
    if averageScore.Err? {
      return Err(averageScore.error);
    }
    return Ok(Evaluation(evaluationResults, averageScore.value, metrics.value));
  }

  /** Each fallback record scores 5. */
  lemma FallbackScoreAt(criteria: seq<string>, k: nat)
    requires k < |Fallback(criteria)|
    ensures GetItem(Fallback(criteria)[k].1, "score") == Ok(Int(FallbackScore))
  {
    var results := Fallback(criteria);
    FallbackUnique(criteria);
    Dicts.LookupAt(results, k);
    FallbackLookup(criteria, results[k].0);
    assert results[k].1 == FallbackEntry(results[k].0);
  }

  /** Every score read from a non-empty fallback table is the fallback score. */
  lemma FallbackScores(criteria: seq<string>)
    requires criteria != []
    ensures Scores(Fallback(criteria)).Ok?
    ensures var scores := Scores(Fallback(criteria)).value;
      scores != [] && forall k :: 0 <= k < |scores| ==> scores[k] == Int(FallbackScore)
  {
    var results := Fallback(criteria);
    FallbackLookup(criteria, criteria[0]);
    assert results != [];
    forall k | 0 <= k < |results|
      ensures GetItem(results[k].1, "score") == Ok(Int(FallbackScore))
    {
      FallbackScoreAt(criteria, k);
    }
  }

  /** Scores that are all the fallback score average to it. */
  lemma AverageOfFallbackScores(scores: seq<Value>)
    requires scores != [] && forall k :: 0 <= k < |scores| ==> scores[k] == Int(FallbackScore)
    ensures Average(scores) == Ok(Float(5.0))
  {
    forall k | 0 <= k < |scores|
      ensures Numeric(scores[k]) == Ok(5.0)
    {
      assert scores[k] == Int(FallbackScore);
    }
    AverageBounds(scores, 5.0, 5.0);
  }

  /** A fallback table over some criteria has only scores of 5, so its average is 5. */
  lemma FallbackAverageOf(criteria: seq<string>)
    requires criteria != []
    ensures Scores(Fallback(criteria)).Ok?
    ensures Average(Scores(Fallback(criteria)).value) == Ok(Float(5.0))
  {
    FallbackScores(criteria);
    AverageOfFallbackScores(Scores(Fallback(criteria)).value);
  }

  /** The fallback of the five criteria averages 5. */
  lemma FallbackAverage()
    ensures Scores(Fallback(CriteriaKeys)).Ok?
    ensures Average(Scores(Fallback(CriteriaKeys)).value) == Ok(Float(5.0))
  {
    FallbackAverageOf(CriteriaKeys);
  }
}
