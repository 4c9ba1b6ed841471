/**
 * putnam-evaluation-async-python/putnam_eval.py: the evaluation task and the response quality
 * evaluator. The OpenAI calls are inputs returning the message content; the event loop and
 * the per-thread client are left out.
 */
module PutnamAsync {
  import opened Wrappers
  import Text
  import Dicts
  import opened PyValue
  import opened PutnamGrading

  /** `evaluation_task`: read the four fields in order, then ask the model the question. */
  function EvaluationTask(inputs: Entries, groundTruth: Entries, model: Value -> string): (r: Result<string>)
    ensures r.Ok? <==> QuestionOf(inputs, groundTruth).Ok?
    ensures r.Ok? ==> r.value == model(QuestionOf(inputs, groundTruth).value.question)
    ensures r.Err? ==> r.error == QuestionOf(inputs, groundTruth).error && r.error.KeyError?
  {
    var q :- QuestionOf(inputs, groundTruth);
    Ok(model(q.question))
  }

  /** `response_quality_evaluator`: the rating in the judge's reply, 0 when there is none. */
  function ResponseQuality(outputs: Value, inputs: Entries, groundTruths: Entries, judge: GradingPrompt -> string): (score: nat)
    ensures var text := judge(PromptFor(inputs, PyStr(outputs), groundTruths));
      (Search(text, 0).None? ==> score == 0) &&
      (Search(text, 0).Some? ==> score == Text.DigitsValue(Search(text, 0).value.1))
  {
    ExtractRating(judge(PromptFor(inputs, PyStr(outputs), groundTruths))).score
  }

  /** A missing solution reaches the judge as "N/A". */
  lemma MissingSolutionShown(outputs: Value, inputs: Entries, groundTruths: Entries)
    requires !Dicts.HasKey(groundTruths, "solution")
    ensures PromptFor(inputs, PyStr(outputs), groundTruths).groundTruth == "N/A"
  {
  }
}
