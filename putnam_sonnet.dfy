/**
 * putnam-evaluation-sonnet-3-7/putnam_eval.py: the answer and thinking texts collected from
 * the model's content blocks, the QA entry point and the two evaluators. The model calls are
 * inputs that return the content blocks of a completion.
 */
module PutnamSonnet {
  import opened Wrappers
  import Text
  import Dicts
  import opened PyValue
  import opened PutnamGrading

  /** A content block of an Anthropic message, by `type`. */
  datatype ContentBlock = Thinking(thinking: string) | TextBlock(text: string) | OtherBlock(kind: string)

  /** The "thinking" blocks' texts, in order. */
  function ThinkingParts(blocks: seq<ContentBlock>): seq<string>
    decreases |blocks|
  {
    if blocks == [] then []
    else
      var b := blocks[|blocks| - 1];
      ThinkingParts(blocks[..|blocks| - 1]) + (if b.Thinking? then [b.thinking] else [])
  }

  /** The "text" blocks' texts, in order. */
  function TextParts(blocks: seq<ContentBlock>): seq<string>
    decreases |blocks|
  {
    if blocks == [] then []
    else
      var b := blocks[|blocks| - 1];
      TextParts(blocks[..|blocks| - 1]) + (if b.TextBlock? then [b.text] else [])
  }

  /** A completion split in two: the parts come from consecutive runs of blocks, in order. */
  lemma {:induction false} PartsOfAppend(xs: seq<ContentBlock>, ys: seq<ContentBlock>)
    ensures ThinkingParts(xs + ys) == ThinkingParts(xs) + ThinkingParts(ys)
    ensures TextParts(xs + ys) == TextParts(xs) + TextParts(ys)
    decreases |ys|
  {
    if ys == [] {
      assert xs + ys == xs;
    } else {
      var n := |ys| - 1;
      assert (xs + ys)[..|xs + ys| - 1] == xs + ys[..n];
      assert (xs + ys)[|xs + ys| - 1] == ys[n];
      PartsOfAppend(xs, ys[..n]);
    }
  }

  /** A block of another type contributes to neither text. */
  lemma OtherBlockIgnored(blocks: seq<ContentBlock>, kind: string)
    ensures ThinkingParts(blocks + [OtherBlock(kind)]) == ThinkingParts(blocks)
    ensures TextParts(blocks + [OtherBlock(kind)]) == TextParts(blocks)
  {
    assert (blocks + [OtherBlock(kind)])[..|blocks|] == blocks;
  }

  /** The loop of `generate_response`: thinking and final answer, each concatenated in order. */
  method CollectContent(blocks: seq<ContentBlock>) returns (thinking: string, answer: string)
    ensures thinking == Text.Concat(ThinkingParts(blocks))
    ensures answer == Text.Concat(TextParts(blocks))
  {
    thinking, answer := "", "";
    var i := 0;
    while i < |blocks|
      invariant 0 <= i <= |blocks|
      invariant thinking == Text.Concat(ThinkingParts(blocks[..i]))
      invariant answer == Text.Concat(TextParts(blocks[..i]))
    {
      assert blocks[..i + 1][..i] == blocks[..i];
      assert blocks[..i + 1][i] == blocks[i];
      assert ThinkingParts(blocks[..i + 1]) ==
        ThinkingParts(blocks[..i]) + if blocks[i].Thinking? then [blocks[i].thinking] else [];
      assert TextParts(blocks[..i + 1]) == TextParts(blocks[..i]) + if blocks[i].TextBlock? then [blocks[i].text] else [];
      match blocks[i] {
        case Thinking(t) =>
          Text.ConcatAppend(ThinkingParts(blocks[..i]), t);
          assert TextParts(blocks[..i]) + [] == TextParts(blocks[..i]);
          thinking := thinking + t;
        case TextBlock(t) =>
          Text.ConcatAppend(TextParts(blocks[..i]), t);
          assert ThinkingParts(blocks[..i]) + [] == ThinkingParts(blocks[..i]);
          answer := answer + t;
        case OtherBlock(_) =>
          assert TextParts(blocks[..i]) + [] == TextParts(blocks[..i]);
          assert ThinkingParts(blocks[..i]) + [] == ThinkingParts(blocks[..i]);
      }
      i := i + 1;
    }
    assert blocks[..i] == blocks;
  }

  /** The loop of the evaluators: the "text" blocks only. */
  method EvaluationText(blocks: seq<ContentBlock>) returns (text: string)
    ensures text == Text.Concat(TextParts(blocks))
  {
    text := "";
    var i := 0;
    while i < |blocks|
      invariant 0 <= i <= |blocks|
      invariant text == Text.Concat(TextParts(blocks[..i]))
    {
      assert blocks[..i + 1][..i] == blocks[..i];
      assert blocks[..i + 1][i] == blocks[i];
      assert TextParts(blocks[..i + 1]) == TextParts(blocks[..i]) + if blocks[i].TextBlock? then [blocks[i].text] else [];
      if blocks[i].TextBlock? {
        Text.ConcatAppend(TextParts(blocks[..i]), blocks[i].text);
        text := text + blocks[i].text;
      } else {
        assert TextParts(blocks[..i]) + [] == TextParts(blocks[..i]);
      }
      i := i + 1;
    }
    assert blocks[..i] == blocks;
  }

  /** What `generate_response` returns, and the thinking it records in the span metadata. */
  datatype Response = Response(answer: string, thinking: string)

  /** `putnam_qa`: read the fields, ask the model, collect its content. */
  method PutnamQa(inputs: Entries, groundTruth: Entries, model: Value -> seq<ContentBlock>) returns (r: Result<Response>)
    ensures r.Ok? <==> QuestionOf(inputs, groundTruth).Ok?
    ensures r.Err? ==> r.error == QuestionOf(inputs, groundTruth).error
    ensures r.Ok? ==> var blocks := model(QuestionOf(inputs, groundTruth).value.question);
      r.value == Response(Text.Concat(TextParts(blocks)), Text.Concat(ThinkingParts(blocks)))
  {
    var q := QuestionOf(inputs, groundTruth);
    if q.Err? {
      return Err(q.error);
    }
    var thinking, answer := CollectContent(model(q.value.question));
    return Ok(Response(answer, thinking));
  }

  /** "No thinking process recorded" unless the metadata holds the thinking. */
  function ThinkingOf(metadata: Entries): Value {
    Dicts.GetOr(metadata, "thinking", Str("No thinking process recorded"))
  }

  /** `response_quality_evaluator`: the judge grades `outputs` against the ground truth. */
  method ResponseQuality(outputs: Value, inputs: Entries, groundTruths: Entries, judge: GradingPrompt -> seq<ContentBlock>) returns (score: nat)
    ensures var prompt := GradingPrompt(PyStr(Dict(inputs)), PyStr(outputs), GroundTruthText(groundTruths));
      score == ExtractRating(Text.Concat(TextParts(judge(prompt)))).score
  {
    var prompt := PromptFor(inputs, PyStr(outputs), groundTruths);
    var text := EvaluationText(judge(prompt));
    score := ExtractRating(text).score;
  }

  /** `thinking_process_evaluator`: the same extraction over a grade of the recorded thinking. */
  method ThinkingProcess(inputs: Entries, groundTruths: Entries, metadata: Entries, judge: GradingPrompt -> seq<ContentBlock>) returns (score: nat)
    ensures var prompt := GradingPrompt(PyStr(Dict(inputs)), PyStr(ThinkingOf(metadata)), GroundTruthText(groundTruths));
      score == ExtractRating(Text.Concat(TextParts(judge(prompt)))).score
  {
    var prompt := PromptFor(inputs, PyStr(ThinkingOf(metadata)), groundTruths);
    var text := EvaluationText(judge(prompt));
    score := ExtractRating(text).score;
  }

  /** Without recorded thinking the judge is shown the fixed placeholder. */
  lemma MissingThinking(metadata: Entries)
    requires !Dicts.HasKey(metadata, "thinking")
    ensures PyStr(ThinkingOf(metadata)) == "No thinking process recorded"
  {
  }
}
