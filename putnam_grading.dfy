/**
 * What the two Putnam evaluation scripts (putnam-evaluation-sonnet-3-7/putnam_eval.py and
 * putnam-evaluation-async-python/putnam_eval.py) share: reading the judge's rating out of its
 * text with `re.search(r"Rating:\s*\[\[(\d+)\]\]", text)`, the question fields handed to the
 * model, and the ground truth rendered into the grading prompt.
 */
module PutnamGrading {
  import opened Wrappers
  import Text
  import Dicts
  import opened PyValue

  const RatingLabel := "Rating:"

  /** The first index at or after `from` that is not whitespace (`\s*`, greedy). */
  function SkipSpaces(s: string, from: nat): (k: nat)
    requires from <= |s|
    ensures from <= k <= |s| && (k < |s| ==> !Text.IsSpace(s[k]))
    ensures forall j :: from <= j < k ==> Text.IsSpace(s[j])
    decreases |s| - from
  {
    if from == |s| || !Text.IsSpace(s[from]) then from else SkipSpaces(s, from + 1)
  }

  /** The first index at or after `from` that is not a decimal digit (`\d+`, greedy). */
  function SkipDigits(s: string, from: nat): (k: nat)
    requires from <= |s|
    ensures from <= k <= |s| && (k < |s| ==> !Text.IsDigit(s[k]))
    ensures forall j :: from <= j < k ==> Text.IsDigit(s[j])
    decreases |s| - from
  {
    if from == |s| || !Text.IsDigit(s[from]) then from else SkipDigits(s, from + 1)
  }

  /** The pattern matched at position `p`: the digits of group 1. */
  function MatchAt(s: string, p: nat): (r: Option<string>)
    requires p <= |s|
    ensures r.Some? ==> r.value != [] && forall j :: 0 <= j < |r.value| ==> Text.IsDigit(r.value[j])
  {
    if !Text.StartsWith(s[p..], RatingLabel) then None
    else
      var w := SkipSpaces(s, p + |RatingLabel|);
      if !Text.StartsWith(s[w..], "[[") then None
      else
        var d := SkipDigits(s, w + 2);
        if d == w + 2 || !Text.StartsWith(s[d..], "]]") then None
        else Some(s[w + 2..d])
  }

  /** `re.search` from `from`: the leftmost position where the pattern matches. */
  function Search(s: string, from: nat): (r: Option<(nat, string)>)
    requires from <= |s|
    ensures r.Some? ==> from <= r.value.0 <= |s| && MatchAt(s, r.value.0) == Some(r.value.1)
    decreases |s| - from
  {
    match MatchAt(s, from)
    case Some(digits) => Some((from, digits))
    case None => if from == |s| then None else Search(s, from + 1)
  }

  /** The search finds the leftmost match: nothing matches before it, or anywhere when it fails. */
  lemma {:induction false} SearchLeftmost(s: string, from: nat, q: nat)
    requires from <= q <= |s|
    requires Search(s, from).Some? ==> q < Search(s, from).value.0
    ensures MatchAt(s, q).None?
    decreases |s| - from
  {
    if q > from {
      SearchLeftmost(s, from + 1, q);
    }
  }

  /** The score and explanation the evaluators compute (only the score is returned). */
  datatype Grade = Grade(score: nat, explanation: string)

  /**
   * `int(match.group(1))` and the stripped text before the match; with no match, 0 and the
   * whole stripped text. The score is not clamped to 0..10.
   */
  function ExtractRating(text: string): (g: Grade) {
    match Search(text, 0)
    case Some((start, digits)) => Grade(Text.DigitsValue(digits), Text.Strip(text[..start]))
    case None => Grade(0, Text.Strip(text))
  }

  /** The judge's verdict as the prompt asks for it, with one space after the label. */
  function Verdict(n: nat): string {
    RatingLabel + " [[" + Text.NatToString(n) + "]]"
  }

  /** A verdict is recognised where it stands, whatever follows it. */
  lemma VerdictMatches(prefix: string, n: nat, suffix: string)
    ensures var s := prefix + Verdict(n) + suffix;
      MatchAt(s, |prefix|) == Some(Text.NatToString(n))
  {
    var s := prefix + Verdict(n) + suffix;
    var p := |prefix|;
    var ds := Text.NatToString(n);
    var q := p + |RatingLabel|;
    var w := q + 1;
    var d := w + 2 + |ds|;
    assert s[p..] == RatingLabel + " [[" + ds + "]]" + suffix;
    VerdictPieces(s, p, ds, suffix);
    SpaceRun(s, q);
    DigitsAndSuffix(s, w + 2, n, suffix);
    MatchAtParts(s, p, w, d);
  }

  /** Where a verdict stands, its label, blank, brackets and digits are at fixed offsets. */
  lemma VerdictPieces(s: string, p: nat, ds: string, suffix: string)
    requires p <= |s| && s[p..] == RatingLabel + " [[" + ds + "]]" + suffix
    ensures var q := p + |RatingLabel|; var w := q + 1; var d := w + 2 + |ds|;
      d + 2 <= |s| && s[p..q] == RatingLabel && s[q] == ' ' && s[w] == '[' && s[w..w + 2] == "[["
      && s[w + 2..] == ds + "]]" + suffix && s[d..d + 2] == "]]" && s[w + 2..d] == ds
  {
    var q := p + |RatingLabel|;
    var w := q + 1;
    var d := w + 2 + |ds|;
    assert s[p..q] == s[p..][..|RatingLabel|];
    assert s[q] == s[p..][|RatingLabel|];
    assert s[w..w + 2] == s[p..][|RatingLabel| + 1..|RatingLabel| + 3];
    assert s[w + 2..] == s[p..][|RatingLabel| + 3..];
    assert s[d..d + 2] == s[w + 2..][|ds|..|ds| + 2];
    assert s[w + 2..d] == s[w + 2..][..|ds|];
  }

  /** One blank, then a '[': `\s*` consumes the blank. */
  lemma SpaceRun(s: string, q: nat)
    requires q + 1 < |s| && s[q] == ' ' && s[q + 1] == '['
    ensures SkipSpaces(s, q) == q + 1
  {
    assert !Text.IsSpace(s[q + 1]);
  }

  /** The pattern's pieces at their places make a match. */
  lemma MatchAtParts(s: string, p: nat, w: nat, d: nat)
    requires p + |RatingLabel| <= w && w + 2 < d && d + 2 <= |s|
    requires s[p..p + |RatingLabel|] == RatingLabel && SkipSpaces(s, p + |RatingLabel|) == w
    requires s[w..w + 2] == "[[" && SkipDigits(s, w + 2) == d && s[d..d + 2] == "]]"
    ensures MatchAt(s, p) == Some(s[w + 2..d])
  {
    assert s[p..][..|RatingLabel|] == s[p..p + |RatingLabel|];
    assert s[w..][..2] == s[w..w + 2];
    assert s[d..][..2] == s[d..d + 2];
  }

  lemma DigitsAndSuffix(s: string, from: nat, n: nat, suffix: string)
    requires from <= |s| && s[from..] == Text.NatToString(n) + "]]" + suffix
    ensures SkipDigits(s, from) == from + |Text.NatToString(n)|
  {
    var ds := Text.NatToString(n);
    forall i | from <= i < from + |ds|
      ensures Text.IsDigit(s[i])
    {
      assert s[i] == s[from..][i - from] == ds[i - from];
    }
    assert s[from + |ds|] == s[from..][|ds|] == ']';
    DigitRun(s, from, from + |ds|);
  }

  /** `\d+` from `j` stops at the first non-digit. */
  lemma {:induction false} DigitRun(s: string, j: nat, end: nat)
    requires j <= end < |s| && !Text.IsDigit(s[end])
    requires forall i :: j <= i < end ==> Text.IsDigit(s[i])
    ensures SkipDigits(s, j) == end
    decreases end - j
  {
    if j < end {
      DigitRun(s, j + 1, end);
    }
  }

  /**
   * A verdict after text without an 'R' gives its number, whatever its size, and the stripped
   * text before it as the explanation.
   */
  lemma {:induction false} RatingOfVerdict(prefix: string, n: nat, suffix: string)
    requires forall j :: 0 <= j < |prefix| ==> prefix[j] != 'R'
    ensures ExtractRating(prefix + Verdict(n) + suffix) == Grade(n, Text.Strip(prefix))
  {
    var s := prefix + Verdict(n) + suffix;
    VerdictMatches(prefix, n, suffix);
    NoMatchBefore(s, prefix, 0);
    var r := Search(s, 0);
    assert r.Some? && r.value.0 == |prefix|;
    Text.DigitsValueOfNatToString(n);
    assert s[..|prefix|] == prefix;
  }

  /** No match starts inside a prefix without an 'R', so the search goes on to the verdict. */
  lemma {:induction false} NoMatchBefore(s: string, prefix: string, from: nat)
    requires |prefix| <= |s| && s[..|prefix|] == prefix && from <= |prefix|
    requires forall j :: 0 <= j < |prefix| ==> prefix[j] != 'R'
    requires MatchAt(s, |prefix|).Some?
    ensures Search(s, from) == Some((|prefix|, MatchAt(s, |prefix|).value))
    decreases |prefix| - from
  {
    if from < |prefix| {
      assert s[from] == s[..|prefix|][from];
      NotAtLabel(s, from);
      assert Search(s, from) == Search(s, from + 1);
      NoMatchBefore(s, prefix, from + 1);
    }
  }

  /** No match starts at a character other than 'R'. */
  lemma NotAtLabel(s: string, p: nat)
    requires p < |s| && s[p] != 'R'
    ensures MatchAt(s, p).None?
  {
    assert s[p..][0] == s[p];
  }

  /** The score is 0 exactly when there is no match or the matched digits read as zero. */
  lemma ZeroScore(text: string)
    ensures ExtractRating(text).score == 0 <==>
      match Search(text, 0)
      case None => true
      case Some((_, digits)) => Text.DigitsValue(digits) == 0
  {
  }

  /** The arguments `putnam_qa` / `evaluation_task` pass on, read in this order. */
  datatype Question = Question(question: Value, id: Value, category: Value, groundTruth: Value)

  /**
   * `inputs['question']`, `inputs['question_id']`, `inputs['question_category']`,
   * `ground_truth['solution']`: the first missing key raises KeyError.
   */
  function QuestionOf(inputs: Entries, groundTruth: Entries): (r: Result<Question>)
    ensures r.Ok? <==>
      Dicts.HasKey(inputs, "question") && Dicts.HasKey(inputs, "question_id") &&
      Dicts.HasKey(inputs, "question_category") && Dicts.HasKey(groundTruth, "solution")
    ensures r.Ok? ==>
      Some(r.value.question) == Dicts.Lookup(inputs, "question") &&
      Some(r.value.id) == Dicts.Lookup(inputs, "question_id") &&
      Some(r.value.category) == Dicts.Lookup(inputs, "question_category") &&
      Some(r.value.groundTruth) == Dicts.Lookup(groundTruth, "solution")
    ensures !Dicts.HasKey(inputs, "question") ==> r == Err(KeyError("question"))
    ensures Dicts.HasKey(inputs, "question") && !Dicts.HasKey(inputs, "question_id") ==> r == Err(KeyError("question_id"))
  {
    var question :- Dicts.Index(inputs, "question");
    var id :- Dicts.Index(inputs, "question_id");
    var category :- Dicts.Index(inputs, "question_category");
    var solution :- Dicts.Index(groundTruth, "solution");
    Ok(Question(question, id, category, solution))
  }

  /** The three parts of a grading prompt: the question, the work judged, the ground truth. */
  datatype GradingPrompt = GradingPrompt(question: string, work: string, groundTruth: string)

  /** `ground_truths.get("solution", "N/A")` as the f-string renders it. */
  function GroundTruthText(groundTruths: Entries): (r: string)
    ensures !Dicts.HasKey(groundTruths, "solution") ==> r == "N/A"
  {
    PyStr(Dicts.GetOr(groundTruths, "solution", Str("N/A")))
  }

  /** A string solution is quoted as it is; a missing one as "N/A". */
  lemma GroundTruthRendering(groundTruths: Entries, solution: string)
    ensures Dicts.Lookup(groundTruths, "solution") == Some(Str(solution)) ==> GroundTruthText(groundTruths) == solution
    ensures !Dicts.HasKey(groundTruths, "solution") ==> GroundTruthText(groundTruths) == "N/A"
  {
  }

  /** The prompt of an evaluator: `{inputs}`, the judged text and the ground truth. */
  function PromptFor(inputs: Entries, work: string, groundTruths: Entries): GradingPrompt {
    GradingPrompt(PyStr(Dict(inputs)), work, GroundTruthText(groundTruths))
  }
}
