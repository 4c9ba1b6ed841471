/**
 * The pieces the two tool registries share: a tool's name and description, the search-result
 * formatting of the SerpAPI tools, and the guard in front of `eval` in the calculator tools.
 */
module SearchTools {
  import opened Wrappers
  import opened PyValue
  import Dicts
  import Text

  datatype Tool = Tool(name: string, description: string)

  /** The SerpAPI request: it raised (network, HTTP status, JSON decoding), or gave `organic_results`. */
  datatype SearchOutcome =
    | SearchFailed(error: string)
    | SearchOk(organicResults: seq<Entries>)   // `data.get("organic_results", [])`

  /** `f"• {title} – {snippet}\n  {link}"` with the defaults "No title", "" and "". */
  function ResultLine(res: Entries): (line: string)
    ensures Text.StartsWith(line, "• ")
  {
    "• " + PyStr(Dicts.GetOr(res, "title", Str("No title"))) + " – "
    + PyStr(Dicts.GetOr(res, "snippet", Str(""))) + "\n  " + PyStr(Dicts.GetOr(res, "link", Str("")))
  }

  /** The lines for each result, in order. */
  function ResultLines(results: seq<Entries>): (lines: seq<string>)
    ensures |lines| == |results|
  {
    if results == [] then [] else [ResultLine(results[0])] + ResultLines(results[1..])
  }

  /** `"\n".join(lines) or "No results found."`. */
  function ResultsBody(lines: seq<string>): string {
    var joined := Text.Join("\n", lines);
    if joined == "" then "No results found." else joined
  }

  /**
   * The formatting loop of the search tools: an error message on failure, else the header
   * followed by the lines of (at most) the first six results.
   */
  method FormatSearch(errorPrefix: string, header: string, outcome: SearchOutcome) returns (out: string)
    ensures outcome.SearchFailed? ==> out == errorPrefix + outcome.error
    ensures outcome.SearchOk? ==>
      out == header + ResultsBody(ResultLines(if |outcome.organicResults| <= 6 then outcome.organicResults else outcome.organicResults[..6]))
  {
    if outcome.SearchFailed? {
      return errorPrefix + outcome.error;
    }
    var shown := if |outcome.organicResults| <= 6 then outcome.organicResults else outcome.organicResults[..6];
    var lines: seq<string> := [];
    var i := 0;
    while i < |shown|
      invariant 0 <= i <= |shown| && |lines| == i
      invariant forall k :: 0 <= k < i ==> lines[k] == ResultLine(shown[k])
    {
      lines := lines + [ResultLine(shown[i])];
      i := i + 1;
    }
    ResultLinesEqual(shown, lines);
    out := header + ResultsBody(lines);
  }

  /** The lines are the results' lines, position by position. */
  lemma {:induction false} ResultLinesEqual(results: seq<Entries>, lines: seq<string>)
    requires |lines| == |results| && forall k :: 0 <= k < |results| ==> lines[k] == ResultLine(results[k])
    ensures lines == ResultLines(results)
  {
    if results != [] {
      ResultLinesEqual(results[1..], lines[1..]);
    }
  }

  /** "No results found." appears exactly when there is no result to show. */
  lemma {:induction false} ResultsBodyEmpty(results: seq<Entries>)
    ensures ResultsBody(ResultLines(results)) == "No results found." <==> results == []
  {
    var lines := ResultLines(results);
    if results != [] {
      JoinNonEmpty(lines);
      assert Text.StartsWith(lines[0], "• ");
      assert Text.Join("\n", lines)[0] == '•';
    }
  }

  lemma {:induction false} JoinNonEmpty(lines: seq<string>)
    requires lines != [] && |lines[0]| > 0
    ensures |Text.Join("\n", lines)| > 0 && Text.Join("\n", lines)[0] == lines[0][0]
  {
  }

  /** The guard in front of `eval`: shorter than 100 characters and no 'import', 'exec' or '__'. */
  predicate EvalAllowed(code: string) {
    |code| < 100 && !Text.Contains(code, "import") && !Text.Contains(code, "exec") && !Text.Contains(code, "__")
  }

  /** What `eval` did with an allowed expression: `str()` of its value, or the exception's message. */
  datatype EvalOutcome = Evaluated(text: string) | Raised(message: string)
}
