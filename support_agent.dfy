/**
 * google-adk-cookbook/main.py: the two mock tools of the customer-support agents, the input
 * preprocessing, and how the reply is read off the agent runner's events. The runner is an
 * input: the events it yields for a message.
 */
module SupportAgent {
  import opened Wrappers
  import Text
  import Dicts
  import opened PyValue

  /** The record `lookup_billing` keeps for each query type, echoing the customer id. */
  function BillingRecords(customerId: string): Dicts.Dict<Entries> {
    [ ("balance", [
        ("customer_id", Str(customerId)),
        ("current_balance", Str("$1,247.50")),
        ("due_date", Str("2026-03-01")),
        ("status", Str("current"))]),
      ("charges", [
        ("customer_id", Str(customerId)),
        ("recent_charges", List([
          Dict([("date", Str("2026-02-01")), ("amount", Str("$99.00")), ("description", Str("Monthly subscription"))]),
          Dict([("date", Str("2026-02-05")), ("amount", Str("$24.50")), ("description", Str("API overage"))])]))]),
      ("refund_status", [
        ("customer_id", Str(customerId)),
        ("refund_id", Str("REF-2026-0142")),
        ("amount", Str("$24.50")),
        ("status", Str("processing")),
        ("estimated_completion", Str("2026-02-20"))]) ]
  }

  const BillingQueryTypes := ["balance", "charges", "refund_status"]

  /** `lookup_billing`: `records.get(query_type, ...)` with an error record naming the type. */
  function LookupBilling(customerId: string, queryType: string): Entries {
    Dicts.GetOr(BillingRecords(customerId), queryType, [("error", Str("Unknown query type: " + queryType))])
  }

  /**
   * A known query type gives its record, which echoes the customer id and carries no error;
   * any other type gives exactly the error record.
   */
  lemma {:induction false} BillingLookup(customerId: string, queryType: string)
    ensures var r := LookupBilling(customerId, queryType);
      (queryType in BillingQueryTypes ==>
        Dicts.Lookup(r, "customer_id") == Some(Str(customerId)) && !Dicts.HasKey(r, "error")) &&
      (queryType !in BillingQueryTypes ==> r == [("error", Str("Unknown query type: " + queryType))])
  {
    var records := BillingRecords(customerId);
    assert records[0].0 == "balance" && records[1].0 == "charges" && records[2].0 == "refund_status";
    assert records[1..][1..] == [records[2]];
    var r := LookupBilling(customerId, queryType);
    var k := if queryType == "balance" then 0 else if queryType == "charges" then 1 else 2;
    if queryType in BillingQueryTypes {
      if k == 0 {
        assert Dicts.Lookup(records, queryType) == Some(records[0].1);
      } else if k == 1 {
        assert Dicts.Lookup(records[1..], queryType) == Some(records[1].1);
        assert Dicts.Lookup(records, queryType) == Dicts.Lookup(records[1..], queryType);
      } else {
        assert Dicts.Lookup(records[1..][1..], queryType) == Some(records[2].1);
        assert Dicts.Lookup(records[1..], queryType) == Dicts.Lookup(records[1..][1..], queryType);
        assert Dicts.Lookup(records, queryType) == Dicts.Lookup(records[1..], queryType);
      }
      assert r == records[k].1;
      assert r[0] == ("customer_id", Str(customerId));
      assert forall i :: 0 <= i < |r| ==> r[i].0 != "error";
    } else {
      assert Dicts.Lookup(records[1..][1..], queryType) == None;
    }
  }

  function Article(title: string, solution: string, id: string): Entries {
    [("title", Str(title)), ("solution", Str(solution)), ("article_id", Str(id))]
  }

  /** The knowledge base of `search_knowledge_base`, keyword by keyword, in dictionary order. */
  const Solutions: seq<(string, Entries)> := [
    ("export", Article("Export Feature - Error 500",
      "Clear browser cache and retry. If the issue persists, check that your dataset is under 10,000 rows (the export limit for free plans).",
      "KB-1042")),
    ("api", Article("API Rate Limiting",
      "The default rate limit is 100 requests/minute. Enterprise plans support up to 1,000 req/min. Add exponential backoff to your client.",
      "KB-0891")),
    ("login", Article("Login / Authentication Issues",
      "Try resetting your password at /reset-password. If using SSO, confirm your identity provider is configured correctly in Settings > SSO.",
      "KB-0567"))]

  const GeneralTroubleshooting := Article("General Troubleshooting",
    "Please provide more details about your issue so we can help. You can also check docs.example.com for guides.",
    "KB-0001")

  /** The first entry at or after `from` whose keyword occurs in `text`. */
  function FirstKeyword(text: string, solutions: seq<(string, Entries)>, from: nat): (r: Option<nat>)
    requires from <= |solutions|
    ensures r.Some? ==> from <= r.value < |solutions| && Text.Contains(text, solutions[r.value].0)
    ensures forall j :: from <= j < |solutions| && (r.None? || j < r.value) ==> !Text.Contains(text, solutions[j].0)
    decreases |solutions| - from
  {
    if from == |solutions| then None
    else if Text.Contains(text, solutions[from].0) then Some(from)
    else FirstKeyword(text, solutions, from + 1)
  }

  /**
   * `search_knowledge_base`: the article of the first keyword, in the order export, api, login,
   * found in the lower-cased issue; the general article when none is.
   */
  method SearchKnowledgeBase(issue: string) returns (article: Entries)
    ensures match FirstKeyword(Text.Lower(issue), Solutions, 0)
      case Some(i) => article == Solutions[i].1
      case None => article == GeneralTroubleshooting
  {
    var issueLower := Text.Lower(issue);
    var i := 0;
    while i < |Solutions|
      invariant 0 <= i <= |Solutions|
      invariant FirstKeyword(issueLower, Solutions, 0) == FirstKeyword(issueLower, Solutions, i)
    {
      var (keyword, entry) := Solutions[i];
      if Text.Contains(issueLower, keyword) {
        return entry;
      }
      i := i + 1;
    }
    return GeneralTroubleshooting;
  }

  /** An issue naming both exports and logins gets the export article: the order decides. */
  lemma ExportBeforeLogin(issue: string)
    requires Text.Contains(Text.Lower(issue), "export")
    ensures FirstKeyword(Text.Lower(issue), Solutions, 0) == Some(0)
  {
  }

  const DetailsRequest := "Could you please provide more " + "details about your question?"

  /** `preprocess_query`: the stripped query, or a request for details when under 3 characters. */
  function PreprocessQuery(raw: string): (r: string)
    ensures |Text.Strip(raw)| < 3 ==> r == DetailsRequest
    ensures |Text.Strip(raw)| >= 3 ==> r == Text.Strip(raw)
  {
    var cleaned := Text.Strip(raw);
    if |cleaned| < 3 then DetailsRequest else cleaned
  }

  /** Preprocessing a preprocessed query changes nothing. */
  lemma PreprocessIdempotent(raw: string)
    ensures PreprocessQuery(PreprocessQuery(raw)) == PreprocessQuery(raw)
  {
    if |Text.Strip(raw)| < 3 {
      DetailsRequestStripped();
    } else {
      Text.StripIdempotent(raw);
    }
  }

  /** The request for details has no surrounding whitespace. */
  lemma DetailsRequestStripped()
    ensures Text.Strip(DetailsRequest) == DetailsRequest
  {
    var d := DetailsRequest;
    assert d[0] == 'C' && d[|d| - 1] == '?';
    Text.TrimLeftNoop(d);
    Text.TrimRightNoop(d);
  }

  /** An event of `runner.run_async`: whether it is the final response, and its parts' texts. */
  datatype AgentEvent = AgentEvent(isFinal: bool, parts: Option<seq<string>>)

  /** The text `handle_customer_query` keeps: the first part of the last final event with parts. */
  function ReplyText(events: seq<AgentEvent>): string
    decreases |events|
  {
    if events == [] then ""
    else
      var e := events[|events| - 1];
      if e.isFinal && e.parts.Some? && e.parts.value != [] then e.parts.value[0]
      else ReplyText(events[..|events| - 1])
  }

  /** The reply is the first part of the last final event that has parts. */
  lemma {:induction false} ReplyFromLastFinal(events: seq<AgentEvent>, k: nat)
    requires k < |events| && events[k].isFinal && events[k].parts.Some? && events[k].parts.value != []
    requires forall j :: k < j < |events| ==> !(events[j].isFinal && events[j].parts.Some? && events[j].parts.value != [])
    ensures ReplyText(events) == events[k].parts.value[0]
    decreases |events|
  {
    if k < |events| - 1 {
      var prefix := events[..|events| - 1];
      assert forall j :: k < j < |prefix| ==> prefix[j] == events[j];
      ReplyFromLastFinal(prefix, k);
    }
  }

  /** Without a final event that has parts, the reply is empty. */
  lemma {:induction false} NoFinalReply(events: seq<AgentEvent>)
    requires forall j :: 0 <= j < |events| ==> !(events[j].isFinal && events[j].parts.Some? && events[j].parts.value != [])
    ensures ReplyText(events) == ""
    decreases |events|
  {
    if events != [] {
      var prefix := events[..|events| - 1];
      assert forall j :: 0 <= j < |prefix| ==> prefix[j] == events[j];
      NoFinalReply(prefix);
    }
  }

  /** `handle_customer_query`: preprocess the query, run the agents, keep the last final text. */
  method HandleCustomerQuery(query: string, run: string -> seq<AgentEvent>) returns (responseText: string)
    ensures responseText == ReplyText(run(PreprocessQuery(query)))
  {
    var processed := PreprocessQuery(query);
    var events := run(processed);
    responseText := "";
    var i := 0;
    while i < |events|
      invariant 0 <= i <= |events|
      invariant responseText == ReplyText(events[..i])
    {
      assert events[..i + 1][..i] == events[..i];
      var e := events[i];
      if e.isFinal && e.parts.Some? && e.parts.value != [] {
        responseText := e.parts.value[0];
      }
      i := i + 1;
    }
    assert events[..i] == events;
  }
}
