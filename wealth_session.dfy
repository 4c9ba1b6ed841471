/**
 * wealth-management-agent/main.py: `AdvisorySessionManager` and the bookkeeping of
 * `process_client_inquiry` after the orchestration has answered.
 */
module WealthSession {
  import opened Wrappers
  import Text
  import Dicts
  import Workflow
  import opened Sessions

  const AdvisoryStyle := ContextStyle("Previous advisory conversation:\n", "Client: ", "Advisor: ")

  const RetirementTerms: seq<string> := ["retirement", "pension", "401k"]
  const EsgTerms: seq<string> := ["esg", "sustainable", "impact"]
  const TaxTerms: seq<string> := ["tax", "tax-efficient"]
  const RiskTerms: seq<string> := ["risk", "conservative", "volatile"]

  /** `AdvisorySessionManager(session_id)`. */
  method NewSession(sessionId: string) returns (m: SessionManager)
    ensures fresh(m) && m.Valid() && m.style == AdvisoryStyle
    ensures m.sessionId == sessionId && m.conversationId == sessionId && m.maxContextTurns == 10
    ensures m.turns == [] && m.preferences == [] && m.taskOutcomes == [] && m.activeAgents == []
  {
    m := new SessionManager(sessionId, AdvisoryStyle);
  }

  /** The four keyword rules, applied in order to the lower-cased inquiry. */
  function Learn(prefs: Dicts.Dict<string>, q: string): Dicts.Dict<string> {
    var p1 := if AnyIn(RetirementTerms, q) then SetPreference(prefs, "interest", "retirement_planning") else prefs;
    var p2 := if AnyIn(EsgTerms, q) then SetPreference(p1, "interest", "esg_investing") else p1;
    var p3 := if AnyIn(TaxTerms, q) then SetPreference(p2, "interest", "tax_optimization") else p2;
    if AnyIn(RiskTerms, q) then SetPreference(p3, "risk_sensitivity", "high") else p3
  }

  /**
   * Later rules win: a tax term decides the interest over an ESG term, which decides it over a
   * retirement term; the risk terms set the risk sensitivity on their own; nothing else changes.
   */
  lemma LearnRules(prefs: Dicts.Dict<string>, q: string)
    ensures Dicts.Lookup(Learn(prefs, q), "interest") ==
      if AnyIn(TaxTerms, q) then Some("tax_optimization")
      else if AnyIn(EsgTerms, q) then Some("esg_investing")
      else if AnyIn(RetirementTerms, q) then Some("retirement_planning")
      else Dicts.Lookup(prefs, "interest")
    ensures Dicts.Lookup(Learn(prefs, q), "risk_sensitivity") ==
      if AnyIn(RiskTerms, q) then Some("high") else Dicts.Lookup(prefs, "risk_sensitivity")
    ensures forall k :: k != "interest" && k != "risk_sensitivity" ==>
      Dicts.Lookup(Learn(prefs, q), k) == Dicts.Lookup(prefs, k)
  {
  }

  /**
   * `process_client_inquiry` once `orchestrate_advisory_workflow` has returned `result` (or
   * raised): exactly one turn is added, then the keyword rules run on the lower-cased inquiry.
   * An exception from the orchestration leaves the session as it was.
   */
  method ProcessInquiry<K>(m: SessionManager, query: string, timestamp: string, result: Result<Workflow.WorkflowResult<K>>)
    returns (r: Result<Workflow.WorkflowResult<K>>)
    requires m.Valid()
    modifies m
    ensures m.Valid() && r == result
    ensures result.Err? ==> m.turns == old(m.turns) && m.log == old(m.log) && m.preferences == old(m.preferences)
    ensures result.Ok? ==>
      var t := TurnOf(timestamp, query, result.value);
      m.log == old(m.log) + [t] && m.turns == LastN(old(m.turns) + [t], 10) &&
      m.preferences == Learn(old(m.preferences), Text.Lower(query))
    ensures m.conversationId == old(m.conversationId) && m.taskOutcomes == old(m.taskOutcomes)
    ensures m.activeAgents == old(m.activeAgents)
  {
    var contextStr := m.GetRelevantContext(query);
    if result.Err? {
      return result;
    }
    var w := result.value;
    var t := TurnOf(timestamp, query, w);
    m.AddTurn(timestamp, query, w.response, t.metadata);
    var q := Text.Lower(query);
    if AnyIn(RetirementTerms, q) {
      m.UpdatePreferences([("interest", "retirement_planning")]);
    }
    if AnyIn(EsgTerms, q) {
      m.UpdatePreferences([("interest", "esg_investing")]);
    }
    if AnyIn(TaxTerms, q) {
      m.UpdatePreferences([("interest", "tax_optimization")]);
    }
    if AnyIn(RiskTerms, q) {
      m.UpdatePreferences([("risk_sensitivity", "high")]);
    }
    r := result;
  }
}
