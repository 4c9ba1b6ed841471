/**
 * multi-agent-tracing-evals/main.py: `ConversationManager` and the bookkeeping of
 * `process_single_query` after the orchestration has answered.
 */
module TracingSession {
  import opened Wrappers
  import Text
  import Dicts
  import Workflow
  import opened Sessions

  const ConversationStyle := ContextStyle("Previous conversation:\n", "User: ", "Assistant: ")

  /** `ConversationManager(session_id)`. */
  method NewSession(sessionId: string) returns (m: SessionManager)
    ensures fresh(m) && m.Valid() && m.style == ConversationStyle
    ensures m.sessionId == sessionId && m.conversationId == sessionId && m.maxContextTurns == 10
    ensures m.turns == [] && m.preferences == [] && m.taskOutcomes == [] && m.activeAgents == []
  {
    m := new SessionManager(sessionId, ConversationStyle);
  }

  /** The two keyword rules, applied in order to the lower-cased query. */
  function Learn(prefs: Dicts.Dict<string>, q: string): Dicts.Dict<string> {
    var p1 := if Text.Contains(q, "financial") then SetPreference(prefs, "interest", "finance") else prefs;
    if Text.Contains(q, "technical") then SetPreference(p1, "interest", "technology") else p1
  }

  /** "technical" decides the interest over "financial"; no other preference changes. */
  lemma LearnRules(prefs: Dicts.Dict<string>, q: string)
    ensures Dicts.Lookup(Learn(prefs, q), "interest") ==
      if Text.Contains(q, "technical") then Some("technology")
      else if Text.Contains(q, "financial") then Some("finance")
      else Dicts.Lookup(prefs, "interest")
    ensures forall k :: k != "interest" ==> Dicts.Lookup(Learn(prefs, q), k) == Dicts.Lookup(prefs, k)
  {
  }

  /**
   * `process_single_query` once `orchestrate_multi_agent_workflow` has returned `result` (or
   * raised): exactly one turn is added, then the keyword rules run on the lower-cased query.
   */
  method ProcessQuery<K>(m: SessionManager, query: string, timestamp: string, result: Result<Workflow.WorkflowResult<K>>)
    returns (r: Result<Workflow.WorkflowResult<K>>)
    requires m.Valid()
    modifies m
    ensures m.Valid() && r == result
    ensures result.Err? ==> m.turns == old(m.turns) && m.log == old(m.log) && m.preferences == old(m.preferences)
    ensures result.Ok? ==>
      var t := TurnOf(timestamp, query, result.value);
      m.log == old(m.log) + [t] && m.turns == LastN(old(m.turns) + [t], 10) &&
      m.preferences == Learn(old(m.preferences), Text.Lower(query))
    ensures m.conversationId == old(m.conversationId) && m.taskOutcomes == old(m.taskOutcomes)
    ensures m.activeAgents == old(m.activeAgents)
  {
    var contextStr := m.GetRelevantContext(query);
    if result.Err? {
      return result;
    }
    var w := result.value;
    var t := TurnOf(timestamp, query, w);
    m.AddTurn(timestamp, query, w.response, t.metadata);
    if Text.Contains(Text.Lower(query), "financial") {
      m.UpdatePreferences([("interest", "finance")]);
    }
    if Text.Contains(Text.Lower(query), "technical") {
      m.UpdatePreferences([("interest", "technology")]);
    }
    r := result;
  }
}
