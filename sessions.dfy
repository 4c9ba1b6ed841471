/**
 * The session managers of wealth-management-agent/main.py (`AdvisorySessionManager`) and
 * multi-agent-tracing-evals/main.py (`ConversationManager`): the two classes are the same but
 * for the wording of the context string, which `ContextStyle` carries.
 */
module Sessions {
  import opened Wrappers
  import Text
  import Dicts
  import Workflow
  import Batching

  /** The `metadata` dictionary `process_*` records with a turn. */
  datatype TurnMetadata = TurnMetadata(subtasks: nat, agentsUsed: set<string>, delegations: nat)

  /** A turn dictionary: `timestamp`, `user_input`, `response`, `metadata`. */
  datatype Turn = Turn(timestamp: string, userInput: string, response: string, metadata: TurnMetadata)

  /** The header and speaker labels of `get_relevant_context`. */
  datatype ContextStyle = ContextStyle(header: string, userLabel: string, assistantLabel: string)

  /** Python's `s[-n:]` for `n >= 1`: the last `n` elements, or all of them when there are fewer. */
  function LastN<T>(s: seq<T>, n: nat): (r: seq<T>)
    requires n > 0
    ensures |r| == if |s| <= n then |s| else n
    ensures s == s[..|s| - |r|] + r
  {
    if |s| <= n then s else s[|s| - n..]
  }

  /** Trimming to the last `n` before adding one more and trimming again is like trimming once. */
  lemma LastNAppend<T>(s: seq<T>, t: T, n: nat)
    requires n > 0
    ensures LastN(LastN(s, n) + [t], n) == LastN(s + [t], n)
  {
    var k := |s| - |LastN(s, n)|;
    assert LastN(s, n) + [t] == (s + [t])[k..];
  }

  /** Only the last `m` of the last `n >= m` elements matter for `s[-m:]`. */
  lemma LastNLastN<T>(s: seq<T>, n: nat, m: nat)
    requires 0 < m <= n
    ensures LastN(LastN(s, n), m) == LastN(s, m)
  {
  }

  /** One turn of the context string: its input and response cut to 100 characters. */
  function Block(style: ContextStyle, t: Turn): string {
    style.userLabel + Text.Take(t.userInput, 100) + "...\n"
    + style.assistantLabel + Text.Take(t.response, 100) + "...\n\n"
  }

  function Blocks(style: ContextStyle, ts: seq<Turn>): string
    decreases |ts|
  {
    if ts == [] then "" else Blocks(style, ts[..|ts| - 1]) + Block(style, ts[|ts| - 1])
  }

  /** `get_relevant_context`: "" with no turns, else the header and the last three turns. */
  function ContextSpec(style: ContextStyle, turns: seq<Turn>): string {
    if turns == [] then "" else style.header + Blocks(style, LastN(turns, 3))
  }

  /** Labels' length plus the two 100-character cuts and the fixed "...\n" and "...\n\n". */
  function BlockBound(style: ContextStyle): nat {
    |style.userLabel| + |style.assistantLabel| + 209
  }

  lemma {:induction false} BlocksLength(style: ContextStyle, ts: seq<Turn>)
    ensures |Blocks(style, ts)| <= |ts| * BlockBound(style)
    decreases |ts|
  {
    if ts != [] {
      var n := |ts| - 1;
      var b := BlockBound(style);
      BlocksLength(style, ts[..n]);
      BlockLength(style, ts[n]);
      assert |Blocks(style, ts)| == |Blocks(style, ts[..n])| + |Block(style, ts[n])|;
      Batching.MulSucc(n, b);
    }
  }

  lemma BlocksNext(style: ContextStyle, ts: seq<Turn>, i: nat)
    requires i < |ts|
    ensures Blocks(style, ts[..i + 1]) == Blocks(style, ts[..i]) + Block(style, ts[i])
  {
    assert ts[..i + 1][..i] == ts[..i];
  }

  /** The two `+=` of the loop body append one block. */
  lemma BlockAppend(before: string, style: ContextStyle, t: Turn)
    ensures before + style.userLabel + Text.Take(t.userInput, 100) + "...\n"
      + style.assistantLabel + Text.Take(t.response, 100) + "...\n\n" == before + Block(style, t)
  {
  }


  lemma BlockLength(style: ContextStyle, t: Turn)
    ensures |Block(style, t)| <= BlockBound(style)
  {
  }

  /** The context is empty exactly when there is no turn (the header is never empty). */
  lemma ContextEmpty(style: ContextStyle, turns: seq<Turn>)
    requires style.header != ""
    ensures ContextSpec(style, turns) == "" <==> turns == []
  {
  }

  /**
   * However long the history and its turns, the context string stays within the header and
   * three bounded blocks.
   */
  lemma ContextBounded(style: ContextStyle, turns: seq<Turn>)
    ensures |ContextSpec(style, turns)| <= |style.header| + 3 * BlockBound(style)
  {
    if turns != [] {
      BlocksLength(style, LastN(turns, 3));
    }
  }

  /** Turns older than the last three do not affect the context. */
  lemma ContextRecent(style: ContextStyle, older: seq<Turn>, recent: seq<Turn>)
    requires |recent| >= 3
    ensures ContextSpec(style, older + recent) == ContextSpec(style, recent)
  {
    assert LastN(older + recent, 3) == LastN(recent, 3);
  }

  /** With the last three turns listed in order, the context is the header and their blocks. */
  lemma ContextOfThree(style: ContextStyle, older: seq<Turn>, a: Turn, b: Turn, c: Turn)
    ensures ContextSpec(style, older + [a, b, c]) == style.header + Block(style, a) + Block(style, b) + Block(style, c)
  {
    var ts := [a, b, c];
    assert LastN(older + ts, 3) == ts;
    assert ts[..2] == [a, b] && [a, b][..1] == [a] && [a][..0] == [];
    assert Blocks(style, [a]) == Block(style, a);
    assert Blocks(style, [a, b]) == Block(style, a) + Block(style, b);
  }

  /** Keeping a window of at least three turns does not change the context string. */
  lemma ContextOfWindow(style: ContextStyle, log: seq<Turn>, n: nat)
    requires n >= 3
    ensures ContextSpec(style, LastN(log, n)) == ContextSpec(style, log)
  {
    LastNLastN(log, n, 3);
  }

  /** The turn `process_*` records for an orchestration result. */
  function TurnOf<K>(timestamp: string, query: string, w: Workflow.WorkflowResult<K>): (t: Turn)
    ensures t.userInput == query && t.response == w.response
    ensures t.metadata.subtasks == |w.decomposition.subtasks| && t.metadata.delegations == |w.history|
    ensures forall a :: a in t.metadata.agentsUsed <==> exists i :: 0 <= i < |w.results| && w.results[i].1.agent == a
  {
    Turn(timestamp, query, w.response,
      TurnMetadata(|w.decomposition.subtasks|, set i | 0 <= i < |w.results| :: w.results[i].1.agent, |w.history|))
  }

  /** Python's `any(term in s for term in terms)`. */
  predicate AnyIn(terms: seq<string>, s: string) {
    exists i :: 0 <= i < |terms| && Text.Contains(s, terms[i])
  }

  /** `update_preferences({key: value})`. */
  function SetPreference(prefs: Dicts.Dict<string>, key: string, value: string): (r: Dicts.Dict<string>)
    ensures Dicts.Lookup(r, key) == Some(value)
    ensures forall k :: k != key ==> Dicts.Lookup(r, k) == Dicts.Lookup(prefs, k)
  {
    assert Dicts.Update(prefs, [(key, value)]) == Dicts.Update(Dicts.Put(prefs, key, value), []) by {
      assert [(key, value)][1..] == [];
    }
    Dicts.Update(prefs, [(key, value)])
  }

  /**
   * The session's `ConversationContext` and its window. `log` is every turn ever added, so that
   * `Valid` can say what the window holds.
   */
  class SessionManager {
    const sessionId: string
    const style: ContextStyle
    const maxContextTurns: nat := 10
    var conversationId: string
    var turns: seq<Turn>
    var preferences: Dicts.Dict<string>
    var taskOutcomes: Dicts.Dict<string>
    var activeAgents: seq<string>
    ghost var log: seq<Turn>

    /** The window holds the newest ten turns ever added, in the order they were added. */
    ghost predicate Valid()
      reads this
    {
      turns == LastN(log, maxContextTurns)
    }

    constructor(sessionId: string, style: ContextStyle)
      ensures Valid()
      ensures this.sessionId == sessionId && this.style == style && conversationId == sessionId
      ensures turns == [] && preferences == [] && taskOutcomes == [] && activeAgents == [] && log == []
    {
      this.sessionId := sessionId;
      this.style := style;
      conversationId := sessionId;
      turns := [];
      preferences := [];
      taskOutcomes := [];
      activeAgents := [];
      log := [];
    }

    /** `add_turn`: append, then keep only the newest `max_context_turns`. */
    method AddTurn(timestamp: string, userInput: string, response: string, metadata: TurnMetadata)
      requires Valid()
      modifies this
      ensures Valid()
      ensures var t := Turn(timestamp, userInput, response, metadata);
        log == old(log) + [t] && turns == LastN(old(turns) + [t], maxContextTurns)
      ensures |turns| <= maxContextTurns && turns[|turns| - 1] == Turn(timestamp, userInput, response, metadata)
      ensures preferences == old(preferences) && conversationId == old(conversationId)
      ensures taskOutcomes == old(taskOutcomes) && activeAgents == old(activeAgents)
    {
      var t := Turn(timestamp, userInput, response, metadata);
      LastNAppend(log, t, maxContextTurns);
      turns := turns + [t];
      log := log + [t];
      if |turns| > maxContextTurns {
        turns := turns[|turns| - maxContextTurns..];
      }
    }

    /** `update_preferences`: `dict.update`, new values overriding old ones. */
    method UpdatePreferences(prefs: Dicts.Dict<string>)
      modifies this
      ensures preferences == Dicts.Update(old(preferences), prefs)
      ensures turns == old(turns) && log == old(log) && conversationId == old(conversationId)
      ensures taskOutcomes == old(taskOutcomes) && activeAgents == old(activeAgents)
    {
      preferences := Dicts.Update(preferences, prefs);
    }

    /** `get_relevant_context`; the query is not used. */
    method GetRelevantContext(query: string) returns (r: string)
      ensures r == ContextSpec(style, turns)
    {
      if turns == [] {
        return "";
      }
      var recent := LastN(turns, 3);
      r := style.header;
      var i := 0;
      while i < |recent|
        invariant 0 <= i <= |recent|
        invariant r == style.header + Blocks(style, recent[..i])
      {
        var before := r;
        var t := recent[i];
        r := r + style.userLabel + Text.Take(t.userInput, 100) + "...\n";
        r := r + style.assistantLabel + Text.Take(t.response, 100) + "...\n\n";
        BlockAppend(before, style, t);
        BlocksNext(style, recent, i);
        assert r == style.header + (Blocks(style, recent[..i]) + Block(style, t));
        i := i + 1;
      }
      assert recent[..i] == recent;
    }
  }
}
