/**
 * The specialised agent shared by both multi-agent cookbooks: a name, a role, a capability
 * map keyed by capability name, the registered tools it may use, and its capability score.
 */
module Agents {
  import Dicts

  /** A declared capability: its name and proficiency (the free-text description is not modelled). */
  datatype Capability = Capability(name: string, proficiency: real)

  datatype Agent = Agent(name: string, role: string, capabilities: map<string, Capability>, tools: seq<string>)

  /** No capability after position i has the same name as the one at i. */
  predicate LastNamed(caps: seq<Capability>, i: nat)
    requires i < |caps|
  {
    forall j :: i < j < |caps| ==> caps[j].name != caps[i].name
  }

  /** `{cap.name: cap for cap in capabilities}`: a later capability with the same name wins. */
  function CapabilityMap(caps: seq<Capability>): (m: map<string, Capability>)
    ensures m.Keys == set c | c in caps :: c.name
    ensures forall k :: k in m ==> m[k] in caps && m[k].name == k
    ensures |caps| > 0 ==> m[caps[|caps| - 1].name] == caps[|caps| - 1]
    ensures forall i :: 0 <= i < |caps| && LastNamed(caps, i) ==> m[caps[i].name] == caps[i]
  {
    if caps == [] then map[]
    else
      var init := caps[..|caps| - 1];
      var last := caps[|caps| - 1];
      assert caps == init + [last];
      var m0 := CapabilityMap(init);
      assert forall i :: 0 <= i < |caps| && LastNamed(caps, i) ==> m0[last.name := last][caps[i].name] == caps[i] by {
        forall i | 0 <= i < |caps| && LastNamed(caps, i)
          ensures m0[last.name := last][caps[i].name] == caps[i]
        {
          if i < |init| {
            assert init[i] == caps[i] && LastNamed(init, i);
          }
        }
      }
      m0[last.name := last]
  }

  /** `[t for t in tools if t in registered]`. */
  function FilterTools(tools: seq<string>, registered: set<string>): (r: seq<string>)
    ensures forall t :: t in r <==> t in tools && t in registered
    ensures |r| <= |tools|
    ensures (forall t :: t in tools ==> t in registered) ==> r == tools
  {
    if tools == [] then []
    else (if tools[0] in registered then [tools[0]] else []) + FilterTools(tools[1..], registered)
  }

  /** Filtering keeps the listed order: it distributes over concatenation. */
  lemma {:induction false} FilterToolsAppend(a: seq<string>, b: seq<string>, registered: set<string>)
    ensures FilterTools(a + b, registered) == FilterTools(a, registered) + FilterTools(b, registered)
  {
    if a == [] {
      assert a + b == b;
    } else {
      assert (a + b)[0] == a[0] && (a + b)[1..] == a[1..] + b;
      FilterToolsAppend(a[1..], b, registered);
    }
  }

  /** `BaseSpecializedAgent.__init__`. */
  function MakeAgent(name: string, role: string, caps: seq<Capability>, tools: seq<string>, registered: set<string>): (a: Agent)
    ensures a.name == name && a.role == role
    ensures a.capabilities.Keys == set c | c in caps :: c.name
    ensures forall t :: t in a.tools <==> t in tools && t in registered
    ensures (forall t :: t in tools ==> t in registered) ==> a.tools == tools
  {
    Agent(name, role, CapabilityMap(caps), FilterTools(tools, registered))
  }

  /** `{name: make(c) for name, c in registry.items()}`: one instance per registered class. */
  function Instances<C>(registry: seq<(string, C)>, make: C -> Agent): (pool: seq<(string, Agent)>)
    ensures |pool| == |registry|
    ensures forall i :: 0 <= i < |registry| ==> pool[i] == (registry[i].0, make(registry[i].1))
  {
    if registry == [] then [] else [(registry[0].0, make(registry[0].1))] + Instances(registry[1..], make)
  }

  /** The pool has the registry's keys, in the registry's order. */
  lemma InstancesKeys<C>(registry: seq<(string, C)>, make: C -> Agent)
    ensures Dicts.Keys(Instances(registry, make)) == Dicts.Keys(registry)
  {
    var pool := Instances(registry, make);
    assert forall i :: 0 <= i < |pool| ==> Dicts.Keys(pool)[i] == Dicts.Keys(registry)[i];
  }

  /** The sum of the proficiencies of the required names the agent has (each occurrence counted). */
  function MatchedTotal(caps: map<string, Capability>, required: seq<string>): real {
    if required == [] then 0.0
    else
      var last := required[|required| - 1];
      MatchedTotal(caps, required[..|required| - 1]) + (if last in caps then caps[last].proficiency else 0.0)
  }

  /** What `get_capability_score` computes: 0.5 for no requirement, else the mean matched proficiency. */
  function Score(caps: map<string, Capability>, required: seq<string>): real {
    if required == [] then 0.5 else MatchedTotal(caps, required) / (|required| as real)
  }

  /** `get_capability_score`: the accumulating loop. */
  method CapabilityScore(agent: Agent, required: seq<string>) returns (score: real)
    ensures score == Score(agent.capabilities, required)
  {
    if required == [] {
      return 0.5;
    }
    var total := 0.0;
    var i := 0;
    while i < |required|
      invariant 0 <= i <= |required|
      invariant total == MatchedTotal(agent.capabilities, required[..i])
    {
      assert required[..i + 1][..i] == required[..i];
      if required[i] in agent.capabilities {
        total := total + agent.capabilities[required[i]].proficiency;
      }
      i := i + 1;
    }
    assert required[..i] == required;
    score := total / (|required| as real);
  }

  predicate ProficienciesInUnit(caps: map<string, Capability>) {
    forall k :: k in caps ==> 0.0 <= caps[k].proficiency <= 1.0
  }

  /** Declared proficiencies in [0, 1] stay in [0, 1] once keyed by name. */
  lemma CapabilityMapInUnit(caps: seq<Capability>)
    requires forall i :: 0 <= i < |caps| ==> 0.0 <= caps[i].proficiency <= 1.0
    ensures ProficienciesInUnit(CapabilityMap(caps))
  {
  }

  lemma {:induction false} MatchedTotalBounds(caps: map<string, Capability>, required: seq<string>)
    requires ProficienciesInUnit(caps)
    ensures 0.0 <= MatchedTotal(caps, required) <= |required| as real
  {
    if required != [] {
      MatchedTotalBounds(caps, required[..|required| - 1]);
    }
  }

  /** With every proficiency in [0, 1], every score is in [0, 1]. */
  lemma ScoreInUnit(caps: map<string, Capability>, required: seq<string>)
    requires ProficienciesInUnit(caps)
    ensures 0.0 <= Score(caps, required) <= 1.0
  {
    MatchedTotalBounds(caps, required);
  }

  /** When every class makes proficiencies in [0, 1], every score of the pool is in [0, 1]. */
  lemma InstancesScoresInUnit<C>(registry: seq<(string, C)>, make: C -> Agent, required: seq<string>)
    requires forall c :: ProficienciesInUnit(make(c).capabilities)
    ensures forall i :: 0 <= i < |Instances(registry, make)| ==>
      0.0 <= Score(Instances(registry, make)[i].1.capabilities, required) <= 1.0
  {
    var pool := Instances(registry, make);
    forall i | 0 <= i < |pool| ensures 0.0 <= Score(pool[i].1.capabilities, required) <= 1.0 {
      assert pool[i].1 == make(registry[i].1);
      ScoreInUnit(pool[i].1.capabilities, required);
    }
  }

  lemma {:induction false} MatchedTotalNone(caps: map<string, Capability>, required: seq<string>)
    requires forall i :: 0 <= i < |required| ==> required[i] !in caps
    ensures MatchedTotal(caps, required) == 0.0
  {
    if required != [] {
      MatchedTotalNone(caps, required[..|required| - 1]);
    }
  }

  /** An agent that has none of the required names scores 0 (and 0.5 when nothing is required). */
  lemma ScoreNoMatch(caps: map<string, Capability>, required: seq<string>)
    requires forall i :: 0 <= i < |required| ==> required[i] !in caps
    ensures Score(caps, required) == if required == [] then 0.5 else 0.0
  {
    MatchedTotalNone(caps, required);
  }

  lemma {:induction false} MatchedTotalAll(caps: map<string, Capability>, required: seq<string>, p: real)
    requires forall i :: 0 <= i < |required| ==> required[i] in caps && caps[required[i]].proficiency == p
    ensures MatchedTotal(caps, required) == p * (|required| as real)
  {
    if required != [] {
      MatchedTotalAll(caps, required[..|required| - 1], p);
    }
  }

  /** When every required name has proficiency `p`, the score is `p`: the mean of equal terms. */
  lemma ScoreUniform(caps: map<string, Capability>, required: seq<string>, p: real)
    requires required != []
    requires forall i :: 0 <= i < |required| ==> required[i] in caps && caps[required[i]].proficiency == p
    ensures Score(caps, required) == p
  {
    MatchedTotalAll(caps, required, p);
  }
}
