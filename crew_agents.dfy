/** crewai-multi-agent-cookbook/agents.py: the six specialised agents and `AGENT_REGISTRY`. */
module CrewAgents {
  import Agents
  import Dicts
  import CrewRegistry

  /** The agent classes; each constructs one `BaseSpecializedAgent`. */
  datatype AgentClass =
    | ResearchSpecialistAgent
    | DataAnalystAgent
    | FinancialAdvisorAgent
    | TechnicalExpertAgent
    | CreativeWriterAgent
    | LegalAdvisorAgent

  const ResearchSpecialistCapabilities: seq<Agents.Capability> := [
      Agents.Capability("web_research", 0.95),
      Agents.Capability("fact_checking", 0.9),
      Agents.Capability("source_evaluation", 0.85),
      Agents.Capability("trend_analysis", 0.8)
    ]

  const DataAnalystCapabilities: seq<Agents.Capability> := [
      Agents.Capability("statistical_analysis", 0.9),
      Agents.Capability("data_visualization", 0.85),
      Agents.Capability("predictive_modeling", 0.8),
      Agents.Capability("database_operations", 0.95)
    ]

  const FinancialAdvisorCapabilities: seq<Agents.Capability> := [
      Agents.Capability("investment_analysis", 0.9),
      Agents.Capability("risk_assessment", 0.95),
      Agents.Capability("tax_planning", 0.8),
      Agents.Capability("market_analysis", 0.85)
    ]

  const TechnicalExpertCapabilities: seq<Agents.Capability> := [
      Agents.Capability("system_design", 0.9),
      Agents.Capability("code_review", 0.85),
      Agents.Capability("debugging", 0.9),
      Agents.Capability("performance_optimization", 0.8)
    ]

  const CreativeWriterCapabilities: seq<Agents.Capability> := [
      Agents.Capability("content_creation", 0.95),
      Agents.Capability("storytelling", 0.9),
      Agents.Capability("editing", 0.85),
      Agents.Capability("audience_analysis", 0.8)
    ]

  const LegalAdvisorCapabilities: seq<Agents.Capability> := [
      Agents.Capability("contract_review", 0.9),
      Agents.Capability("compliance_check", 0.95),
      Agents.Capability("risk_mitigation", 0.85),
      Agents.Capability("legal_research", 0.9)
    ]

  /** The list of tools each class asks for, before filtering by the tool registry. */
  function DeclaredTools(c: AgentClass): seq<string> {
    match c
    case ResearchSpecialistAgent => ["search_web", "document_retriever"]
    case DataAnalystAgent => ["database_query", "code_executor"]
    case FinancialAdvisorAgent => ["financial_analysis", "search_web", "code_executor"]
    case TechnicalExpertAgent => ["code_executor", "document_retriever"]
    case CreativeWriterAgent => ["search_web", "document_retriever"]
    case LegalAdvisorAgent => ["document_retriever", "search_web"]
  }

  /** The `name` each class passes to `BaseSpecializedAgent.__init__`. */
  function Name(c: AgentClass): string {
    match c
    case ResearchSpecialistAgent => "research_specialist"
    case DataAnalystAgent => "data_analyst"
    case FinancialAdvisorAgent => "financial_advisor"
    case TechnicalExpertAgent => "technical_expert"
    case CreativeWriterAgent => "creative_writer"
    case LegalAdvisorAgent => "legal_advisor"
  }

  /** The `role` each class passes to `BaseSpecializedAgent.__init__`. */
  function Role(c: AgentClass): string {
    match c
    case ResearchSpecialistAgent => "Senior Research Analyst"
    case DataAnalystAgent => "Senior Data Analyst"
    case FinancialAdvisorAgent => "Senior Financial Advisor"
    case TechnicalExpertAgent => "Senior Technical Architect"
    case CreativeWriterAgent => "Senior Content Strategist"
    case LegalAdvisorAgent => "Senior Legal Counsel"
  }

  /** The capabilities each class declares. */
  function Capabilities(c: AgentClass): seq<Agents.Capability> {
    match c
    case ResearchSpecialistAgent => ResearchSpecialistCapabilities
    case DataAnalystAgent => DataAnalystCapabilities
    case FinancialAdvisorAgent => FinancialAdvisorCapabilities
    case TechnicalExpertAgent => TechnicalExpertCapabilities
    case CreativeWriterAgent => CreativeWriterCapabilities
    case LegalAdvisorAgent => LegalAdvisorCapabilities
  }

  /** Every tool a class asks for is in the tool registry. */
  lemma DeclaredToolsRegistered(c: AgentClass)
    ensures forall t :: t in DeclaredTools(c) ==> t in CrewRegistry.RegisteredToolNames()
  {
  }

  /** `cls()`: the instance's name, and its tools kept whole because every one is registered. */
  function Instantiate(c: AgentClass): (a: Agents.Agent)
    ensures a.name == Name(c)
    ensures a.tools == DeclaredTools(c)
  {
    DeclaredToolsRegistered(c);
    Agents.MakeAgent(Name(c), Role(c), Capabilities(c), DeclaredTools(c), CrewRegistry.RegisteredToolNames())
  }

  /** `AGENT_REGISTRY`: agent name to class, in declaration order. */
  function AgentRegistry(): Dicts.Dict<AgentClass> {
    [
      ("research_specialist", ResearchSpecialistAgent),
      ("data_analyst", DataAnalystAgent),
      ("financial_advisor", FinancialAdvisorAgent),
      ("technical_expert", TechnicalExpertAgent),
      ("creative_writer", CreativeWriterAgent),
      ("legal_advisor", LegalAdvisorAgent)
    ]
  }

  /** The router's pool: `{name: cls() for name, cls in AGENT_REGISTRY.items()}`. */
  function AgentPool(): Dicts.Dict<Agents.Agent> {
    Agents.Instances(AgentRegistry(), Instantiate)
  }

  /** Every class declares its proficiencies in [0, 1]. */
  lemma InstanceInUnit(c: AgentClass)
    ensures Agents.ProficienciesInUnit(Instantiate(c).capabilities)
  {
    match c
    case ResearchSpecialistAgent => Agents.CapabilityMapInUnit(ResearchSpecialistCapabilities);
    case DataAnalystAgent => Agents.CapabilityMapInUnit(DataAnalystCapabilities);
    case FinancialAdvisorAgent => Agents.CapabilityMapInUnit(FinancialAdvisorCapabilities);
    case TechnicalExpertAgent => Agents.CapabilityMapInUnit(TechnicalExpertCapabilities);
    case CreativeWriterAgent => Agents.CapabilityMapInUnit(CreativeWriterCapabilities);
    case LegalAdvisorAgent => Agents.CapabilityMapInUnit(LegalAdvisorCapabilities);
  }

  /** Six classes under distinct names, each instance named by its key. */
  lemma RegistryConsistent()
    ensures Dicts.Keys(AgentRegistry()) == ["research_specialist", "data_analyst", "financial_advisor", "technical_expert", "creative_writer", "legal_advisor"]
    ensures forall i :: 0 <= i < |AgentRegistry()| ==> Name(AgentRegistry()[i].1) == AgentRegistry()[i].0
  {
    var r := AgentRegistry();
    forall i | 0 <= i < |r|
      ensures Name(r[i].1) == r[i].0
    {
      assert i == 0 || i == 1 || i == 2 || i == 3 || i == 4 || i == 5;
    }
  }

  /** The pool holds one agent per registry key, in the same order, each named by its key. */
  lemma PoolConsistent()
    ensures Dicts.Keys(AgentPool()) == Dicts.Keys(AgentRegistry())
    ensures forall i :: 0 <= i < |AgentPool()| ==> AgentPool()[i].1.name == AgentPool()[i].0
  {
    var r := AgentRegistry();
    var pool := Agents.Instances(r, Instantiate);
    Agents.InstancesKeys(r, Instantiate);
    RegistryConsistent();
    forall i | 0 <= i < |pool|
      ensures pool[i].1.name == pool[i].0
    {
      assert pool[i] == (r[i].0, Instantiate(r[i].1));
    }
  }
}
