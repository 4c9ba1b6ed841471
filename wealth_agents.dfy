/** wealth-management-agent/agents.py: the six advisory specialists and `AGENT_REGISTRY`. */
module WealthAgents {
  import Agents
  import Dicts
  import WealthRegistry

  /** The agent classes; each constructs one `BaseSpecializedAgent`. */
  datatype AgentClass =
    | MarketIntelligenceAnalystAgent
    | QuantitativeAnalystAgent
    | WealthStrategistAgent
    | FintechSolutionsArchitectAgent
    | ClientCommunicationsSpecialistAgent
    | RegulatoryComplianceOfficerAgent

  const MarketIntelligenceAnalystCapabilities: seq<Agents.Capability> := [
      Agents.Capability("market_research", 0.95),
      Agents.Capability("economic_analysis", 0.9),
      Agents.Capability("sector_analysis", 0.85),
      Agents.Capability("competitor_intelligence", 0.8)
    ]

  const QuantitativeAnalystCapabilities: seq<Agents.Capability> := [
      Agents.Capability("portfolio_optimization", 0.95),
      Agents.Capability("risk_modeling", 0.9),
      Agents.Capability("performance_attribution", 0.9),
      Agents.Capability("stress_testing", 0.85)
    ]

  const WealthStrategistCapabilities: seq<Agents.Capability> := [
      Agents.Capability("asset_allocation", 0.95),
      Agents.Capability("retirement_planning", 0.9),
      Agents.Capability("tax_optimization", 0.85),
      Agents.Capability("estate_planning", 0.8)
    ]

  const FintechSolutionsArchitectCapabilities: seq<Agents.Capability> := [
      Agents.Capability("digital_onboarding", 0.9),
      Agents.Capability("api_integration", 0.9),
      Agents.Capability("platform_capabilities", 0.85),
      Agents.Capability("automation_design", 0.85)
    ]

  const ClientCommunicationsSpecialistCapabilities: seq<Agents.Capability> := [
      Agents.Capability("proposal_writing", 0.95),
      Agents.Capability("client_reporting", 0.9),
      Agents.Capability("personalized_content", 0.9),
      Agents.Capability("presentation_design", 0.85)
    ]

  const RegulatoryComplianceOfficerCapabilities: seq<Agents.Capability> := [
      Agents.Capability("suitability_review", 0.95),
      Agents.Capability("kyc_verification", 0.9),
      Agents.Capability("regulatory_research", 0.9),
      Agents.Capability("fiduciary_compliance", 0.85)
    ]

  /** The list of tools each class asks for, before filtering by the tool registry. */
  function DeclaredTools(c: AgentClass): seq<string> {
    match c
    case MarketIntelligenceAnalystAgent => ["market_data_search", "policy_document_retriever"]
    case QuantitativeAnalystAgent => ["client_portfolio_query", "portfolio_analytics", "financial_calculator"]
    case WealthStrategistAgent => ["portfolio_analytics", "market_data_search", "financial_calculator"]
    case FintechSolutionsArchitectAgent => ["financial_calculator", "policy_document_retriever"]
    case ClientCommunicationsSpecialistAgent => ["market_data_search", "policy_document_retriever"]
    case RegulatoryComplianceOfficerAgent => ["policy_document_retriever", "market_data_search"]
  }

  /** The `name` each class passes to `BaseSpecializedAgent.__init__`. */
  function Name(c: AgentClass): string {
    match c
    case MarketIntelligenceAnalystAgent => "market_intelligence_analyst"
    case QuantitativeAnalystAgent => "quantitative_analyst"
    case WealthStrategistAgent => "wealth_strategist"
    case FintechSolutionsArchitectAgent => "fintech_solutions_architect"
    case ClientCommunicationsSpecialistAgent => "client_communications_specialist"
    case RegulatoryComplianceOfficerAgent => "regulatory_compliance_officer"
  }

  /** The `role` each class passes to `BaseSpecializedAgent.__init__`. */
  function Role(c: AgentClass): string {
    match c
    case MarketIntelligenceAnalystAgent => "Senior Market Intelligence Analyst"
    case QuantitativeAnalystAgent => "Senior Quantitative Analyst"
    case WealthStrategistAgent => "Senior Wealth Strategist"
    case FintechSolutionsArchitectAgent => "Senior FinTech Solutions Architect"
    case ClientCommunicationsSpecialistAgent => "Senior Client Communications Specialist"
    case RegulatoryComplianceOfficerAgent => "Senior Regulatory Compliance Officer"
  }

  /** The capabilities each class declares. */
  function Capabilities(c: AgentClass): seq<Agents.Capability> {
    match c
    case MarketIntelligenceAnalystAgent => MarketIntelligenceAnalystCapabilities
    case QuantitativeAnalystAgent => QuantitativeAnalystCapabilities
    case WealthStrategistAgent => WealthStrategistCapabilities
    case FintechSolutionsArchitectAgent => FintechSolutionsArchitectCapabilities
    case ClientCommunicationsSpecialistAgent => ClientCommunicationsSpecialistCapabilities
    case RegulatoryComplianceOfficerAgent => RegulatoryComplianceOfficerCapabilities
  }

  /** Every tool a class asks for is in the tool registry. */
  lemma DeclaredToolsRegistered(c: AgentClass)
    ensures forall t :: t in DeclaredTools(c) ==> t in WealthRegistry.RegisteredToolNames()
  {
  }

  /** `cls()`: the instance's name, and its tools kept whole because every one is registered. */
  function Instantiate(c: AgentClass): (a: Agents.Agent)
    ensures a.name == Name(c)
    ensures a.tools == DeclaredTools(c)
  {
    DeclaredToolsRegistered(c);
    Agents.MakeAgent(Name(c), Role(c), Capabilities(c), DeclaredTools(c), WealthRegistry.RegisteredToolNames())
  }

  /** `AGENT_REGISTRY`: agent name to class, in declaration order. */
  function AgentRegistry(): Dicts.Dict<AgentClass> {
    [
      ("market_intelligence_analyst", MarketIntelligenceAnalystAgent),
      ("quantitative_analyst", QuantitativeAnalystAgent),
      ("wealth_strategist", WealthStrategistAgent),
      ("fintech_solutions_architect", FintechSolutionsArchitectAgent),
      ("client_communications_specialist", ClientCommunicationsSpecialistAgent),
      ("regulatory_compliance_officer", RegulatoryComplianceOfficerAgent)
    ]
  }

  /** The router's pool: `{name: cls() for name, cls in AGENT_REGISTRY.items()}`. */
  function AgentPool(): Dicts.Dict<Agents.Agent> {
    Agents.Instances(AgentRegistry(), Instantiate)
  }

  /** Every class declares its proficiencies in [0, 1]. */
  lemma InstanceInUnit(c: AgentClass)
    ensures Agents.ProficienciesInUnit(Instantiate(c).capabilities)
  {
    match c
    case MarketIntelligenceAnalystAgent => Agents.CapabilityMapInUnit(MarketIntelligenceAnalystCapabilities);
    case QuantitativeAnalystAgent => Agents.CapabilityMapInUnit(QuantitativeAnalystCapabilities);
    case WealthStrategistAgent => Agents.CapabilityMapInUnit(WealthStrategistCapabilities);
    case FintechSolutionsArchitectAgent => Agents.CapabilityMapInUnit(FintechSolutionsArchitectCapabilities);
    case ClientCommunicationsSpecialistAgent => Agents.CapabilityMapInUnit(ClientCommunicationsSpecialistCapabilities);
    case RegulatoryComplianceOfficerAgent => Agents.CapabilityMapInUnit(RegulatoryComplianceOfficerCapabilities);
  }

  /** Six classes under distinct names, each instance named by its key. */
  lemma RegistryConsistent()
    ensures Dicts.Keys(AgentRegistry()) == ["market_intelligence_analyst", "quantitative_analyst", "wealth_strategist", "fintech_solutions_architect", "client_communications_specialist", "regulatory_compliance_officer"]
    ensures forall i :: 0 <= i < |AgentRegistry()| ==> Name(AgentRegistry()[i].1) == AgentRegistry()[i].0
  {
    var r := AgentRegistry();
    forall i | 0 <= i < |r|
      ensures Name(r[i].1) == r[i].0
    {
      assert i == 0 || i == 1 || i == 2 || i == 3 || i == 4 || i == 5;
    }
  }

  /** The pool holds one agent per registry key, in the same order, each named by its key. */
  lemma PoolConsistent()
    ensures Dicts.Keys(AgentPool()) == Dicts.Keys(AgentRegistry())
    ensures forall i :: 0 <= i < |AgentPool()| ==> AgentPool()[i].1.name == AgentPool()[i].0
  {
    var r := AgentRegistry();
    var pool := Agents.Instances(r, Instantiate);
    Agents.InstancesKeys(r, Instantiate);
    RegistryConsistent();
    forall i | 0 <= i < |pool|
      ensures pool[i].1.name == pool[i].0
    {
      assert pool[i] == (r[i].0, Instantiate(r[i].1));
    }
  }
}
