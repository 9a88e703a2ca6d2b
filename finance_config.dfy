/** The closed set of agent names; each member stands for its string value. */
module FinanceConfig {
  import opened Wrappers

  datatype AgentName =
    | StockLookup
    | CompanyResearch
    | IndustryResearch
    | ConsumerResearch
    | Concierge
    | Orchestrator

  /** The member's string value, the token the orchestrator is asked to answer with. */
  function Value(n: AgentName): string
  {
    match n
    case StockLookup => "stock_lookup"
    case CompanyResearch => "company_research"
    case IndustryResearch => "industry_research"
    case ConsumerResearch => "consumer_research"
    case Concierge => "concierge"
    case Orchestrator => "orchestrator"
  }

  /** Every member, once each, in declaration order. */
  const Members: seq<AgentName> :=
    [StockLookup, CompanyResearch, IndustryResearch, ConsumerResearch, Concierge, Orchestrator]

  lemma MembersComplete(n: AgentName)
    ensures n in Members
  {
  }

  /** The six string values are pairwise distinct, so a value names one member only. */
  lemma ValuesDistinct(a: AgentName, b: AgentName)
    requires Value(a) == Value(b)
    ensures a == b
  {
  }

  /** The member whose value is exactly `s` (`AgentName(s)`), or None where the enum lookup would raise. */
  function FromValue(s: string): (r: Option<AgentName>)
    ensures r.Some? ==> Value(r.value) == s
    ensures r.None? ==> forall n: AgentName :: Value(n) != s
  {
    if s == "stock_lookup" then Some(StockLookup)
    else if s == "company_research" then Some(CompanyResearch)
    else if s == "industry_research" then Some(IndustryResearch)
    else if s == "consumer_research" then Some(ConsumerResearch)
    else if s == "concierge" then Some(Concierge)
    else if s == "orchestrator" then Some(Orchestrator)
    else None
  }

  lemma FromValueRoundTrip(n: AgentName)
    ensures FromValue(Value(n)) == Some(n)
  {
  }

  /** The members the driver hands a turn to: all but the orchestrator. */
  predicate Dispatchable(n: AgentName)
  {
    n != Orchestrator
  }

  /** The driver's dispatch chain: the dispatchable member whose value equals `speaker` exactly. */
  function DispatchTarget(speaker: string): (r: Option<AgentName>)
    ensures r.Some? ==> Dispatchable(r.value) && Value(r.value) == speaker
    ensures r.None? <==> forall n: AgentName :: Dispatchable(n) ==> Value(n) != speaker
  {
    if speaker == Value(StockLookup) then Some(StockLookup)
    else if speaker == Value(CompanyResearch) then Some(CompanyResearch)
    else if speaker == Value(IndustryResearch) then Some(IndustryResearch)
    else if speaker == Value(ConsumerResearch) then Some(ConsumerResearch)
    else if speaker == Value(Concierge) then Some(Concierge)
    else None
  }

  /** "orchestrator" names a member, yet the driver never dispatches to it. */
  lemma OrchestratorNotDispatched()
    ensures FromValue("orchestrator") == Some(Orchestrator)
    ensures DispatchTarget("orchestrator") == None
  {
  }
}
