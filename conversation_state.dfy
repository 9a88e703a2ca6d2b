/**
 * The six-entry state dictionary the driver shares with every agent it dispatches.
 * It is one mutable object; agents hold a reference to it and write into it.
 */
module Conversation {
  import opened Wrappers
  import opened FinanceConfig

  /** The four result entries, each written by one agent's completion call. */
  datatype Slot = TickerSlot | CompanySlot | IndustrySlot | ConsumerSlot

  /** The value of the dictionary at one moment. */
  datatype StateView = StateView(
    ticker: Option<string>,
    companyResearch: Option<string>,
    industryResearch: Option<string>,
    consumerResearch: Option<string>,
    currentAgent: Option<AgentName>,
    justFinished: bool)
  {
    function Get(slot: Slot): Option<string>
    {
      match slot
      case TickerSlot => ticker
      case CompanySlot => companyResearch
      case IndustrySlot => industryResearch
      case ConsumerSlot => consumerResearch
    }
  }

  /** `get_initial_state()`. */
  function Initial(): StateView
  {
    StateView(None, None, None, None, None, false)
  }

  /** The initial state holds no result, pins no agent and has not just finished. */
  lemma InitialIsEmpty(slot: Slot)
    ensures Initial().Get(slot) == None
    ensures Initial().currentAgent == None && !Initial().justFinished
  {
  }

  /** The entry an agent's completion call writes; the concierge and the orchestrator have none. */
  function SlotOf(n: AgentName): (r: Option<Slot>)
    ensures r.Some? <==> n in {StockLookup, CompanyResearch, IndustryResearch, ConsumerResearch}
  {
    match n
    case StockLookup => Some(TickerSlot)
    case CompanyResearch => Some(CompanySlot)
    case IndustryResearch => Some(IndustrySlot)
    case ConsumerResearch => Some(ConsumerSlot)
    case Concierge => None
    case Orchestrator => None
  }

  /** No two agents own the same entry. */
  lemma SlotOwnerUnique(a: AgentName, b: AgentName)
    requires SlotOf(a).Some? && SlotOf(a) == SlotOf(b)
    ensures a == b
  {
  }

  /** A completion call: it records `payload` in its own entry, releases the floor and raises
      `just_finished`; the other three result entries stay as they were. */
  function Complete(v: StateView, slot: Slot, payload: string): (r: StateView)
    ensures r.Get(slot) == Some(payload)
    ensures forall other: Slot :: other != slot ==> r.Get(other) == v.Get(other)
    ensures r.currentAgent == None && r.justFinished
  {
    match slot
    case TickerSlot => v.(ticker := Some(payload), currentAgent := None, justFinished := true)
    case CompanySlot => v.(companyResearch := Some(payload), currentAgent := None, justFinished := true)
    case IndustrySlot => v.(industryResearch := Some(payload), currentAgent := None, justFinished := true)
    case ConsumerSlot => v.(consumerResearch := Some(payload), currentAgent := None, justFinished := true)
  }

  /** Two views that agree on every entry are the same view. */
  lemma ViewExtensionality(v: StateView, w: StateView)
    requires forall slot: Slot :: v.Get(slot) == w.Get(slot)
    requires v.currentAgent == w.currentAgent && v.justFinished == w.justFinished
    ensures v == w
  {
    assert v.Get(TickerSlot) == w.Get(TickerSlot) && v.Get(CompanySlot) == w.Get(CompanySlot);
    assert v.Get(IndustrySlot) == w.Get(IndustrySlot) && v.Get(ConsumerSlot) == w.Get(ConsumerSlot);
  }

  /** Completing the same entry again keeps only the last payload: what a second `done` call in the
      same turn leaves is what a single call with its payload leaves. */
  lemma CompleteLastWins(v: StateView, slot: Slot, p: string, q: string)
    ensures Complete(Complete(v, slot, p), slot, q) == Complete(v, slot, q)
  {
    var twice, once := Complete(Complete(v, slot, p), slot, q), Complete(v, slot, q);
    ViewExtensionality(twice, once);
  }

  /** Completing twice with one payload is completing once. */
  lemma CompleteIdempotent(v: StateView, slot: Slot, payload: string)
    ensures Complete(Complete(v, slot, payload), slot, payload) == Complete(v, slot, payload)
  {
    CompleteLastWins(v, slot, payload, payload);
  }

  /** Completions of two different entries commute: neither overwrites the other's result. */
  lemma CompletionsCommute(v: StateView, s1: Slot, p1: string, s2: Slot, p2: string)
    requires s1 != s2
    ensures Complete(Complete(v, s1, p1), s2, p2) == Complete(Complete(v, s2, p2), s1, p1)
  {
    var a, b := Complete(Complete(v, s1, p1), s2, p2), Complete(Complete(v, s2, p2), s1, p1);
    forall slot: Slot ensures a.Get(slot) == b.Get(slot) {
    }
    ViewExtensionality(a, b);
  }

  /** The dictionary itself, updated in place by whoever holds a reference to it. */
  class ConversationState {
    var ticker: Option<string>
    var companyResearch: Option<string>
    var industryResearch: Option<string>
    var consumerResearch: Option<string>
    var currentAgent: Option<AgentName>
    var justFinished: bool

    function View(): StateView
      reads this
    {
      StateView(ticker, companyResearch, industryResearch, consumerResearch, currentAgent, justFinished)
    }

    /** A fresh dictionary as `get_initial_state()` builds it. */
    constructor ()
      ensures View() == Initial()
    {
      ticker, companyResearch, industryResearch, consumerResearch := None, None, None, None;
      currentAgent, justFinished := None, false;
    }

  }
}
