/**
 * The orchestration agent: it holds a reference to the shared state, exposes four read-only
 * checks on it as tools, and answers with the name of the next agent. The answer itself
 * comes from the language model and is an input here.
 */
module Orchestration {
  import opened Wrappers
  import opened Conversation

  class OrchestrationAgent {
    /** The state dictionary the four checks read; `chat` may replace it. */
    var state: ConversationState

    constructor (state: ConversationState)
      ensures this.state == state
    {
      this.state := state;
    }

    /** `has_ticker`: a ticker has been recorded. */
    predicate HasTicker()
      reads this, state
      ensures HasTicker() <==> state.View().Get(TickerSlot) != None
    {
      state.ticker.Some?
    }

    /** `has_company_research`: a ticker and a company research result have both been recorded. */
    predicate HasCompanyResearch()
      reads this, state
      ensures HasCompanyResearch() <==> state.View().Get(TickerSlot) != None && state.View().Get(CompanySlot) != None
      ensures HasCompanyResearch() ==> HasTicker()
    {
      state.ticker.Some? && state.companyResearch.Some?
    }

    /** `has_industry_research`: an industry research result has been recorded. */
    predicate HasIndustryResearch()
      reads this, state
      ensures HasIndustryResearch() <==> state.View().Get(IndustrySlot) != None
    {
      state.industryResearch.Some?
    }

    /** `has_consumer_research`: a consumer research result has been recorded. */
    predicate HasConsumerResearch()
      reads this, state
      ensures HasConsumerResearch() <==> state.View().Get(ConsumerSlot) != None
    {
      state.consumerResearch.Some?
    }

    /** `chat(prompt, state=newState)`: adopts `newState` when one is passed and keeps the held state
        otherwise, then returns the model's `reply`. The prompt only reaches the model, so it is not
        a parameter here. */
    method Chat(newState: ConversationState?, reply: string) returns (response: string)
      modifies this
      ensures state == (if newState != null then newState else old(state))
      ensures response == reply
    {
      if newState != null {
        state := newState;
      }
      response := reply;
    }
  }
}
