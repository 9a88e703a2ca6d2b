/** The stock lookup agent's completion call. */
module StockAgents {
  import opened Wrappers
  import opened Conversation

  class StockAgent {
    /** The shared state dictionary this agent was built with. */
    const state: ConversationState

    constructor (state: ConversationState)
      ensures this.state == state
    {
      this.state := state;
    }

    /** The agent's `done(ticker)` tool: records `ticker` as the ticker, clears `current_agent` and
        sets `just_finished`; the other three result entries are untouched. */
    method Done(ticker: string)
      modifies state
      ensures state.View() == Complete(old(state.View()), TickerSlot, ticker)
    {
      state.ticker := Some(ticker);
      state.currentAgent := None;
      state.justFinished := true;
    }
  }
}
