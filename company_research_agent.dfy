/** The company research agent's completion call. */
module CompanyResearchAgents {
  import opened Wrappers
  import opened Conversation

  class CompanyResearchAgent {
    /** The shared state dictionary this agent was built with. */
    const state: ConversationState

    constructor (state: ConversationState)
      ensures this.state == state
    {
      this.state := state;
    }

    /** The agent's `done(researchResult)` tool: records `researchResult` as the company research, clears `current_agent` and
        sets `just_finished`; the other three result entries are untouched. */
    method Done(researchResult: string)
      modifies state
      ensures state.View() == Complete(old(state.View()), CompanySlot, researchResult)
    {
      state.companyResearch := Some(researchResult);
      state.currentAgent := None;
      state.justFinished := true;
    }
  }
}
