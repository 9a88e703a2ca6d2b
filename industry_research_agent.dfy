/** The industry research agent's completion call. */
module IndustryResearchAgents {
  import opened Wrappers
  import opened Conversation

  class IndustryResearchAgent {
    /** The shared state dictionary this agent was built with. */
    const state: ConversationState

    constructor (state: ConversationState)
      ensures this.state == state
    {
      this.state := state;
    }

    /** The agent's `done(researchResult)` tool: records `researchResult` as the industry research, clears `current_agent` and
        sets `just_finished`; the other three result entries are untouched. */
    method Done(researchResult: string)
      modifies state
      ensures state.View() == Complete(old(state.View()), IndustrySlot, researchResult)
    {
      state.industryResearch := Some(researchResult);
      state.currentAgent := None;
      state.justFinished := true;
    }
  }
}
