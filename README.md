# Finance research concierge — a Dafny model of its deterministic core

The finance research concierge is a multi-agent chat application. A driver loop asks an
orchestration agent which specialist should speak next:
- a stock lookup agent,
- three research agents (company, industry, consumer),
- a concierge.

The agents share one mutable state dictionary. A research agent signals that it has finished by
calling its `done` tool, which writes its result into the dictionary, releases the floor and raises
`just_finished`. A set of finance tools turns provider JSON into the records the agents see.

Every language-model reply, every HTTP response and every line the user types is an input to
this model. With those fixed, two pieces are deterministic, and those are what is modelled.

**The conversation driver and its shared state** (`finance_research.dfy`, `conversation_state.dfy`,
`orchestrator_agent.dfy`, the four agent files, `finance_config.dfy`).
- `Conversation.ConversationState` is the state dictionary as a class with six fields. `View()`
  gives its value as a `StateView`.
- Each agent class holds a reference to the dictionary. Its `Done` method writes exactly three
  fields.
- `OrchestrationAgent` reads the dictionary through four `Has*` predicates. Its `Chat` method swaps
  in the state it is handed.
- `FinanceResearch.Driver` holds the loop variables `first_run`, `is_retry` and `num_tries`, plus
  the current dictionary. Its `Step` method runs one loop iteration on the heap: it allocates a
  fresh dictionary when the user starts over, creates the dispatched agent and calls its `Done`.
  `Step` is proved against the value-level function `Next`.
- One `Oracle` value carries one iteration's outside inputs: the orchestrator's reply, the quality
  evaluator's reply, the user's line, and whether the dispatched agent calls `done` (and with what). One payload suffices even when an agent calls `done` several times in a turn, because only the last call's payload survives (`CompleteLastWins`).
- The step lemmas state what one iteration does:
  - the fixed precedence of message sources;
  - the counter;
  - the reset on fresh input;
  - the evaluator verdict;
  - turn affinity;
  - dispatch, retry and persistence of results.
- `Run` iterates `Step` over a finite script and is proved against `RunView`. It stops after the first turn dispatched to the concierge, because line 183 then raises (see Findings); `IntendedRunView` is the loop that goes on.

**The response shaping of the finance tools** (`finance_tools.dfy`, with `dates.dfy`, `text.dfy`, `json.dfy`).
- Symbol search: the error rules and the first-match projection.
- Historical prices: the inclusive date filter, the collecting loop and the ascending sort. The
  model proves that string order and chronological order agree for `YYYY-MM-DD` dates.
- Sentiment analysis: the three-way bucket count.
- Company leadership: the keyed defaults.

Python's string operations are written out in `text.dfy`:
- `str.strip()`, with the full `str.isspace` character set;
- the substring test `in`;
- code-point string comparison.

Where the code is read differently from the behaviour one might expect, the model follows the code:
- **The routing retry has no cap.** `num_tries` only gates the evaluator (line 112 of
  `atlas/multiagents/finance_research.py`). A pending retry is served before the counter is looked
  at, so an orchestrator that never names an agent is retried forever. `RetryHasNoCap` shows it
  for any number of iterations.
- **An evaluator reply without "no_further_task" keeps `just_finished` raised.** The driver keeps
  consulting the evaluator after each completion until the counter reaches 5 (`EvaluatorVerdict`,
  `EvaluationOnlyBelowLimit`).
- **A concierge turn ends the program.** The concierge agent has no `memory` attribute, which line 183 reads after every dispatch (`ConciergeEndsRun`, `ConciergeCrashExample`).
- **Fresh user input always starts a new, empty state**, which drops any pinned agent
  (`FreshInputResets`). So the agent that was talking is not asked again; the orchestrator is.

## Model

| member | source | states |
|---|---|---|
| FinanceConfig.MembersComplete | atlas/multiagents/finance_config.py:3-9 | every agent name is one of the six listed members |
| FinanceConfig.Value | atlas/multiagents/finance_config.py:4-9 | definition: the string value of each member; its properties are `ValuesDistinct`, `FromValueRoundTrip` and `DispatchTarget` |
| FinanceConfig.ValuesDistinct | atlas/multiagents/finance_config.py:4-9 | two members with the same string value are the same member, so the six values are pairwise distinct |
| FinanceConfig.FromValue | atlas/multiagents/finance_config.py:3-9 | a string names a member only if it equals that member's value exactly; when it names none, no member has that value |
| FinanceConfig.FromValueRoundTrip | atlas/multiagents/finance_config.py:3-9 | looking up a member's value gives back that member |
| FinanceConfig.DispatchTarget | atlas/multiagents/finance_research.py:150-173 | the dispatch chain returns a dispatchable member (never the orchestrator) whose value equals the speaker; it returns none exactly when no dispatchable member has that value |
| FinanceConfig.Dispatchable | atlas/multiagents/finance_research.py:150-169 | definition: the five members the dispatch chain can select, every member but the orchestrator; its properties are `DispatchTarget` and `OrchestratorNotDispatched` |
| FinanceConfig.OrchestratorNotDispatched | atlas/multiagents/finance_config.py:9 | "orchestrator" names a member, yet the dispatch chain matches nothing for it |
| Conversation.InitialIsEmpty | atlas/multiagents/finance_research.py:83-91 | the initial state has no ticker and no research result, pins no agent and has `just_finished` false |
| Conversation.Initial | atlas/multiagents/finance_research.py:83-91 | definition of `get_initial_state()`; its property is `InitialIsEmpty` |
| Conversation.ConversationState.constructor | atlas/multiagents/finance_research.py:83-91 | a new dictionary holds the initial state |
| Conversation.SlotOf | atlas/agents/finance/stock_agent.py:35-40 | exactly the stock and the three research agents own a result entry; the concierge and the orchestrator own none |
| Conversation.SlotOwnerUnique | atlas/agents/finance/stock_agent.py:38 | no two agents write the same result entry |
| Conversation.Complete | atlas/agents/finance/stock_agent.py:35-40 | a completion records its payload in its own entry, clears `current_agent` and raises `just_finished`; the other three result entries are unchanged |
| Conversation.CompleteLastWins | atlas/agents/finance/stock_agent.py:38-40 | a second completion of the same entry leaves exactly what a single completion with the second payload leaves, so several `done` calls in one turn amount to the last one |
| Conversation.CompleteIdempotent | atlas/agents/finance/stock_agent.py:38-40 | completing twice with the same payload gives the same state as completing once |
| Conversation.CompletionsCommute | atlas/agents/finance/company_research_agent.py:63-65 | completions of two different entries commute, so neither overwrites the other's result |
| StockAgents.StockAgent.Done | atlas/agents/finance/stock_agent.py:35-40 | the ticker becomes the argument, `current_agent` is cleared, `just_finished` is raised, and nothing else in the shared dictionary changes |
| CompanyResearchAgents.CompanyResearchAgent.Done | atlas/agents/finance/company_research_agent.py:60-65 | the company research entry becomes the argument, `current_agent` is cleared, `just_finished` is raised, and nothing else changes |
| IndustryResearchAgents.IndustryResearchAgent.Done | atlas/agents/finance/industry_research_agent.py:34-39 | the industry research entry becomes the argument, `current_agent` is cleared, `just_finished` is raised, and nothing else changes |
| ConsumerResearchAgents.ConsumerResearchAgent.Done | atlas/agents/finance/consumer_research_agent.py:34-39 | the consumer research entry becomes the argument, `current_agent` is cleared, `just_finished` is raised, and nothing else changes |
| StockAgents.StockAgent.constructor | atlas/agents/finance/stock_agent.py:29-30 | the new agent holds the very dictionary it is given, so its `done` writes the shared state |
| CompanyResearchAgents.CompanyResearchAgent.constructor | atlas/agents/finance/company_research_agent.py:26-27 | the new agent holds the very dictionary it is given |
| IndustryResearchAgents.IndustryResearchAgent.constructor | atlas/agents/finance/industry_research_agent.py:26-27 | the new agent holds the very dictionary it is given |
| ConsumerResearchAgents.ConsumerResearchAgent.constructor | atlas/agents/finance/consumer_research_agent.py:26-27 | the new agent holds the very dictionary it is given |
| Orchestration.OrchestrationAgent.constructor | atlas/multiagents/orchestrator_agent.py:69-70 | the new orchestrator holds the very dictionary it is given, which its four `has_*` checks then read |
| Orchestration.OrchestrationAgent.HasTicker | atlas/multiagents/orchestrator_agent.py:99-103 | true iff a ticker is recorded; reads the state and changes nothing |
| Orchestration.OrchestrationAgent.HasCompanyResearch | atlas/multiagents/orchestrator_agent.py:105-110 | true iff both a ticker and a company research result are recorded, so it implies `HasTicker` |
| Orchestration.OrchestrationAgent.HasIndustryResearch | atlas/multiagents/orchestrator_agent.py:112-116 | true iff an industry research result is recorded |
| Orchestration.OrchestrationAgent.HasConsumerResearch | atlas/multiagents/orchestrator_agent.py:118-122 | true iff a consumer research result is recorded |
| Orchestration.OrchestrationAgent.Chat | atlas/multiagents/orchestrator_agent.py:124-127 | the held state becomes the passed state when one is passed and stays the old one otherwise; the reply is the model's answer |
| FinanceResearch.SelectMessage | atlas/multiagents/finance_research.py:104-130 | definition of message selection; its properties are `SourcePrecedence`, `CounterAdvances`, `EvaluationOnlyBelowLimit`, `FreshInputResets`, `EvaluatorVerdict`, `PinSurvivesSelection` and `SelectionKeepsResults` |
| FinanceResearch.Route | atlas/multiagents/finance_research.py:135-146 | definition of the choice of speaker; its properties are `TurnAffinity` and `FreshInputResets` |
| FinanceResearch.Dispatch | atlas/multiagents/finance_research.py:150-179 | definition of the dispatch chain; its properties are `DispatchResults`, `DispatchMatched` and `InvalidSpeakerRetries` |
| FinanceResearch.Next | atlas/multiagents/finance_research.py:103-179 | definition of one iteration; its properties are `NextPreservesInv`, `DispatchEffect`, `ResultsPersist` and `RetryRepeats` |
| FinanceResearch.Start | atlas/multiagents/finance_research.py:94-101 | definition of the view before the loop: the initial state, `first_run` true, `is_retry` false, the counter 0; its properties are `StartSatisfiesInv`, `FirstStepGreets` and `Driver.constructor` |
| FinanceResearch.EndsRun | atlas/multiagents/finance_research.py:166-169 | definition: an iteration ends `run` exactly when it dispatches to the concierge, since line 183 then raises `AttributeError`; its property is `ConciergeEndsRun` |
| FinanceResearch.RunView | atlas/multiagents/finance_research.py:103-184 | definition of the loop as written over a finite script: it stops after the first concierge turn; its properties are `RunPreservesInv`, `ConciergeEndsRun`, `RunAgreesWithIntended` and `RetryHasNoCap` |
| FinanceResearch.IntendedRunView | atlas/multiagents/finance_research.py:103-184 | definition of the loop as evidently intended, where a concierge turn is followed by the next iteration; its properties are `IntendedRunComposes` and `RunAgreesWithIntended` |
| FinanceResearch.StartSatisfiesInv | atlas/multiagents/finance_research.py:94-101 | the view before the first iteration is reachable: nothing done, nothing pinned |
| FinanceResearch.NextPreservesInv | atlas/multiagents/finance_research.py:103-173 | after every iteration the orchestrator is not pinned, and a pending retry only occurs with nobody pinned |
| FinanceResearch.RunPreservesInv | atlas/multiagents/finance_research.py:103-184 | the invariant holds at the end of any run, one that stops at a concierge turn included |
| FinanceResearch.FirstStepGreets | atlas/multiagents/finance_research.py:105-108 | whatever the inputs, the first iteration routes "Hello" and clears `first_run` |
| FinanceResearch.SourcePrecedence | atlas/multiagents/finance_research.py:104-130 | the message source is, in this order: greeting on the first run, the corrective retry text, the evaluator when `just_finished` holds and the incremented counter is below 5, and otherwise fresh user input; the first two branches clear their flag |
| FinanceResearch.CounterAdvances | atlas/multiagents/finance_research.py:104-130 | the counter grows by one per iteration, except that it becomes 0 exactly on fresh input or on an evaluator verdict containing "no_further_task" |
| FinanceResearch.EvaluationOnlyBelowLimit | atlas/multiagents/finance_research.py:112 | the evaluator is consulted only after a completion and only while the incremented counter is below 5 |
| FinanceResearch.FreshInputResets | atlas/multiagents/finance_research.py:124-146 | fresh input replaces the state with the initial one and sets the counter to 0; the message is the stripped user line, and the orchestrator is always asked |
| FinanceResearch.EvaluatorVerdict | atlas/multiagents/finance_research.py:112-123 | a stripped verdict containing "no_further_task" reads the next user line, clears `just_finished` and the counter, and keeps every other field; any other verdict becomes the message and leaves the state, `just_finished` included, as it was |
| FinanceResearch.TurnAffinity | atlas/multiagents/finance_research.py:135-137 | a pinned agent is the next speaker and is dispatched; the orchestrator is not consulted |
| FinanceResearch.PinSurvivesSelection | atlas/multiagents/finance_research.py:104-123 | message selection keeps the pinned agent unless it reads fresh input |
| FinanceResearch.DispatchResults | atlas/multiagents/finance_research.py:150-173 | dispatch changes a result entry only when the dispatched agent owns it and calls `done`, and then to the `done` payload |
| FinanceResearch.DispatchMatched | atlas/multiagents/finance_research.py:150-169 | a matched speaker names a non-orchestrator agent, which is pinned; if it owns an entry and calls `done`, the pin is released and `just_finished` is raised; the loop variables are untouched |
| FinanceResearch.DispatchEffect | atlas/multiagents/finance_research.py:150-179 | the same for a whole iteration, relative to the state message selection left: every field of the new state is given |
| FinanceResearch.InvalidSpeakerRetries | atlas/multiagents/finance_research.py:170-173 | when nobody is dispatched, the speaker matches no dispatchable value (so "orchestrator" is included), the orchestrator was consulted, and the only change beyond message selection is raising `is_retry` |
| FinanceResearch.SelectionKeepsResults | atlas/multiagents/finance_research.py:104-123 | message selection other than fresh input leaves every result entry unchanged |
| FinanceResearch.ResultsPersist | atlas/multiagents/finance_research.py:104-179 | within one conversation a recorded result is never lost, and an entry changes only when its owner is dispatched |
| FinanceResearch.RetryRepeats | atlas/multiagents/finance_research.py:109-111 | a retry iteration whose reply names no agent consults the orchestrator, dispatches nobody, and changes only the counter |
| FinanceResearch.RetryHasNoCap | atlas/multiagents/finance_research.py:109-173 | for every k, k such iterations leave the view as it was with the counter k higher and do not crash; no bound stops the retries |
| FinanceResearch.ConciergeEndsRun | atlas/multiagents/finance_research.py:166-183 | once an iteration dispatches to the concierge, the run as written ends with that iteration's state and reports the crash, whatever inputs follow |
| FinanceResearch.RunAgreesWithIntended | atlas/multiagents/finance_research.py:103-184 | a run that does not crash ends exactly where the intended run ends, and a run that crashes ends where the intended run is after some non-empty prefix of the script |
| FinanceResearch.IntendedRunComposes | atlas/multiagents/finance_research.py:103-184 | the intended run of two scripts one after the other is the intended run of the second from where the first ends |
| FinanceResearch.ConciergeCrashExample | atlas/multiagents/finance_research.py:166-183 | with the orchestrator answering "concierge" (its default, line 54 of `atlas/multiagents/orchestrator_agent.py`), the run as written dies after the greeting with the counter at 1, while the intended run reads the next user line and resets the counter to 0 |
| FinanceResearch.Driver.constructor | atlas/multiagents/finance_research.py:93-101 | a fresh dictionary shared with a fresh orchestrator, with `first_run` true, `is_retry` false and the counter 0 |
| FinanceResearch.Driver.SelectStep | atlas/multiagents/finance_research.py:104-130 | the loop variables and dictionary become those message selection prescribes; the dictionary object is new exactly on fresh input |
| FinanceResearch.Driver.RouteStep | atlas/multiagents/finance_research.py:135-146 | the speaker is the pinned agent's name or the stripped orchestrator reply; when the orchestrator is asked, it is handed the live dictionary |
| FinanceResearch.Driver.DispatchStep | atlas/multiagents/finance_research.py:150-179 | the heap state becomes what `Dispatch` prescribes, calling the agent's `done` in place on the shared dictionary |
| FinanceResearch.Driver.Step | atlas/multiagents/finance_research.py:103-179 | one iteration moves the heap state exactly as `Next` does, returns its message and dispatched agent, and keeps the orchestrator sharing the live dictionary; a returned concierge is the turn after which line 183 raises, which `Run` acts on |
| FinanceResearch.Driver.Run | atlas/multiagents/finance_research.py:103-184 | running a script of inputs moves the heap state exactly as `RunView` does: the loop stops after the first concierge turn and `crashed` reports it |
| PyText.TrimStartSpec | atlas/multiagents/finance_research.py:146 | left part of `strip()`: the kept suffix starts at the first non-space, and all removed characters are whitespace |
| PyText.TrimEndSpec | atlas/multiagents/finance_research.py:146 | right part of `strip()`: the kept prefix ends at the last non-space, and all removed characters are whitespace |
| PyText.IsSpace | atlas/multiagents/finance_research.py:146 | definition of `str.isspace` on one character, with its full set of whitespace code points; its properties are stated by `TrimStartSpec`, `TrimEndSpec` and `StripSpec` |
| PyText.TrimStart | atlas/multiagents/finance_research.py:146 | the left half of `strip()`: never longer than its argument; its full property is `TrimStartSpec` |
| PyText.TrimEnd | atlas/multiagents/finance_research.py:146 | the right half of `strip()`: never longer than its argument; its full property is `TrimEndSpec` |
| PyText.Strip | atlas/multiagents/finance_research.py:146 | `str.strip()`: never longer than its argument; its full properties are `StripSpec` and `StripIdempotent` |
| PyText.StripSpec | atlas/multiagents/finance_research.py:146 | `strip()` keeps a contiguous middle with whitespace only outside it, and the middle neither starts nor ends with whitespace |
| PyText.StripIdempotent | atlas/multiagents/finance_research.py:118 | stripping twice is stripping once |
| PyText.Contains | atlas/multiagents/finance_research.py:120 | the substring test `in`: a found substring is never longer than the string; its full property is `ContainsSpec` |
| PyText.ContainsSpec | atlas/multiagents/finance_research.py:120 | `sub in s` holds iff `sub` occurs in `s` at some position |
| PyText.LexLt | atlas/actions/finance/finance_tools.py:157 | definition of Python's `<` on strings, code point by code point; its properties are `LexLtTransitive` and `LexLtTotal` |
| PyText.LexLtTransitive | atlas/actions/finance/finance_tools.py:157 | the string order `sorted` uses is transitive |
| PyText.LexLtTotal | atlas/actions/finance/finance_tools.py:157 | the string order relates any two different strings |
| Dates.ParseDate | atlas/actions/finance/finance_tools.py:143-147 | a date parses exactly when it has the `YYYY-MM-DD` digit shape (the calendar range checks and the one-digit fields `strptime` also handles are listed under Left out) |
| Dates.WellFormedDate | atlas/actions/finance/finance_tools.py:143-147 | definition of the `YYYY-MM-DD` digit shape the model takes `strptime` to accept; its property is `ParseDate` |
| Dates.Num | atlas/actions/finance/finance_tools.py:143-147 | the decimal value of a digit string, below 10 to the power of its length; its properties are `NumOrder` and `NumInjective` |
| Dates.YmdLt | atlas/actions/finance/finance_tools.py:148 | definition of `datetime`'s `<`: year, then month, then day; its property is `DateOrderAgreement` |
| Dates.YmdLe | atlas/actions/finance/finance_tools.py:148 | definition of `datetime`'s `<=`; its properties are stated by `FinanceTools.InRange` and `DateOrderAgreement` |
| Dates.NumOrder | atlas/actions/finance/finance_tools.py:157 | on digit strings of one length, string order is numeric order |
| Dates.DateOrderAgreement | atlas/actions/finance/finance_tools.py:146-157 | for `YYYY-MM-DD` strings, the string order of the sort and the chronological order of the filter coincide |
| FinanceTools.SearchForStockSymbol | atlas/actions/finance/finance_tools.py:76-91 | an "Error Message" entry fails with its content; an absent or empty "bestMatches" fails with no symbol found; the call succeeds iff the first match carries all five fields, and then returns exactly symbol, name, type, region and currency copied from "1. symbol", "2. name", "3. type", "4. region" and "8. currency" |
| FinanceTools.FirstMatch | atlas/actions/finance/finance_tools.py:79-90 | definition of `data["bestMatches"][0]` where it can be keyed; its properties are stated by `SearchForStockSymbol` and `SearchUsesFirstMatchOnly` |
| JsonValues.Truthy | atlas/actions/finance/finance_tools.py:79 | definition of Python truthiness of a parsed JSON value (`not data["bestMatches"]`); its property is stated by `FinanceTools.SearchForStockSymbol` |
| FinanceTools.MatchReadable | atlas/actions/finance/finance_tools.py:85-90 | definition: the first match is an object carrying the five fields the projection reads, so lines 85-90 raise no `KeyError` or `TypeError`; its property is stated by `SearchForStockSymbol` |
| FinanceTools.SearchUsesFirstMatchOnly | atlas/actions/finance/finance_tools.py:85-91 | the matches after the first one do not affect the result |
| FinanceTools.SearchAppleExample | atlas/actions/finance/test_finance_tools.py:146-173 | the unit test's Apple reply projects to AAPL, Apple Inc., Equity, United States and USD |
| FinanceTools.InsertByDate | atlas/actions/finance/finance_tools.py:157 | inserting keeps every element and adds the new one (multiset) |
| FinanceTools.InsertKeepsOrder | atlas/actions/finance/finance_tools.py:157 | inserting into a date-ordered list keeps it ordered |
| FinanceTools.InsertKeepsStrictOrder | atlas/actions/finance/finance_tools.py:157 | inserting a new date into a strictly ascending list keeps it strictly ascending |
| FinanceTools.SortByDate | atlas/actions/finance/finance_tools.py:157 | `sorted(key=date)` is a permutation, ordered by date string, and strictly ascending when the dates are distinct |
| FinanceTools.InRange | atlas/actions/finance/finance_tools.py:148 | definition of `start_date <= date <= end_date` on parsed dates; its properties are stated by `CollectInRange`, `HistoricalStockPrices` and `DateOrderAgreement` |
| FinanceTools.ClosePrice | atlas/actions/finance/finance_tools.py:151 | definition of `values["4. close"]` where it can be read; its properties are stated by `CollectInRange` and `HistoricalStockPrices` |
| FinanceTools.Selected | atlas/actions/finance/finance_tools.py:147-148 | definition: a series key that parses to a date inside the range; its properties are stated by `CollectInRange` and `HistoricalStockPrices` |
| FinanceTools.EntriesReadable | atlas/actions/finance/finance_tools.py:146-152 | definition: every series date parses and every selected entry has a "4. close", so the loop raises nothing; its property is stated by `CollectInRange` |
| FinanceTools.SeriesReadable | atlas/actions/finance/finance_tools.py:140-152 | definition: both bounds parse, the series is an object and its entries are readable, so lines 140-152 raise nothing; its property is stated by `HistoricalStockPrices` |
| FinanceTools.AnySelected | atlas/actions/finance/finance_tools.py:154-155 | definition: some series date lies inside the range, so the empty-result error is not raised; its property is stated by `HistoricalStockPrices` |
| FinanceTools.CollectInRange | atlas/actions/finance/finance_tools.py:146-152 | the loop fails exactly when a series date does not parse or a selected entry has no "4. close" (a close that `float()` rejects is not modelled, see Left out); otherwise it collects every in-range date exactly once with its closing price, and nothing else |
| FinanceTools.HistoricalStockPrices | atlas/actions/finance/finance_tools.py:134-157 | "Error Message" and a missing "Time Series (Daily)" are reported first; an unreadable series fails as malformed; an empty selection fails with no prices in range; it succeeds exactly when none of these applies, and a success is non-empty, strictly ascending by date, holds only in-range dates with their closes, and holds every in-range date |
| FinanceTools.StrictlyAscendingIsChronological | atlas/actions/finance/finance_tools.py:148-157 | the returned dates, ordered as strings, are also in chronological order |
| FinanceTools.ArticleText | atlas/actions/finance/finance_tools.py:289 | definition of the scored text `f"{title} {description}"`; its property is stated by `Polarities` |
| FinanceTools.Polarities | atlas/actions/finance/finance_tools.py:287-291 | exactly one polarity score per article |
| FinanceTools.CountPositive | atlas/actions/finance/finance_tools.py:295 | definition of the count of scores above 0.05; its properties are `BucketsPartition` and `SentimentAnalysis` |
| FinanceTools.CountNeutral | atlas/actions/finance/finance_tools.py:296 | definition of the count of scores from -0.05 to 0.05; its properties are `BucketsPartition` and `SentimentAnalysis` |
| FinanceTools.CountNegative | atlas/actions/finance/finance_tools.py:297 | definition of the count of scores below -0.05; its properties are `BucketsPartition` and `SentimentAnalysis` |
| FinanceTools.BucketsPartition | atlas/actions/finance/finance_tools.py:295-297 | the positive (> 0.05), neutral ([-0.05, 0.05]) and negative (< -0.05) buckets partition the scores, so the counts sum to the number of scores |
| FinanceTools.SentimentAnalysis | atlas/actions/finance/finance_tools.py:283-305 | it fails exactly when there are no articles; otherwise it returns the three bucket counts of the article scores, and the article count equals the number of articles and the sum of the counts |
| FinanceTools.CompanyLeadership | atlas/actions/finance/finance_tools.py:336-348 | a failure to fetch the info gives the empty dictionary; otherwise the result is never empty |
| FinanceTools.GetOrNA | atlas/actions/finance/finance_tools.py:337-342 | definition of `info.get(key, "N/A")`; its property is `LeadershipEntries` |
| FinanceTools.LeadershipEntries | atlas/actions/finance/finance_tools.py:336-345 | CEO, Company, Industry, Sector, Full Time Employees and Website are copied from "ceo", "longName", "industry", "sector", "fullTimeEmployees" and "website", or are "N/A" when the key is absent |
| FinanceTools.LeadershipKeysFromTable | atlas/actions/finance/finance_tools.py:336-345 | the result has no key besides those six |
| FinanceTools.LeadershipHasSixKeys | atlas/actions/finance/finance_tools.py:336-345 | a successful lookup has exactly six entries |
| FinanceTools.LeadershipAppleExample | atlas/actions/finance/test_finance_tools.py:109-128 | the unit test's Apple info maps to Tim Cook, Apple Inc., Technology, Consumer Electronics, 147000 and the Apple website |

## Left out

- Language-model calls (the orchestrator, the quality evaluator and every agent's `chat`), prompts and chat memory: their replies, and an agent's decision to call `done`, are inputs of `Oracle`.
- The concierge and the quality-evaluation agents' own code: the concierge enters as a dispatch target without `done` and without a `memory` attribute (see Findings), the evaluator only through its stripped reply (line 118), tested at line 120 and otherwise routed as the message.
- HTTP requests, `yfinance`, `TextBlob` and `input()`: the parsed JSON, the info record, the polarity scorer and the user line are parameters.
- The overall sentiment mean and the `float()` conversions of prices: floating point; prices are kept as the JSON value of "4. close", polarity scores are `real`.
- Dates.ParseDate: the `strptime` and `datetime` range checks (year 1-9999, month 1-12, a day that exists in its month) and its acceptance of a one-digit month or day or a space-padded day (`2023-1-5`, `2023-01- 5`) are not modelled; a date is accepted exactly when it has the `YYYY-MM-DD` digit shape, so `2023-13-01` and `0000-01-01` parse here and `2023-1-5` does not.
- FinanceTools.HistoricalStockPrices: it inherits the date acceptance of `Dates.ParseDate` above for the two bounds and for every series date.
- FinanceTools.CollectInRange: a close value that `float()` rejects (`null`, `"n/a"`) is collected as an opaque JSON value, where the code raises; the loop fails only on an unparsable date or a missing "4. close".
- FinanceTools.HistoricalStockPrices: for the same reason, a series whose selected closes are not numbers succeeds here, where the code raises.
- FinanceTools.HistoricalStockPrices: which exception type escapes (KeyError, TypeError, ValueError) and, when several entries are unreadable, which one raises first, are merged into one `Malformed` error, because the dictionary iteration order decides it.
- FinanceTools.CollectInRange: the order in which the loop visits the series is left unspecified (any order), since the result is sorted afterwards.
- FinanceTools.SearchForStockSymbol: a top-level JSON value that is not an object is not modelled; `data` is a map.
- FinanceTools.SentimentAnalysis: the article records are taken as already read; a missing "title" or "description" key, network errors and `raise_for_status` failures (which the code turns into `ValueError`) are not modelled, and a missing "articles" key is the empty list.
- FinanceTools.CompanyLeadership: the failure of `yf.Ticker(...).info` is the `None` input; the `print` of the error is left out.
- The passthrough tools (company research, equity research, industry and sector research, country research, consumer trends, business news, current price) and the web search tools: they return provider JSON unchanged or only format URLs.
- Orchestration.OrchestrationAgent.Chat: the prompt it is sent (the orchestrator prompt filled with the state, the chat history and the user query, lines 140-145 of `atlas/multiagents/finance_research.py`) is not modelled, since it only reaches the language model; the reply is an input.
- `achat` and `asyncio.to_thread`, logging, colour codes and `pprint`: concurrency and output only.
- `Strip` follows Python's `str.isspace` set of whitespace characters; no other Unicode processing is modelled.
- FinanceResearch.Driver.Run: the `while True` loop is modelled over a finite script of iterations, since a program that never stops has no final state to state anything about.

## Findings

| source | as written | input that shows it | evidently intended | confidence | as-written member | corrected member |
|---|---|---|---|---|---|---|
| atlas/multiagents/finance_research.py:166-183 | after a turn dispatched to the concierge, line 183 reads `current_agent.memory`, but `ConciergeAgent` (lines 39-41 of `atlas/multiagents/concierge_agent.py`) sets only `state` and `agent`, so `AttributeError` ends `run()`; the concierge is also the orchestrator's default answer | the orchestrator answering "concierge" on the greeting turn (`ConciergeCrashExample`) | the concierge keeps a chat memory as the four other agents do (`self.memory = self.agent.memory`), and the loop goes on to the next iteration | high (not executed) | FinanceResearch.ConciergeEndsRun | FinanceResearch.IntendedRunComposes |
