/**
 * The conversation driver: one iteration of its loop picks the message to route, decides who
 * speaks (the pinned agent, or whatever the orchestrator answers), and either dispatches to one
 * of five agents or asks the orchestrator to try again on the next iteration.
 *
 * Everything that comes from outside — the orchestrator's reply, the quality evaluator's reply,
 * the line the user types, and whether the dispatched agent calls its `done` tool (and with what)
 * — is an `Oracle` input to the step. `Next` is the step as a function of values; the `Driver`
 * class runs it on the shared, mutable state objects.
 */
module FinanceResearch {
  import opened Wrappers
  import opened PyText
  import opened FinanceConfig
  import opened Conversation
  import opened Orchestration
  import opened StockAgents
  import opened CompanyResearchAgents
  import opened IndustryResearchAgents
  import opened ConsumerResearchAgents

  const Greeting := "Hello"
  const RetryPrompt := "That's not right, try again. Pick one agent."
  const NoFurtherTask := "no_further_task"
  /** The evaluator is consulted only while the incremented counter is below this. */
  const EvaluationLimit := 5

  /** What the outside world supplies to one iteration. `done` is Some(payload) when the
      dispatched agent calls its `done` tool with that payload. */
  datatype Oracle = Oracle(orchestratorReply: string, evaluatorReply: string, userLine: string, done: Option<string>)

  /** Where the iteration's message came from. */
  datatype Source = Greet | Retry | Evaluation | FreshInput

  /** The driver's local variables `first_run`, `is_retry`, `num_tries` and the state dictionary. */
  datatype DriverView = DriverView(firstRun: bool, isRetry: bool, numTries: nat, conv: StateView)

  datatype Selection = Selection(source: Source, message: string, view: DriverView)

  /** One iteration: the message's source and text, whether the orchestrator was asked, the speaker
      string, the agent dispatched (None when the iteration ends in a retry) and the new view. */
  datatype Outcome = Outcome(
    source: Source, message: string, consulted: bool, speaker: string,
    dispatched: Option<AgentName>, next: DriverView)

  /** The view before the first iteration. */
  function Start(): DriverView
  {
    DriverView(true, false, 0, Initial())
  }

  /** Lines 104-130: bump the counter, then take the first message source that applies. */
  function SelectMessage(d: DriverView, o: Oracle): Selection
  {
    var n := d.numTries + 1;
    if d.firstRun then
      Selection(Greet, Greeting, d.(firstRun := false, numTries := n))
    else if d.isRetry then
      Selection(Retry, RetryPrompt, d.(isRetry := false, numTries := n))
    else if d.conv.justFinished && n < EvaluationLimit then
      var verdict := Strip(o.evaluatorReply);
      if Contains(verdict, NoFurtherTask) then
        Selection(Evaluation, Strip(o.userLine), d.(numTries := 0, conv := d.conv.(justFinished := false)))
      else
        Selection(Evaluation, verdict, d.(numTries := n))
    else
      Selection(FreshInput, Strip(o.userLine), d.(numTries := 0, conv := Initial()))
  }

  /** Lines 135-146: the pinned agent's name, or the orchestrator's stripped reply (second component:
      whether the orchestrator was consulted). A pinned name is never empty, so it is always truthy. */
  function Route(conv: StateView, o: Oracle): (string, bool)
  {
    if conv.currentAgent.Some? then (Value(conv.currentAgent.value), false)
    else (Strip(o.orchestratorReply), true)
  }

  /** Lines 150-179: pin the matched agent and let it handle the message, or flag a retry. */
  function Dispatch(d: DriverView, speaker: string, o: Oracle): (Option<AgentName>, DriverView)
  {
    match DispatchTarget(speaker)
    case None => (None, d.(isRetry := true))
    case Some(a) =>
      var pinned := d.conv.(currentAgent := Some(a));
      var after := if SlotOf(a).Some? && o.done.Some? then Complete(pinned, SlotOf(a).value, o.done.value) else pinned;
      (Some(a), d.(conv := after))
  }

  /** One iteration of the `while True` loop. */
  function Next(d: DriverView, o: Oracle): Outcome
  {
    var sel := SelectMessage(d, o);
    var (speaker, consulted) := Route(sel.view.conv, o);
    var (dispatched, next) := Dispatch(sel.view, speaker, o);
    Outcome(sel.source, sel.message, consulted, speaker, dispatched, next)
  }

  /** How a run over a finite prefix of the inputs ends: the last view, and whether `run` died on a
      concierge turn. */
  datatype RunEnd = RunEnd(view: DriverView, crashed: bool)

  /** Line 183 reads `current_agent.memory` after every dispatch, but `ConciergeAgent` never sets a
      `memory` attribute: a concierge turn raises `AttributeError`, which nothing catches. */
  predicate EndsRun(out: Outcome)
  {
    out.dispatched == Some(Concierge)
  }

  /** The loop as written over a finite prefix of its inputs: the iteration that dispatches to the
      concierge completes its state changes (lines 104-179) and then ends `run`. */
  function RunView(d: DriverView, script: seq<Oracle>): RunEnd
    decreases |script|
  {
    if script == [] then RunEnd(d, false)
    else
      var out := Next(d, script[0]);
      if EndsRun(out) then RunEnd(out.next, true) else RunView(out.next, script[1..])
  }

  /** The loop as evidently intended, with a concierge that keeps a chat memory as the other four
      agents do: every iteration is followed by the next one. */
  function IntendedRunView(d: DriverView, script: seq<Oracle>): DriverView
    decreases |script|
  {
    if script == [] then d else IntendedRunView(Next(d, script[0]).next, script[1..])
  }

  /** What every reachable view satisfies: the orchestrator is never pinned, a pending retry is
      only ever for an unpinned conversation, and before the first iteration nothing has happened. */
  predicate Inv(d: DriverView)
  {
    && d.conv.currentAgent != Some(Orchestrator)
    && (d.isRetry ==> d.conv.currentAgent == None)
    && (d.firstRun ==> !d.isRetry && d.numTries == 0 && d.conv == Initial())
  }

  // ---------------------------------------------------------------------------------------------
  // Properties of one iteration

  lemma StartSatisfiesInv()
    ensures Inv(Start())
  {
  }

  lemma NextPreservesInv(d: DriverView, o: Oracle)
    requires Inv(d)
    ensures Inv(Next(d, o).next)
  {
  }

  /** The first iteration greets, whatever the inputs. */
  lemma FirstStepGreets(o: Oracle)
    ensures Next(Start(), o).source == Greet && Next(Start(), o).message == Greeting
    ensures !Next(Start(), o).next.firstRun
  {
  }

  /** The fixed precedence of message sources, and the flag each of the first two branches clears. */
  lemma SourcePrecedence(d: DriverView, o: Oracle)
    ensures var s := SelectMessage(d, o);
      && (s.source == Greet <==> d.firstRun)
      && (s.source == Retry <==> !d.firstRun && d.isRetry)
      && (s.source == Evaluation <==>
            !d.firstRun && !d.isRetry && d.conv.justFinished && d.numTries + 1 < EvaluationLimit)
      && (s.source == FreshInput <==>
            !d.firstRun && !d.isRetry && !(d.conv.justFinished && d.numTries + 1 < EvaluationLimit))
      && (s.source == Greet ==> s.message == Greeting && !s.view.firstRun && s.view.isRetry == d.isRetry)
      && (s.source == Retry ==> s.message == RetryPrompt && !s.view.isRetry)
      && (s.source != Greet ==> !s.view.firstRun)
  {
  }

  /** The counter grows by one per iteration unless the iteration reads fresh user input, which sets it to 0. */
  lemma CounterAdvances(d: DriverView, o: Oracle)
    ensures var out := Next(d, o);
      && (out.next.numTries == d.numTries + 1 || out.next.numTries == 0)
      && (out.next.numTries == 0 <==>
            out.source == FreshInput
            || (out.source == Evaluation && Contains(Strip(o.evaluatorReply), NoFurtherTask)))
  {
  }

  /** The evaluator is consulted only after a completion and only while the incremented counter is below 5. */
  lemma EvaluationOnlyBelowLimit(d: DriverView, o: Oracle)
    requires Next(d, o).source == Evaluation
    ensures d.conv.justFinished && d.numTries + 1 < EvaluationLimit
    ensures Next(d, o).next.numTries < EvaluationLimit
  {
  }

  /** Fresh input starts a new conversation: the state is the initial one, the counter is 0, any pinned
      agent is dropped and so the orchestrator is always consulted. */
  lemma FreshInputResets(d: DriverView, o: Oracle)
    requires SelectMessage(d, o).source == FreshInput
    ensures SelectMessage(d, o).view.conv == Initial() && SelectMessage(d, o).view.numTries == 0
    ensures SelectMessage(d, o).message == Strip(o.userLine)
    ensures Next(d, o).consulted
  {
  }

  /** A verdict containing "no_further_task" reads the next user line, clears `just_finished` and the
      counter and keeps every other entry; any other verdict becomes the message and leaves
      `just_finished` raised. */
  lemma EvaluatorVerdict(d: DriverView, o: Oracle)
    requires SelectMessage(d, o).source == Evaluation
    ensures var s := SelectMessage(d, o);
      if Contains(Strip(o.evaluatorReply), NoFurtherTask) then
        && s.message == Strip(o.userLine) && s.view.numTries == 0
        && s.view.conv == d.conv.(justFinished := false)
        && s.view.firstRun == d.firstRun && s.view.isRetry == d.isRetry
      else
        && s.message == Strip(o.evaluatorReply) && s.view.numTries == d.numTries + 1
        && s.view.conv == d.conv && s.view.conv.justFinished
        && s.view.firstRun == d.firstRun && s.view.isRetry == d.isRetry
  {
  }

  /** Turn affinity: a pinned agent speaks next and the orchestrator is not asked. */
  lemma TurnAffinity(d: DriverView, o: Oracle, a: AgentName)
    requires Inv(d)
    requires SelectMessage(d, o).view.conv.currentAgent == Some(a)
    ensures !Next(d, o).consulted
    ensures Next(d, o).speaker == Value(a) && Next(d, o).dispatched == Some(a)
  {
  }

  /** A pin survives message selection unless the iteration reads fresh user input. */
  lemma PinSurvivesSelection(d: DriverView, o: Oracle)
    requires SelectMessage(d, o).source != FreshInput
    ensures SelectMessage(d, o).view.conv.currentAgent == d.conv.currentAgent
  {
  }

  /** Dispatch changes at most the dispatched agent's own entry, and only when it calls `done`. */
  lemma DispatchResults(v: DriverView, speaker: string, o: Oracle, slot: Slot)
    ensures var (agent, next) := Dispatch(v, speaker, o);
      next.conv.Get(slot) == if agent.Some? && SlotOf(agent.value) == Some(slot) && o.done.Some? then o.done else v.conv.Get(slot)
  {
    match DispatchTarget(speaker)
    case None =>
    case Some(a) =>
      var pinned := v.conv.(currentAgent := Some(a));
      assert pinned.Get(slot) == v.conv.Get(slot);
  }

  /** What `Dispatch` does once it has matched agent `a`. */
  lemma DispatchMatched(v: DriverView, speaker: string, o: Oracle, a: AgentName)
    requires Dispatch(v, speaker, o).0 == Some(a)
    ensures a != Orchestrator && Value(a) == speaker
    ensures var out := Dispatch(v, speaker, o).1;
      var finished := SlotOf(a).Some? && o.done.Some?;
      && out.conv.currentAgent == (if finished then None else Some(a))
      && out.conv.justFinished == (finished || v.conv.justFinished)
      && out.firstRun == v.firstRun && out.isRetry == v.isRetry && out.numTries == v.numTries
  {
    assert DispatchTarget(speaker) == Some(a);
  }

  /** A dispatch pins the matched agent, which is never the orchestrator; its `done`, if called, writes its
      own result entry, releases the pin and raises `just_finished`; nothing else changes. */
  lemma DispatchEffect(d: DriverView, o: Oracle, a: AgentName)
    requires Next(d, o).dispatched == Some(a)
    ensures a != Orchestrator && Value(a) == Next(d, o).speaker
    ensures var sel, out := SelectMessage(d, o).view, Next(d, o).next;
      var finished := SlotOf(a).Some? && o.done.Some?;
      && out.conv.currentAgent == (if finished then None else Some(a))
      && out.conv.justFinished == (finished || sel.conv.justFinished)
      && (forall slot: Slot :: out.conv.Get(slot) == if finished && SlotOf(a) == Some(slot) then o.done else sel.conv.Get(slot))
      && out.firstRun == sel.firstRun && out.isRetry == sel.isRetry && out.numTries == sel.numTries
  {
    var sel := SelectMessage(d, o).view;
    var speaker := Route(sel.conv, o).0;
    assert Next(d, o).speaker == speaker;
    assert Next(d, o).next == Dispatch(sel, speaker, o).1;
    assert Next(d, o).dispatched == Dispatch(sel, speaker, o).0;
    DispatchMatched(sel, speaker, o, a);
    forall slot: Slot
      ensures Next(d, o).next.conv.Get(slot) == if SlotOf(a).Some? && o.done.Some? && SlotOf(a) == Some(slot) then o.done else sel.conv.Get(slot)
    {
      DispatchResults(sel, speaker, o, slot);
    }
  }

  /** Any other speaker — "orchestrator" included — flags a retry, dispatches nobody and leaves the
      state as message selection left it. */
  lemma InvalidSpeakerRetries(d: DriverView, o: Oracle)
    requires Inv(d)
    requires Next(d, o).dispatched == None
    ensures forall n: AgentName :: Dispatchable(n) ==> Value(n) != Next(d, o).speaker
    ensures Next(d, o).consulted
    ensures Next(d, o).next == SelectMessage(d, o).view.(isRetry := true)
  {
  }

  /** Message selection changes no result entry. */
  lemma SelectionKeepsResults(d: DriverView, o: Oracle, slot: Slot)
    ensures SelectMessage(d, o).source != FreshInput ==> SelectMessage(d, o).view.conv.Get(slot) == d.conv.Get(slot)
  {
  }

  /** Within one conversation (no fresh input), a recorded result is never lost, and only the agent
      owning an entry can change it. */
  lemma ResultsPersist(d: DriverView, o: Oracle, slot: Slot)
    requires Next(d, o).source != FreshInput
    ensures d.conv.Get(slot).Some? ==> Next(d, o).next.conv.Get(slot).Some?
    ensures (Next(d, o).dispatched.None? || SlotOf(Next(d, o).dispatched.value) != Some(slot))
            ==> Next(d, o).next.conv.Get(slot) == d.conv.Get(slot)
  {
    var sel := SelectMessage(d, o);
    var speaker := Route(sel.view.conv, o).0;
    assert Next(d, o).next == Dispatch(sel.view, speaker, o).1;
    assert Next(d, o).dispatched == Dispatch(sel.view, speaker, o).0;
    SelectionKeepsResults(d, o, slot);
    DispatchResults(sel.view, speaker, o, slot);
  }

  // ---------------------------------------------------------------------------------------------
  // Properties of many iterations

  lemma {:induction false} RunPreservesInv(d: DriverView, script: seq<Oracle>)
    requires Inv(d)
    ensures Inv(RunView(d, script).view)
    decreases |script|
  {
    if script != [] {
      NextPreservesInv(d, script[0]);
      if !EndsRun(Next(d, script[0])) {
        RunPreservesInv(Next(d, script[0]).next, script[1..]);
      }
    }
  }

  /** A concierge turn ends the run as written: the inputs after it are never read. */
  lemma ConciergeEndsRun(d: DriverView, o: Oracle, rest: seq<Oracle>)
    requires Next(d, o).dispatched == Some(Concierge)
    ensures RunView(d, [o] + rest) == RunEnd(Next(d, o).next, true)
  {
    assert ([o] + rest)[0] == o;
  }

  /** A run that does not crash is the intended run, and a crashed one stops at a view that the
      intended run passes through: the two differ only in where they stop. */
  lemma {:induction false} RunAgreesWithIntended(d: DriverView, script: seq<Oracle>)
    ensures !RunView(d, script).crashed ==> RunView(d, script).view == IntendedRunView(d, script)
    ensures RunView(d, script).crashed ==>
      exists k | 0 < k <= |script| :: RunView(d, script).view == IntendedRunView(d, script[..k])
    decreases |script|
  {
    if script != [] {
      var out := Next(d, script[0]);
      if EndsRun(out) {
        assert script[..1][1..] == [];
        assert RunView(d, script).view == IntendedRunView(d, script[..1]);
      } else {
        RunAgreesWithIntended(out.next, script[1..]);
        if RunView(d, script).crashed {
          var k :| 0 < k <= |script[1..]| && RunView(out.next, script[1..]).view == IntendedRunView(out.next, script[1..][..k]);
          assert script[..k + 1][1..] == script[1..][..k];
          assert RunView(d, script).view == IntendedRunView(d, script[..k + 1]);
        }
      }
    }
  }

  /** The intended run composes: running one script and then another is running both, whatever
      agents the first one dispatches. */
  lemma {:induction false} IntendedRunComposes(d: DriverView, s: seq<Oracle>, t: seq<Oracle>)
    ensures IntendedRunView(d, s + t) == IntendedRunView(IntendedRunView(d, s), t)
    decreases |s|
  {
    if s == [] {
      assert s + t == t;
    } else {
      assert (s + t)[0] == s[0] && (s + t)[1..] == s[1..] + t;
      IntendedRunComposes(Next(d, s[0]).next, s[1..], t);
    }
  }

  /** The greeting turn, when the orchestrator answers "concierge" as its prompt makes the default:
      the loop as written stops after it, while the intended loop reads the user's next line. */
  lemma ConciergeCrashExample()
    ensures var o := Oracle("concierge", "", "next line", None);
      && Next(Start(), o).dispatched == Some(Concierge)
      && RunView(Start(), [o, o]) == RunEnd(Next(Start(), o).next, true)
      && RunView(Start(), [o, o]).view.numTries == 1
      && Next(Next(Start(), o).next, o).source == FreshInput
      && IntendedRunView(Start(), [o, o]) == Next(Next(Start(), o).next, o).next
      && IntendedRunView(Start(), [o, o]).numTries == 0
  {
    var o := Oracle("concierge", "", "next line", None);
    assert TrimStart("concierge") == "concierge";
    assert TrimEnd("concierge") == "concierge";
    assert DispatchTarget("concierge") == Some(Concierge);
    var pinned := Initial().(currentAgent := Some(Concierge));
    var d1 := DriverView(false, false, 1, pinned);
    assert SelectMessage(Start(), o) == Selection(Greet, Greeting, DriverView(false, false, 1, Initial()));
    assert Route(Initial(), o) == ("concierge", true);
    assert Next(Start(), o).dispatched == Some(Concierge) && Next(Start(), o).next == d1;
    assert SelectMessage(d1, o).source == FreshInput && SelectMessage(d1, o).view == DriverView(false, false, 0, Initial());
    assert Next(d1, o).next == DriverView(false, false, 0, pinned);
    ConciergeEndsRun(Start(), o, [o]);
    assert [o] + [o] == [o, o];
    assert [o, o][1..] == [o] && [o][1..] == [];
    assert IntendedRunView(Start(), [o, o]) == IntendedRunView(d1, [o]);
    assert IntendedRunView(d1, [o]) == IntendedRunView(Next(d1, o).next, []);
  }

  /** One retry iteration whose orchestrator reply names no agent: only the counter moves. */
  lemma RetryRepeats(d: DriverView, o: Oracle)
    requires Inv(d) && !d.firstRun && d.isRetry
    requires DispatchTarget(Strip(o.orchestratorReply)).None?
    ensures Next(d, o).source == Retry && Next(d, o).consulted && Next(d, o).dispatched == None
    ensures Next(d, o).next == d.(numTries := d.numTries + 1)
  {
    var sel := SelectMessage(d, o);
    assert sel.view == d.(isRetry := false, numTries := d.numTries + 1);
    assert Route(sel.view.conv, o) == (Strip(o.orchestratorReply), true);
  }

  /** `k` iterations fed the same inputs. */
  function Repeated(o: Oracle, k: nat): (s: seq<Oracle>)
    ensures |s| == k && forall i | 0 <= i < k :: s[i] == o
  {
    if k == 0 then [] else [o] + Repeated(o, k - 1)
  }

  /** The routing retry has no cap: while the orchestrator keeps answering something that is not a
      dispatchable name, the driver keeps retrying and only the counter moves. */
  lemma {:induction false} RetryHasNoCap(d: DriverView, o: Oracle, k: nat)
    requires Inv(d) && !d.firstRun && d.isRetry
    requires DispatchTarget(Strip(o.orchestratorReply)).None?
    ensures RunView(d, Repeated(o, k)) == RunEnd(d.(numTries := d.numTries + k), false)
    decreases k
  {
    if k > 0 {
      RetryRepeats(d, o);
      var d' := d.(numTries := d.numTries + 1);
      var script := Repeated(o, k);
      assert script[0] == o && script[1..] == Repeated(o, k - 1);
      assert RunView(d, script) == RunView(d', script[1..]);
      RetryHasNoCap(d', o, k - 1);
    }
  }

  // ---------------------------------------------------------------------------------------------
  // The driver on the heap

  class Driver {
    var firstRun: bool
    var isRetry: bool
    var numTries: nat
    /** The current state dictionary; a fresh input replaces it by a new one. */
    var state: ConversationState
    const orchestrator: OrchestrationAgent

    function View(): DriverView
      reads this, state
    {
      DriverView(firstRun, isRetry, numTries, state.View())
    }

    /** The orchestrator reads the live state, and the view is a reachable one. */
    ghost predicate Valid()
      reads this, state, orchestrator
    {
      orchestrator.state == state && Inv(View())
    }

    /** Lines 94-101 of `run`: an initial state shared with a new orchestration agent. */
    constructor ()
      ensures Valid() && View() == Start()
      ensures fresh(state) && fresh(orchestrator)
    {
      var s := new ConversationState();
      state := s;
      orchestrator := new OrchestrationAgent(s);
      firstRun, isRetry, numTries := true, false, 0;
    }

    /** Lines 104-130: bump the counter and pick the message; a fresh input rebinds the state to a
        new initial one, which the orchestrator does not see yet. */
    method SelectStep(o: Oracle) returns (message: string)
      modifies this, state
      ensures View() == SelectMessage(old(View()), o).view && message == SelectMessage(old(View()), o).message
      ensures SelectMessage(old(View()), o).source == FreshInput ==> fresh(state)
      ensures SelectMessage(old(View()), o).source != FreshInput ==> state == old(state)
    {
      ghost var d := View();
      numTries := numTries + 1;
      if firstRun {
        message := Greeting;
        firstRun := false;
      } else if isRetry {
        message := RetryPrompt;
        isRetry := false;
      } else if state.justFinished && numTries < EvaluationLimit {
        message := Strip(o.evaluatorReply);
        if Contains(message, NoFurtherTask) {
          message := Strip(o.userLine);
          state.justFinished := false;
          numTries := 0;
          assert SelectMessage(d, o) == Selection(Evaluation, message, View());
        } else {
          assert SelectMessage(d, o) == Selection(Evaluation, message, View());
        }
      } else {
        message := Strip(o.userLine);
        state := new ConversationState();
        numTries := 0;
        assert SelectMessage(d, o) == Selection(FreshInput, message, View());
      }
    }

    /** Lines 135-146: the pinned agent speaks, or the orchestrator is asked (and handed the live state). */
    method RouteStep(o: Oracle) returns (speaker: string)
      modifies orchestrator
      ensures speaker == Route(state.View(), o).0
      ensures Route(state.View(), o).1 ==> orchestrator.state == state
      ensures !Route(state.View(), o).1 ==> orchestrator.state == old(orchestrator.state)
    {
      if state.currentAgent.Some? {
        speaker := Value(state.currentAgent.value);
      } else {
        var response := orchestrator.Chat(state, o.orchestratorReply);
        speaker := Strip(response);
      }
    }

    /** Lines 150-179: pin the matched agent and let it run (calling `done` when the oracle says so),
        or flag a retry. */
    method DispatchStep(speaker: string, o: Oracle) returns (dispatched: Option<AgentName>)
      modifies this, state
      ensures state == old(state)
      ensures View() == Dispatch(old(View()), speaker, o).1 && dispatched == Dispatch(old(View()), speaker, o).0
    {
      if speaker == Value(StockLookup) {
        var agent := new StockAgent(state);
        state.currentAgent := Some(StockLookup);
        if o.done.Some? { agent.Done(o.done.value); }
      } else if speaker == Value(CompanyResearch) {
        var agent := new CompanyResearchAgent(state);
        state.currentAgent := Some(CompanyResearch);
        if o.done.Some? { agent.Done(o.done.value); }
      } else if speaker == Value(IndustryResearch) {
        var agent := new IndustryResearchAgent(state);
        state.currentAgent := Some(IndustryResearch);
        if o.done.Some? { agent.Done(o.done.value); }
      } else if speaker == Value(ConsumerResearch) {
        var agent := new ConsumerResearchAgent(state);
        state.currentAgent := Some(ConsumerResearch);
        if o.done.Some? { agent.Done(o.done.value); }
      } else if speaker == Value(Concierge) {
        // The concierge has no `done` tool: it stays pinned (and line 183 then ends `run`).
        state.currentAgent := Some(Concierge);
      } else {
        isRetry := true;
      }
      dispatched := DispatchTarget(speaker);
    }

    /** One iteration of the loop at lines 103-184. */
    method Step(o: Oracle) returns (message: string, dispatched: Option<AgentName>)
      requires Valid()
      modifies this, state, orchestrator
      ensures Valid()
      ensures View() == Next(old(View()), o).next
      ensures message == Next(old(View()), o).message && dispatched == Next(old(View()), o).dispatched
      ensures Next(old(View()), o).source == FreshInput ==> fresh(state)
      ensures Next(old(View()), o).source != FreshInput ==> state == old(state)
    {
      ghost var d := View();
      ghost var sel := SelectMessage(d, o);
      message := SelectStep(o);
      ghost var route := Route(sel.view.conv, o);
      assert sel.source == FreshInput ==> route.1;
      var speaker := RouteStep(o);
      dispatched := DispatchStep(speaker, o);
      assert Next(d, o) == Outcome(sel.source, sel.message, route.1, route.0,
                                   Dispatch(sel.view, route.0, o).0, Dispatch(sel.view, route.0, o).1);
      NextPreservesInv(d, o);
    }

    /** The loop over the first `|script|` inputs, one oracle input each, as written: it stops after
        a concierge turn, where line 183 raises, and `crashed` says whether it did. */
    method Run(script: seq<Oracle>) returns (crashed: bool)
      requires Valid()
      modifies this, state, orchestrator
      ensures Valid()
      ensures RunEnd(View(), crashed) == RunView(old(View()), script)
    {
      crashed := false;
      var i := 0;
      while i < |script| && !crashed
        invariant 0 <= i <= |script|
        invariant Valid()
        invariant state == old(state) || fresh(state)
        invariant !crashed ==> RunView(View(), script[i..]) == RunView(old(View()), script)
        invariant crashed ==> RunEnd(View(), true) == RunView(old(View()), script)
      {
        assert script[i..][1..] == script[i + 1..];
        var _, dispatched := Step(script[i]);
        crashed := dispatched == Some(Concierge);
        i := i + 1;
      }
    }
  }
}
