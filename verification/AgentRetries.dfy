/**
  One turn of a session: attempts at a run, restarted on provider errors, and what the
  session journals of them.
 */
module AgentRetries {
  import opened Common
  import opened Conversation
  import opened AgentLoop
  import opened AgentEvents
  import opened AgentRuns
  import opened AgentAccounting
  import opened Agents

  datatype TurnError = NotBuilt(build: BuildError) | RunFailed(run: AgentError)

  datatype TurnOutcome =
    | TurnCompleted(text: string)
    | TurnConcluded(data: Json, callId: Option<string>)
    | TurnCancelled
    | TurnFailed(error: TurnError, recoverable: bool)

  // ---- The pending call of a handoff ---------------------------------------------------

  function CallIdIn(parts: seq<Part>, name: string): Option<string> {
    if parts == [] then None
    else if parts[0].ToolCall? && parts[0].name == name then Some(parts[0].id)
    else CallIdIn(parts[1..], name)
  }

  function CallIdOf(e: Event, name: string): Option<string> {
    if e.MessageComplete? then CallIdIn(e.message.parts, name) else None
  }

  /** Searches the captured events backwards for a reply calling `name`. */
  function FindToolCallId(events: seq<Event>, name: string): Option<string> {
    if events == [] then None
    else if CallIdOf(events[|events| - 1], name).Some? then CallIdOf(events[|events| - 1], name)
    else FindToolCallId(events[..|events| - 1], name)
  }

  lemma {:induction false} FindInConcat(a: seq<Event>, b: seq<Event>, name: string)
    ensures FindToolCallId(a + b, name) ==
            if FindToolCallId(b, name).Some? then FindToolCallId(b, name) else FindToolCallId(a, name)
    decreases b
  {
    if b == [] {
      assert a + b == a;
    } else {
      var n := |a + b| - 1;
      assert (a + b)[..n] == a + b[..|b| - 1] && (a + b)[n] == b[|b| - 1];
      FindInConcat(a, b[..|b| - 1], name);
    }
  }

  lemma {:induction false} SoleCallId(parts: seq<Part>, call: Call)
    requires Calls(parts) == [call]
    ensures CallIdIn(parts, call.name) == Some(call.id)
  {
    if !parts[0].ToolCall? {
      assert [] + Calls(parts[1..]) == Calls(parts[1..]);
      SoleCallId(parts[1..], call);
    } else {
      assert Calls(parts)[0] == Call(parts[0].id, parts[0].name, parts[0].input);
    }
  }

  lemma TailFinds(a: seq<Event>, message: Message, done: Event, call: Call)
    requires CallsOf(message) == [call] && message.role.Assistant? && done.RunComplete?
    ensures FindToolCallId(a + ([MessageStop(message.id), MessageComplete(message)] + [done]), call.name) ==
            Some(call.id)
  {
    var tail := [MessageStop(message.id), MessageComplete(message)] + [done];
    SoleCallId(message.parts, call);
    assert tail[..2] == [MessageStop(message.id), MessageComplete(message)];
    assert tail[..2][1] == MessageComplete(message);
    FindInConcat(a, tail, call.name);
  }

  lemma HandoffRound(cfg: Config, w: World, s: State, parts: seq<Part>, used: Usage)
    requires Judge(cfg, w, s, Calls(parts)).HandedOff?
    ensures |Calls(parts)| == 1 && cfg.handoffTool == Some(Calls(parts)[0].name)
    ensures w.valid(Calls(parts)[0].input)
    ensures var s' := Advance(cfg, w, s, parts, used, HandedOff);
            && FindToolCallId(s'.events, Calls(parts)[0].name) == Some(Calls(parts)[0].id)
            && OutcomeOf(cfg, w, parts, HandedOff, s'.usage) ==
               Handoff(Calls(parts)[0].name, Calls(parts)[0].input, s'.usage)
  {
    hide FindToolCallId, CallEvents, Fingerprint;
    var n := s.iteration + 1;
    var message := ReplyMessage(w, n, parts);
    var usage := AddUsage(s.usage, used);
    var stop := [MessageStop(message.id), MessageComplete(message)];
    var call := Calls(parts)[0];
    assert Calls(parts) == [call];
    TailFinds(s.events + CallEvents(w, n), message, RunComplete(usage, n), call);
    Assoc(CallEvents(w, n), stop, [RunComplete(usage, n)]);
    Assoc(s.events, CallEvents(w, n), stop + [RunComplete(usage, n)]);
  }

  /** The call a run handed off on: the sole call of its last reply, found by name among the events. */
  lemma HandoffFindsItsCall(cfg: Config, w: World, base: seq<Message>, input: Message)
    requires var run := Run(cfg, w, base, input); run.Halt? && run.outcome.Handoff?
    ensures var run := Run(cfg, w, base, input);
            && run.state.rounds != []
            && var calls := CallsOf(run.state.rounds[|run.state.rounds| - 1].message);
               && |calls| == 1 && calls[0].name == run.outcome.tool && calls[0].input == run.outcome.data
               && w.valid(calls[0].input)
               && FindToolCallId(run.state.events, run.outcome.tool) == Some(calls[0].id)
  {
    hide Judge, Advance, FindToolCallId, Calls;
    var m, s := LastRound(cfg, w, Start(base, input), cfg.maxIterations + 1);
    var reply := w.replies(s.iteration + 1);
    assert OneRound(cfg, w, s).outcome.Handoff?;
    var kind := ReplyStep(cfg, w, s, reply.parts, reply.usage);
    HandoffRound(cfg, w, s, reply.parts, reply.usage);
    AdvanceRecords(cfg, w, s, reply.parts, reply.usage, kind);
  }

  // ---- Attempts ------------------------------------------------------------------------------

  function Classify(o: Outcome, captured: seq<Event>): TurnOutcome {
    match o
    case Completed(text, _) => TurnCompleted(text)
    case Handoff(tool, data, _) => TurnConcluded(data, FindToolCallId(captured, tool))
    case Failed(error) =>
      if error.Cancelled? then TurnCancelled else TurnFailed(RunFailed(error), error.Provider?)
  }

  /** The runs attempted, in order, as each ended; and how the turn ended. */
  datatype Turn = Turn(runs: seq<State>, outcome: TurnOutcome)

  predicate ProviderFailed(run: Next) {
    run.Halt? && run.outcome.Failed? && run.outcome.error.Provider?
  }

  function Attempts(
      cfg: Config, ws: nat -> World, base: seq<Message>, input: Message, maxRetries: nat, attempt: nat): (t: Turn)
    requires attempt <= maxRetries
    ensures 1 <= |t.runs| <= maxRetries - attempt + 1
    decreases maxRetries - attempt
  {
    var run := Run(cfg, ws(attempt), base, input);
    if ProviderFailed(run) && attempt < maxRetries then
      var rest := Attempts(cfg, ws, base, input, maxRetries, attempt + 1);
      Turn([run.state] + rest.runs, rest.outcome)
    else
      RunsHalt(cfg, ws(attempt), base, input);
      Turn([run.state], Classify(run.outcome, run.state.events))
  }

  function RunWithRetries(
      cfg: Config, specs: seq<ToolSpec>, compiles: Json -> bool, ws: nat -> World,
      base: seq<Message>, input: Message, maxRetries: nat): Turn {
    match Build(cfg, specs, compiles)
    case Err(e) => Turn([], TurnFailed(NotBuilt(e), false))
    case Ok(built) => Attempts(built, ws, base, input, maxRetries, 0)
  }

  function EventsOf(runs: seq<State>): seq<Event> {
    if runs == [] then [] else runs[0].events + EventsOf(runs[1..])
  }

  function RoundsOf(runs: seq<State>): seq<Round> {
    if runs == [] then [] else runs[0].rounds + RoundsOf(runs[1..])
  }

  /** The retry loop: a fresh agent from the same history each time, all reporting to one sink. */
  method RunTurn(
      cfg: Config, specs: seq<ToolSpec>, compiles: Json -> bool, ws: nat -> World,
      history: seq<Message>, input: Message, maxRetries: nat, sink: EventSink) returns (outcome: TurnOutcome)
    modifies sink
    ensures var turn := RunWithRetries(cfg, specs, compiles, ws, history, input, maxRetries);
            && outcome == turn.outcome
            && sink.emitted == old(sink.emitted) + EventsOf(turn.runs)
  {
    hide AgentLoop.Run, Attempts, Classify;
    if Build(cfg, specs, compiles).Err? {
      return TurnFailed(NotBuilt(Build(cfg, specs, compiles).error), false);
    }
    var attempt: nat := 0;
    ghost var turn := Attempts(cfg, ws, history, input, maxRetries, 0);
    while true
      invariant attempt <= maxRetries
      invariant turn.outcome == Attempts(cfg, ws, history, input, maxRetries, attempt).outcome
      invariant old(sink.emitted) + EventsOf(turn.runs) ==
                sink.emitted + EventsOf(Attempts(cfg, ws, history, input, maxRetries, attempt).runs)
      decreases maxRetries - attempt
    {
      var agent := new Agent(cfg, ws(attempt), history);
      var start := |sink.emitted|;
      ghost var before := sink.emitted;
      var result := agent.Run(input, sink);
      var captured := sink.emitted[start..];
      ghost var run := Run(cfg, ws(attempt), history, input);
      assert captured == run.state.events;
      AttemptUnfolds(cfg, ws, history, input, maxRetries, attempt, before);
      if result.Failed? && result.error.Provider? && attempt < maxRetries {
        attempt := attempt + 1;
      } else {
        return Classify(result, captured);
      }
    }
  }

  lemma AttemptUnfolds(
      cfg: Config, ws: nat -> World, base: seq<Message>, input: Message, maxRetries: nat, attempt: nat,
      before: seq<Event>)
    requires attempt <= maxRetries
    ensures var run := Run(cfg, ws(attempt), base, input);
            var turn := Attempts(cfg, ws, base, input, maxRetries, attempt);
            && run.Halt?
            && if ProviderFailed(run) && attempt < maxRetries then
                 var rest := Attempts(cfg, ws, base, input, maxRetries, attempt + 1);
                 turn.outcome == rest.outcome
                 && before + EventsOf(turn.runs) == before + run.state.events + EventsOf(rest.runs)
               else
                 && turn.outcome == Classify(run.outcome, run.state.events)
                 && before + EventsOf(turn.runs) == before + run.state.events
  {
    hide AgentLoop.Run, Classify;
    var run := Run(cfg, ws(attempt), base, input);
    RunsHalt(cfg, ws(attempt), base, input);
    if ProviderFailed(run) && attempt < maxRetries {
      var rest := Attempts(cfg, ws, base, input, maxRetries, attempt + 1);
      assert ([run.state] + rest.runs)[1..] == rest.runs;
      Assoc(before, run.state.events, EventsOf(rest.runs));
    } else {
      assert [run.state][1..] == [];
      assert run.state.events + [] == run.state.events;
    }
  }

  // ---- How a turn ends -------------------------------------------------------------------------

  /** The report of a turn whose last run ended so. */
  predicate Reports(o: TurnOutcome, run: Next) {
    run.Halt? &&
    match run.outcome
    case Completed(text, _) => o == TurnCompleted(text)
    case Handoff(tool, data, _) => o == TurnConcluded(data, FindToolCallId(run.state.events, tool))
    case Failed(error) =>
      match error
      case Cancelled => o == TurnCancelled
      case Provider(_) => o == TurnFailed(RunFailed(error), true)
      case _ => o == TurnFailed(RunFailed(error), false)
  }

  lemma {:induction false} AttemptsEnd(
      cfg: Config, ws: nat -> World, base: seq<Message>, input: Message, maxRetries: nat, attempt: nat)
    requires attempt <= maxRetries
    ensures var turn := Attempts(cfg, ws, base, input, maxRetries, attempt);
            var last := Run(cfg, ws(attempt + |turn.runs| - 1), base, input);
            && Reports(turn.outcome, last) && turn.runs[|turn.runs| - 1] == last.state
            && (ProviderFailed(last) ==> |turn.runs| == maxRetries - attempt + 1)
    decreases maxRetries - attempt
  {
    hide AgentLoop.Run, FindToolCallId;
    var run := Run(cfg, ws(attempt), base, input);
    if ProviderFailed(run) && attempt < maxRetries {
      AttemptsEnd(cfg, ws, base, input, maxRetries, attempt + 1);
      var rest := Attempts(cfg, ws, base, input, maxRetries, attempt + 1);
      assert attempt + 1 + |rest.runs| - 1 == attempt + |[run.state] + rest.runs| - 1;
    } else {
      RunsHalt(cfg, ws(attempt), base, input);
    }
  }

  /**
    A turn reports what its last attempt came to: its text, its handoff, its cancellation or
    its error, the latter recoverable exactly for a failure of the provider. Such a failure is
    only reported once every retry is used up. An agent that cannot be built fails for good,
    having asked nobody.
   */
  lemma TurnsReportTheirLastRun(
      cfg: Config, specs: seq<ToolSpec>, compiles: Json -> bool, ws: nat -> World,
      base: seq<Message>, input: Message, maxRetries: nat)
    ensures var turn := RunWithRetries(cfg, specs, compiles, ws, base, input, maxRetries);
            if Build(cfg, specs, compiles).Err? then
              turn == Turn([], TurnFailed(NotBuilt(Build(cfg, specs, compiles).error), false))
            else
              && turn.runs != []
              && var last := Run(cfg, ws(|turn.runs| - 1), base, input);
                 && Reports(turn.outcome, last) && turn.runs[|turn.runs| - 1] == last.state
                 && (turn.outcome.TurnFailed? && turn.outcome.recoverable ==> |turn.runs| == maxRetries + 1)
  {
    hide AgentLoop.Run, Attempts, FindToolCallId;
    if Build(cfg, specs, compiles).Ok? {
      AttemptsEnd(cfg, ws, base, input, maxRetries, 0);
    }
  }

  // ---- What a turn leaves in the journal -----------------------------------------------------

  /** The events a session journals for a turn: the input once, then what the attempts streamed. */
  function JournalOf(input: Message, runs: seq<State>): seq<DomainEvent> {
    [InputPersisted(input)] + CoarseAll(EventsOf(runs))
  }

  /** What the session journals when it takes the report of a turn. */
  function Closing(o: TurnOutcome): Option<DomainEvent> {
    if o.TurnCancelled? then Some(RunCancelled) else None
  }

  /** The run at `i` is the attempt of that number, and one that was retried unless it is the last. */
  ghost predicate IsAttempt(
      cfg: Config, ws: nat -> World, base: seq<Message>, input: Message, runs: seq<State>, first: nat, i: nat)
    requires i < |runs|
  {
    var run := Run(cfg, ws(first + i), base, input);
    runs[i] == run.state && (i < |runs| - 1 ==> ProviderFailed(run))
  }

  /** Each run is one of the attempts from the same history and input. */
  ghost predicate AreAttempts(
      cfg: Config, ws: nat -> World, base: seq<Message>, input: Message, runs: seq<State>, first: nat)
  {
    forall i: nat :: i < |runs| ==> IsAttempt(cfg, ws, base, input, runs, first, i)
  }

  lemma OneMoreAttempt(
      cfg: Config, ws: nat -> World, base: seq<Message>, input: Message, runs: seq<State>, first: nat)
    requires runs != [] && runs[0] == Run(cfg, ws(first), base, input).state
    requires |runs| > 1 ==> ProviderFailed(Run(cfg, ws(first), base, input))
    requires AreAttempts(cfg, ws, base, input, runs[1..], first + 1)
    ensures AreAttempts(cfg, ws, base, input, runs, first)
  {
    hide AgentLoop.Run;
    forall i: nat | i < |runs| ensures IsAttempt(cfg, ws, base, input, runs, first, i) {
      if i == 0 {
        assert first + i == first;
      } else {
        assert IsAttempt(cfg, ws, base, input, runs[1..], first + 1, i - 1);
        assert first + 1 + (i - 1) == first + i && runs[1..][i - 1] == runs[i];
      }
    }
  }

  lemma {:induction false} AttemptsAre(
      cfg: Config, ws: nat -> World, base: seq<Message>, input: Message, maxRetries: nat, attempt: nat)
    requires attempt <= maxRetries
    ensures AreAttempts(cfg, ws, base, input, Attempts(cfg, ws, base, input, maxRetries, attempt).runs, attempt)
    decreases maxRetries - attempt
  {
    hide AgentLoop.Run, Classify, AreAttempts;
    var run := Run(cfg, ws(attempt), base, input);
    var runs := Attempts(cfg, ws, base, input, maxRetries, attempt).runs;
    if ProviderFailed(run) && attempt < maxRetries {
      AttemptsAre(cfg, ws, base, input, maxRetries, attempt + 1);
      assert runs[1..] == Attempts(cfg, ws, base, input, maxRetries, attempt + 1).runs;
    } else {
      assert runs == [run.state] && runs[1..] == [];
      NoAttempts(cfg, ws, base, input, attempt + 1);
    }
    OneMoreAttempt(cfg, ws, base, input, runs, attempt);
  }

  lemma NoAttempts(cfg: Config, ws: nat -> World, base: seq<Message>, input: Message, first: nat)
    ensures AreAttempts(cfg, ws, base, input, [], first)
  {
  }

  lemma {:induction false} JournaledConcat(a: seq<Round>, b: seq<Round>)
    ensures JournaledOf(a + b) == JournaledOf(a) + JournaledOf(b)
    decreases b
  {
    hide Journaled;
    if b == [] {
      assert a + b == a;
    } else {
      var n := |a + b| - 1;
      assert (a + b)[..n] == a + b[..|b| - 1] && (a + b)[n] == b[|b| - 1];
      JournaledConcat(a, b[..|b| - 1]);
      Assoc(JournaledOf(a), JournaledOf(b[..|b| - 1]), Journaled(b[|b| - 1]));
    }
  }

  lemma LaterAttempts(
      cfg: Config, ws: nat -> World, base: seq<Message>, input: Message, runs: seq<State>, first: nat)
    requires runs != [] && AreAttempts(cfg, ws, base, input, runs, first)
    ensures AreAttempts(cfg, ws, base, input, runs[1..], first + 1)
    ensures runs[0] == Run(cfg, ws(first), base, input).state
    ensures |runs| > 1 ==> ProviderFailed(Run(cfg, ws(first), base, input))
  {
    hide AgentLoop.Run;
    assert IsAttempt(cfg, ws, base, input, runs, first, 0) && first + 0 == first;
    var later, next := runs[1..], first + 1;
    forall i: nat | i < |later| ensures IsAttempt(cfg, ws, base, input, later, next, i) {
      assert IsAttempt(cfg, ws, base, input, runs, first, i + 1);
      assert next + i == first + (i + 1) && later[i] == runs[i + 1];
    }
  }

  lemma {:induction false} AttemptsSpeak(
      cfg: Config, ws: nat -> World, base: seq<Message>, input: Message, runs: seq<State>, first: nat)
    requires AreAttempts(cfg, ws, base, input, runs, first)
    ensures Spoken(EventsOf(runs)) == JournaledOf(RoundsOf(runs))
    decreases |runs|
  {
    hide AgentLoop.Run, Spoken, JournaledOf, AreAttempts;
    if runs == [] {
      NothingSpoken();
    } else {
      AttemptShaped(cfg, ws(first), base, input);
      LaterAttempts(cfg, ws, base, input, runs, first);
      AttemptsSpeak(cfg, ws, base, input, runs[1..], first + 1);
      SpokenConcat(runs[0].events, EventsOf(runs[1..]));
      JournaledConcat(runs[0].rounds, RoundsOf(runs[1..]));
    }
  }

  lemma NothingSpoken()
    ensures Spoken([]) == [] == JournaledOf([])
  {
  }

  lemma AttemptShaped(cfg: Config, w: World, base: seq<Message>, input: Message)
    ensures Shaped(base, input, Run(cfg, w, base, input).state)
    ensures Spoken(Run(cfg, w, base, input).state.events) == JournaledOf(Run(cfg, w, base, input).state.rounds)
  {
    hide Spoken, JournaledOf, After;
    RunsAreShaped(cfg, w, base, input, cfg.maxIterations + 1);
  }

  /**
    Across provider retries the journal folds to the history before the turn, the input
    exactly once, and then what each attempt said, in order, although every attempt
    restarts from the history before the turn and emits the input again.
   */
  lemma JournalAcrossRetries(
      cfg: Config, specs: seq<ToolSpec>, compiles: Json -> bool, ws: nat -> World,
      base: seq<Message>, input: Message, maxRetries: nat)
    ensures var turn := RunWithRetries(cfg, specs, compiles, ws, base, input, maxRetries);
            && FoldEvents(base, JournalOf(input, turn.runs)) == base + [input] + JournaledOf(RoundsOf(turn.runs))
            && AreAttempts(cfg, ws, base, input, turn.runs, 0)
  {
    hide AgentLoop.Run, Attempts, Spoken;
    var turn := RunWithRetries(cfg, specs, compiles, ws, base, input, maxRetries);
    if Build(cfg, specs, compiles).Ok? {
      AttemptsAre(cfg, ws, base, input, maxRetries, 0);
    }
    AttemptsSpeak(cfg, ws, base, input, turn.runs, 0);
    JournalFolds(base, input, turn.runs);
  }

  lemma JournalFolds(base: seq<Message>, input: Message, runs: seq<State>)
    ensures FoldEvents(base, JournalOf(input, runs)) == base + [input] + Spoken(EventsOf(runs))
  {
    hide CoarseAll, EventsOf;
    FoldConcat(base, [InputPersisted(input)], CoarseAll(EventsOf(runs)));
    assert [InputPersisted(input)][..0] == [];
    FoldFrom(base + [input], CoarseAll(EventsOf(runs)));
  }

  // ---- Bounds across retries --------------------------------------------------------------------

  function CallBound(tries: nat, m: nat): nat {
    tries * m
  }

  lemma NextTry(tries: nat, m: nat)
    ensures CallBound(tries + 1, m) == CallBound(tries, m) + m
  {
  }

  lemma FewerTries(a: nat, b: nat, m: nat)
    requires a <= b
    ensures CallBound(a, m) <= CallBound(b, m)
  {
  }

  lemma {:induction false} AttemptsCalls(
      cfg: Config, ws: nat -> World, base: seq<Message>, input: Message, maxRetries: nat, attempt: nat)
    requires attempt <= maxRetries
    ensures var runs := Attempts(cfg, ws, base, input, maxRetries, attempt).runs;
            ProviderCalls(EventsOf(runs)) <= CallBound(|runs|, cfg.maxIterations)
    decreases maxRetries - attempt
  {
    hide AgentLoop.Run, ProviderCalls, Settled, Classify, CallBound;
    var run := Run(cfg, ws(attempt), base, input);
    RunsHalt(cfg, ws(attempt), base, input);
    var runs := Attempts(cfg, ws, base, input, maxRetries, attempt).runs;
    if ProviderFailed(run) && attempt < maxRetries {
      AttemptsCalls(cfg, ws, base, input, maxRetries, attempt + 1);
      assert runs == [run.state] + runs[1..];
      CallsConcat(run.state.events, EventsOf(runs[1..]));
      NextTry(|runs| - 1, cfg.maxIterations);
    } else {
      assert runs == [run.state];
      assert run.state.events + [] == run.state.events;
      NextTry(0, cfg.maxIterations);
    }
  }

  /** One completion event, with the usage of the last attempt, if the turn succeeded; else none. */
  ghost predicate CompletesOnce(turn: Turn) {
    if turn.outcome.TurnCompleted? || turn.outcome.TurnConcluded? then
      turn.runs != [] &&
      var last := turn.runs[|turn.runs| - 1];
      Charged(last) && Completions(EventsOf(turn.runs)) == [RunComplete(last.usage, |last.rounds|)]
    else Completions(EventsOf(turn.runs)) == []
  }

  lemma RunCompletes(cfg: Config, w: World, base: seq<Message>, input: Message)
    ensures var run := Run(cfg, w, base, input);
            && run.Halt?
            && CompletesOnce(Turn([run.state], Classify(run.outcome, run.state.events)))
            && (run.outcome.Failed? ==> Completions(run.state.events) == [])
  {
    hide AgentLoop.Run, ProviderCalls, Completions, Charged, HandoffJustified, FindToolCallId;
    RunsHalt(cfg, w, base, input);
    var run := Run(cfg, w, base, input);
    var turn := Turn([run.state], Classify(run.outcome, run.state.events));
    assert turn.runs[0] == run.state;
    assert EventsOf(turn.runs) == run.state.events + EventsOf([]);
    assert run.state.events + [] == run.state.events;
  }

  lemma {:induction false} AttemptsComplete(
      cfg: Config, ws: nat -> World, base: seq<Message>, input: Message, maxRetries: nat, attempt: nat)
    requires attempt <= maxRetries
    ensures CompletesOnce(Attempts(cfg, ws, base, input, maxRetries, attempt))
    decreases maxRetries - attempt
  {
    hide AgentLoop.Run, Completions, ProviderCalls, Charged, Classify, FindToolCallId;
    var run := Run(cfg, ws(attempt), base, input);
    RunCompletes(cfg, ws(attempt), base, input);
    if ProviderFailed(run) && attempt < maxRetries {
      AttemptsComplete(cfg, ws, base, input, maxRetries, attempt + 1);
      var rest := Attempts(cfg, ws, base, input, maxRetries, attempt + 1);
      assert ([run.state] + rest.runs)[1..] == rest.runs;
      CallsConcat(run.state.events, EventsOf(rest.runs));
      assert [] + Completions(EventsOf(rest.runs)) == Completions(EventsOf(rest.runs));
    }
  }

  /**
    A turn asks the provider at most `(maxRetries + 1) * maxIterations` times. It ends with
    one completion event if it succeeded and none otherwise; the usage reported is that of
    the last attempt alone.
   */
  lemma TurnBounds(
      cfg: Config, specs: seq<ToolSpec>, compiles: Json -> bool, ws: nat -> World,
      base: seq<Message>, input: Message, maxRetries: nat)
    ensures var turn := RunWithRetries(cfg, specs, compiles, ws, base, input, maxRetries);
            && ProviderCalls(EventsOf(turn.runs)) <= CallBound(maxRetries + 1, cfg.maxIterations)
            && CompletesOnce(turn)
  {
    hide Attempts, CompletesOnce, CallBound;
    if Build(cfg, specs, compiles).Ok? {
      AttemptsCalls(cfg, ws, base, input, maxRetries, 0);
      AttemptsComplete(cfg, ws, base, input, maxRetries, 0);
      FewerTries(|Attempts(cfg, ws, base, input, maxRetries, 0).runs|, maxRetries + 1, cfg.maxIterations);
    } else {
      NothingCompletes(Build(cfg, specs, compiles).error);
    }
  }

  lemma NothingCompletes(e: BuildError)
    ensures CompletesOnce(Turn([], TurnFailed(NotBuilt(e), false))) && ProviderCalls(EventsOf([])) == 0
  {
  }
}
