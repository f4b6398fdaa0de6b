/** What holds of every run of the agent loop. */
module AgentRuns {
  import opened Common
  import opened Conversation
  import opened AgentLoop
  import opened AgentEvents

  // ---- The rounds of a run, as conversation --------------------------------------------

  /** What a round leaves in the live history. */
  function Live(r: Round): seq<Message> {
    [r.message] + r.added
  }

  /** What of a round is journaled: nudges and rejections are synthesized and never emitted. */
  function Journaled(r: Round): seq<Message> {
    [r.message] + if r.kind.Executed? then r.added else []
  }

  function LiveOf(rounds: seq<Round>): seq<Message> {
    if rounds == [] then [] else LiveOf(rounds[..|rounds| - 1]) + Live(rounds[|rounds| - 1])
  }

  function JournaledOf(rounds: seq<Round>): seq<Message> {
    if rounds == [] then [] else JournaledOf(rounds[..|rounds| - 1]) + Journaled(rounds[|rounds| - 1])
  }

  /** The calls of a round are answered, unless the round ended the run. */
  predicate RoundShape(r: Round) {
    && r.message.role.Assistant?
    && match r.kind
       case Executed => CallsOf(r.message) != [] && AnswersInOrder(r.added, CallsOf(r.message))
       case Nudged => CallsOf(r.message) != [] && AnswersInOrder(r.added, CallsOf(r.message))
       case Rejected => CallsOf(r.message) != [] && AnswersInOrder(r.added, CallsOf(r.message))
       case Missing =>
         && CallsOf(r.message) == []
         && |r.added| == 1 && r.added[0].role.User? && PartResults(r.added[0].parts) == {}
       case Concluded => CallsOf(r.message) == [] && r.added == []
       case NeverHandedOff => CallsOf(r.message) == [] && r.added == []
       case _ => CallsOf(r.message) != [] && r.added == []
  }

  ghost predicate Shaped(base: seq<Message>, input: Message, s: State) {
    && s.history == base + [input] + LiveOf(s.rounds)
    && Spoken(s.events) == JournaledOf(s.rounds)
    && forall i :: 0 <= i < |s.rounds| ==> RoundShape(s.rounds[i])
  }

  lemma ExecutionPairSpeaks(callId: string, o: ToolOutcome)
    ensures Spoken([ToolExecuting(callId), ToolComplete(callId, o.output, o.isError)]) ==
            [ResultMessage(callId, o.output, o.isError)]
  {
    hide Spoken;
    SpokenTwo(ToolExecuting(callId), ToolComplete(callId, o.output, o.isError));
    SpokenOne(ToolExecuting(callId));
    SpokenOne(ToolComplete(callId, o.output, o.isError));
  }

  lemma {:induction false} ExecutionSpeaks(w: World, calls: seq<Call>, done: nat)
    ensures Spoken(ExecutionEvents(w, calls, done)) == ExecutionMessages(w, calls, done)
    decreases |calls|
  {
    if calls != [] {
      var o := w.tools(done);
      ExecutionSpeaks(w, calls[1..], done + 1);
      ExecutionPairSpeaks(calls[0].id, o);
      SpokenConcat(
        [ToolExecuting(calls[0].id), ToolComplete(calls[0].id, o.output, o.isError)],
        ExecutionEvents(w, calls[1..], done + 1));
    }
  }

  lemma CallEventsVanish(w: World, n: nat)
    ensures CoarseAll(CallEvents(w, n)) == [] && Spoken(CallEvents(w, n)) == []
  {
    NoiseVanishes(CallEvents(w, n));
  }

  lemma TailSpeaks(cfg: Config, w: World, s: State, calls: seq<Call>, kind: Kind, usage: Usage)
    ensures Spoken(TailEvents(cfg, w, s, calls, kind, usage)) ==
            if kind.Executed? then Added(cfg, w, s, calls, kind) else []
  {
    hide Spoken, ExecutionEvents, ExecutionMessages;
    if kind.Executed? {
      ExecutionSpeaks(w, calls, s.executions);
    } else if kind.Concluded? || kind.HandedOff? {
      SpokenOne(RunComplete(usage, s.iteration + 1));
    } else {
      NoiseVanishes([]);
    }
  }

  lemma HeadSpeaks(w: World, n: nat, message: Message)
    ensures Spoken(CallEvents(w, n) + [MessageStop(message.id), MessageComplete(message)]) == [message]
  {
    hide Spoken, CallEvents;
    CallEventsVanish(w, n);
    SpokenConcat(CallEvents(w, n), [MessageStop(message.id), MessageComplete(message)]);
    SpokenTwo(MessageStop(message.id), MessageComplete(message));
    SpokenOne(MessageStop(message.id));
    SpokenOne(MessageComplete(message));
  }

  /** A reply without calls is final text or a missing handoff; any other reply has calls. */
  predicate KindFits(kind: Kind, calls: seq<Call>) {
    calls == [] <==> (kind.Concluded? || kind.NeverHandedOff? || kind.Missing?)
  }

  lemma JudgementFits(cfg: Config, w: World, s: State, calls: seq<Call>)
    ensures KindFits(Judge(cfg, w, s, calls), calls)
  {
  }

  /** The round that `Advance` records. */
  function RoundOf(cfg: Config, w: World, s: State, parts: seq<Part>, used: Usage, kind: Kind): Round {
    Round(ReplyMessage(w, s.iteration + 1, parts), used, kind, Added(cfg, w, s, Calls(parts), kind))
  }

  lemma RoundOfShape(cfg: Config, w: World, s: State, parts: seq<Part>, used: Usage, kind: Kind)
    requires KindFits(kind, Calls(parts))
    ensures RoundShape(RoundOf(cfg, w, s, parts, used, kind))
  {
    if kind.Missing? {
      var nudge := MissingMessage(w, HandoffName(cfg), s.iteration + 1);
      assert nudge.parts == [nudge.parts[0]];
    }
  }

  lemma EventsOfRound(cfg: Config, w: World, s: State, parts: seq<Part>, used: Usage, kind: Kind)
    ensures Spoken(Advance(cfg, w, s, parts, used, kind).events) ==
            Spoken(s.events) + Journaled(RoundOf(cfg, w, s, parts, used, kind))
  {
    hide Spoken, TailEvents, CallEvents, Added, Calls;
    var n := s.iteration + 1;
    var message := ReplyMessage(w, n, parts);
    var head := CallEvents(w, n) + [MessageStop(message.id), MessageComplete(message)];
    var tail := TailEvents(cfg, w, s, Calls(parts), kind, AddUsage(s.usage, used));
    HeadSpeaks(w, n, message);
    TailSpeaks(cfg, w, s, Calls(parts), kind, AddUsage(s.usage, used));
    SpokenConcat(head, tail);
    SpokenConcat(s.events, head + tail);
  }

  lemma AdvanceShaped(
      cfg: Config, w: World, base: seq<Message>, input: Message, s: State, parts: seq<Part>, used: Usage, kind: Kind)
    requires Shaped(base, input, s) && KindFits(kind, Calls(parts))
    ensures Shaped(base, input, Advance(cfg, w, s, parts, used, kind))
  {
    hide Spoken, TailEvents, CallEvents, Added, Calls, RoundShape;
    var s' := Advance(cfg, w, s, parts, used, kind);
    var r := RoundOf(cfg, w, s, parts, used, kind);
    RoundOfShape(cfg, w, s, parts, used, kind);
    EventsOfRound(cfg, w, s, parts, used, kind);
    assert s'.rounds == s.rounds + [r];
    assert s'.rounds[..|s.rounds|] == s.rounds;
    Assoc(s.history, [r.message], r.added);
    Assoc(base + [input], LiveOf(s.rounds), Live(r));
  }

  /** Events that journal nothing leave the shape alone. */
  lemma NoiseShaped(base: seq<Message>, input: Message, s: State, s': State, noise: seq<Event>)
    requires Shaped(base, input, s) && Spoken(noise) == []
    requires s'.history == s.history && s'.rounds == s.rounds && s'.events == s.events + noise
    ensures Shaped(base, input, s')
  {
    SpokenConcat(s.events, noise);
    assert Spoken(s.events) + [] == Spoken(s.events);
  }

  lemma ReplyStep(cfg: Config, w: World, s: State, parts: seq<Part>, used: Usage) returns (kind: Kind)
    requires !w.cancelled(s.checks) && s.iteration < cfg.maxIterations
    requires w.replies(s.iteration + 1) == Response(parts, used)
    ensures KindFits(kind, Calls(parts)) && kind == Judge(cfg, w, s, Calls(parts))
    ensures OneRound(cfg, w, s).state == Advance(cfg, w, s, parts, used, kind)
    ensures OneRound(cfg, w, s).Halt? <==> EndsRun(kind)
  {
    JudgementFits(cfg, w, s, Calls(parts));
    hide Judge, Advance, OutcomeOf, Calls, KindFits, EndsRun;
    kind := Judge(cfg, w, s, Calls(parts));
  }

  lemma ReplyShaped(
      cfg: Config, w: World, base: seq<Message>, input: Message, s: State, parts: seq<Part>, used: Usage)
    requires Shaped(base, input, s)
    requires !w.cancelled(s.checks) && s.iteration < cfg.maxIterations
    requires w.replies(s.iteration + 1) == Response(parts, used)
    ensures Shaped(base, input, OneRound(cfg, w, s).state)
  {
    hide OneRound, Advance, Shaped, KindFits, Judge;
    var kind := ReplyStep(cfg, w, s, parts, used);
    AdvanceShaped(cfg, w, base, input, s, parts, used, kind);
  }

  lemma ErrorShaped(cfg: Config, w: World, base: seq<Message>, input: Message, s: State)
    requires Shaped(base, input, s)
    requires !w.cancelled(s.checks) && s.iteration < cfg.maxIterations
    requires w.replies(s.iteration + 1).ProviderError?
    ensures Shaped(base, input, OneRound(cfg, w, s).state)
  {
    hide Shaped, CallEvents, Spoken, CoarseAll, Advance, Judge;
    CallEventsVanish(w, s.iteration + 1);
    NoiseShaped(base, input, s, OneRound(cfg, w, s).state, CallEvents(w, s.iteration + 1));
  }

  lemma RoundShaped(cfg: Config, w: World, base: seq<Message>, input: Message, s: State)
    requires Shaped(base, input, s)
    ensures Shaped(base, input, OneRound(cfg, w, s).state)
  {
    hide Shaped, Judge, Advance;
    if !w.cancelled(s.checks) && s.iteration < cfg.maxIterations {
      match w.replies(s.iteration + 1)
      case Response(parts, used) => ReplyShaped(cfg, w, base, input, s, parts, used);
      case ProviderError(_) => ErrorShaped(cfg, w, base, input, s);
    }
  }

  /** A halted run halted in one particular round. */
  lemma {:induction false} LastRound(cfg: Config, w: World, start: State, n: nat) returns (m: nat, s: State)
    requires After(cfg, w, start, n).Halt?
    ensures m < n && After(cfg, w, start, m) == Continue(s)
    ensures After(cfg, w, start, n) == OneRound(cfg, w, s)
  {
    hide OneRound;
    match After(cfg, w, start, n - 1)
    case Halt(_, _) => m, s := LastRound(cfg, w, start, n - 1);
    case Continue(before) => m, s := n - 1, before;
  }

  lemma StartShaped(base: seq<Message>, input: Message)
    ensures Shaped(base, input, Start(base, input))
  {
    SpokenOne(InputMessage(input));
    assert base + [input] + [] == base + [input];
  }

  /** Every state a run passes through, and the one it halts in. */
  lemma {:induction false} RunsAreShaped(cfg: Config, w: World, base: seq<Message>, input: Message, n: nat)
    ensures Shaped(base, input, After(cfg, w, Start(base, input), n).state)
  {
    hide OneRound, Shaped;
    var start := Start(base, input);
    if n == 0 {
      StartShaped(base, input);
    } else {
      RunsAreShaped(cfg, w, base, input, n - 1);
      match After(cfg, w, start, n - 1)
      case Halt(_, _) =>
      case Continue(s) => RoundShaped(cfg, w, base, input, s);
    }
  }

  lemma AdvanceRecords(cfg: Config, w: World, s: State, parts: seq<Part>, used: Usage, kind: Kind)
    ensures Advance(cfg, w, s, parts, used, kind).rounds == s.rounds + [RoundOf(cfg, w, s, parts, used, kind)]
    ensures RoundOf(cfg, w, s, parts, used, kind).kind == kind
  {
    hide TailEvents, Added, Fingerprint;
  }

  /** A round adds at most one entry to the record, and one that ends the run halts it. */
  lemma RoundsGrow(cfg: Config, w: World, s: State)
    ensures var next := OneRound(cfg, w, s);
            || (next.Halt? && next.state.rounds == s.rounds)
            || (exists r :: next.state.rounds == s.rounds + [r] && (EndsRun(r.kind) <==> next.Halt?))
  {
    hide Advance, Judge, EndsRun;
    if !w.cancelled(s.checks) && s.iteration < cfg.maxIterations && w.replies(s.iteration + 1).Response? {
      var reply := w.replies(s.iteration + 1);
      var kind := ReplyStep(cfg, w, s, reply.parts, reply.usage);
      AdvanceRecords(cfg, w, s, reply.parts, reply.usage, kind);
    }
  }

  predicate GoingOn(rounds: seq<Round>) {
    forall i :: 0 <= i < |rounds| ==> !EndsRun(rounds[i].kind)
  }

  /** Only the last round of a run can be one that ends it, and only once the run has halted. */
  lemma {:induction false} RunningRounds(cfg: Config, w: World, start: State, n: nat)
    requires start.rounds == []
    ensures var next := After(cfg, w, start, n);
            var rounds := next.state.rounds;
            && (next.Continue? ==> GoingOn(rounds))
            && (rounds != [] ==> GoingOn(rounds[..|rounds| - 1]))
  {
    hide OneRound;
    if n > 0 {
      RunningRounds(cfg, w, start, n - 1);
      match After(cfg, w, start, n - 1)
      case Halt(_, _) =>
      case Continue(s) => RoundsGrow(cfg, w, s);
    }
  }

  // ---- Every provider request is well formed ------------------------------------------------

  lemma LiveRoundWellFormed(r: Round)
    requires RoundShape(r) && !EndsRun(r.kind)
    ensures WellFormed(Live(r))
  {
    if r.kind.Missing? {
      assert Live(r) == [r.message] + [r.added[0]];
      WellFormedTurn(r.message, []);
      assert [r.message] + [] == [r.message];
      WellFormedUser(r.added[0]);
      WellFormedFront([r.message], [r.added[0]]);
    } else {
      WellFormedTurn(r.message, r.added);
    }
  }

  lemma WellFormedUser(m: Message)
    requires m.role.User?
    ensures WellFormed([m])
  {
    assert [m][1..] == [];
  }

  lemma {:induction false} LiveWellFormed(rounds: seq<Round>)
    requires forall i :: 0 <= i < |rounds| ==> RoundShape(rounds[i]) && !EndsRun(rounds[i].kind)
    ensures WellFormed(LiveOf(rounds))
  {
    if rounds != [] {
      var n := |rounds| - 1;
      LiveWellFormed(rounds[..n]);
      LiveRoundWellFormed(rounds[n]);
      WellFormedFront(LiveOf(rounds[..n]), Live(rounds[n]));
    }
  }

  /**
    Whenever the loop is about to ask the provider, each assistant message of the history
    is followed by exactly one result per tool call, in order, and results stand nowhere else.
   */
  lemma RequestsWellFormed(cfg: Config, w: World, base: seq<Message>, input: Message, n: nat)
    requires WellFormed(base + [input])
    requires After(cfg, w, Start(base, input), n).Continue?
    ensures var h := After(cfg, w, Start(base, input), n).state.history;
            WellFormed(h) && forall i :: 0 <= i < |h| && !h[i].role.Tool? ==> AnsweredAt(h, i)
  {
    var s := After(cfg, w, Start(base, input), n).state;
    RunsAreShaped(cfg, w, base, input, n);
    RunningRounds(cfg, w, Start(base, input), n);
    LiveWellFormed(s.rounds);
    WellFormedFront(base + [input], LiveOf(s.rounds));
    forall i | 0 <= i < |s.history| && !s.history[i].role.Tool? ensures AnsweredAt(s.history, i) {
      assert s.history[0..] == s.history;
      WellFormedMeans(s.history, 0, i);
    }
  }

  // ---- The journaled conversation against the live one -----------------------------------------

  /** The journaled conversation is the live one with the synthesized messages left out. */
  lemma JournaledAgainstLive(cfg: Config, w: World, base: seq<Message>, input: Message, n: nat)
    ensures var s := After(cfg, w, Start(base, input), n).state;
            && s.history == base + [input] + LiveOf(s.rounds)
            && FoldEvents(base + [input], CoarseAll(s.events)) == base + [input] + JournaledOf(s.rounds)
  {
    RunsAreShaped(cfg, w, base, input, n);
    FoldFrom(base + [input], CoarseAll(After(cfg, w, Start(base, input), n).state.events));
  }

  function Synthesized(rounds: seq<Round>): nat {
    if rounds == [] then 0
    else
      var last := rounds[|rounds| - 1];
      Synthesized(rounds[..|rounds| - 1]) + if last.kind.Executed? then 0 else |last.added|
  }

  lemma {:induction false} JournaledLength(rounds: seq<Round>)
    ensures |LiveOf(rounds)| == |JournaledOf(rounds)| + Synthesized(rounds)
    ensures (forall i :: 0 <= i < |rounds| ==> rounds[i].kind.Executed? || rounds[i].added == []) <==>
            Synthesized(rounds) == 0
    ensures Synthesized(rounds) == 0 ==> LiveOf(rounds) == JournaledOf(rounds)
  {
    if rounds != [] {
      var n := |rounds| - 1;
      JournaledLength(rounds[..n]);
      assert forall i :: 0 <= i < n ==> rounds[..n][i] == rounds[i];
      if Synthesized(rounds) == 0 {
        assert Live(rounds[n]) == Journaled(rounds[n]);
      }
    }
  }

  /** Recovery sees the live conversation exactly when no round was nudged, rejected or asked to hand off. */
  lemma JournaledIsLiveIff(cfg: Config, w: World, base: seq<Message>, input: Message, n: nat)
    ensures var s := After(cfg, w, Start(base, input), n).state;
            FoldEvents(base + [input], CoarseAll(s.events)) == s.history <==>
            forall i :: 0 <= i < |s.rounds| ==>
              !s.rounds[i].kind.Nudged? && !s.rounds[i].kind.Rejected? && !s.rounds[i].kind.Missing?
  {
    var s := After(cfg, w, Start(base, input), n).state;
    JournaledAgainstLive(cfg, w, base, input, n);
    RunsAreShaped(cfg, w, base, input, n);
    JournaledLength(s.rounds);
    forall i | 0 <= i < |s.rounds|
      ensures (s.rounds[i].kind.Executed? || s.rounds[i].added == []) <==>
              !s.rounds[i].kind.Nudged? && !s.rounds[i].kind.Rejected? && !s.rounds[i].kind.Missing?
    {
      assert RoundShape(s.rounds[i]);
    }
    if Synthesized(s.rounds) > 0 {
      assert |base + [input] + LiveOf(s.rounds)| != |base + [input] + JournaledOf(s.rounds)|;
    }
  }
}
