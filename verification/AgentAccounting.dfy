/** How often the provider is asked, what is charged, and how a run may end. */
module AgentAccounting {
  import opened Common
  import opened Conversation
  import opened AgentLoop
  import opened AgentRuns

  /** How many provider calls a stream of events shows. */
  function ProviderCalls(events: seq<Event>): nat {
    if events == [] then 0
    else ProviderCalls(events[..|events| - 1]) + if events[|events| - 1].MessageStart? then 1 else 0
  }

  function Completions(events: seq<Event>): seq<Event> {
    if events == [] then []
    else
      Completions(events[..|events| - 1])
      + if events[|events| - 1].RunComplete? then [events[|events| - 1]] else []
  }

  function InputTokens(rounds: seq<Round>): nat {
    if rounds == [] then 0
    else InputTokens(rounds[..|rounds| - 1]) + rounds[|rounds| - 1].usage.inputTokens
  }

  function OutputTokens(rounds: seq<Round>): nat {
    if rounds == [] then 0
    else OutputTokens(rounds[..|rounds| - 1]) + rounds[|rounds| - 1].usage.outputTokens
  }

  lemma {:induction false} CallsConcat(a: seq<Event>, b: seq<Event>)
    ensures ProviderCalls(a + b) == ProviderCalls(a) + ProviderCalls(b)
    ensures Completions(a + b) == Completions(a) + Completions(b)
    decreases b
  {
    if b == [] {
      assert a + b == a;
    } else {
      var n := |a + b| - 1;
      assert (a + b)[..n] == a + b[..|b| - 1] && (a + b)[n] == b[|b| - 1];
      CallsConcat(a, b[..|b| - 1]);
    }
  }

  lemma {:induction false} QuietEvents(events: seq<Event>)
    requires forall i :: 0 <= i < |events| ==> !events[i].MessageStart? && !events[i].RunComplete?
    ensures ProviderCalls(events) == 0 && Completions(events) == []
  {
    if events != [] {
      QuietEvents(events[..|events| - 1]);
    }
  }

  lemma OneEvent(e: Event)
    ensures ProviderCalls([e]) == if e.MessageStart? then 1 else 0
    ensures Completions([e]) == if e.RunComplete? then [e] else []
  {
    assert [e][..0] == [];
  }

  lemma CallEventsCount(w: World, n: nat)
    ensures ProviderCalls(CallEvents(w, n)) == 1 && Completions(CallEvents(w, n)) == []
  {
    var chunks := ChunkEvents(w.ids(n), w.chunks(n));
    CallsConcat([MessageStart(w.ids(n))], chunks);
    OneEvent(MessageStart(w.ids(n)));
    QuietEvents(chunks);
  }

  lemma {:induction false} ExecutionIsQuiet(w: World, calls: seq<Call>, done: nat)
    ensures ProviderCalls(ExecutionEvents(w, calls, done)) == 0 && Completions(ExecutionEvents(w, calls, done)) == []
    decreases |calls|
  {
    if calls != [] {
      var o := w.tools(done);
      var pair := [ToolExecuting(calls[0].id), ToolComplete(calls[0].id, o.output, o.isError)];
      QuietEvents(pair);
      ExecutionIsQuiet(w, calls[1..], done + 1);
      CallsConcat(pair, ExecutionEvents(w, calls[1..], done + 1));
    }
  }

  lemma TailCounts(cfg: Config, w: World, s: State, calls: seq<Call>, kind: Kind, usage: Usage)
    ensures var tail := TailEvents(cfg, w, s, calls, kind, usage);
            && ProviderCalls(tail) == 0
            && Completions(tail) ==
               if kind.Concluded? || kind.HandedOff? then [RunComplete(usage, s.iteration + 1)] else []
  {
    if kind.Executed? {
      ExecutionIsQuiet(w, calls, s.executions);
    } else if kind.Concluded? || kind.HandedOff? {
      OneEvent(RunComplete(usage, s.iteration + 1));
    }
  }

  lemma HeadCounts(w: World, n: nat, message: Message)
    ensures var head := CallEvents(w, n) + [MessageStop(message.id), MessageComplete(message)];
            ProviderCalls(head) == 1 && Completions(head) == []
  {
    var stop := [MessageStop(message.id), MessageComplete(message)];
    CallEventsCount(w, n);
    QuietEvents(stop);
    CallsConcat(CallEvents(w, n), stop);
  }

  lemma AdvanceCounts(cfg: Config, w: World, s: State, parts: seq<Part>, used: Usage, kind: Kind)
    ensures var s' := Advance(cfg, w, s, parts, used, kind);
            && ProviderCalls(s'.events) == ProviderCalls(s.events) + 1
            && Completions(s'.events) == Completions(s.events)
               + if kind.Concluded? || kind.HandedOff? then [RunComplete(s'.usage, s.iteration + 1)] else []
  {
    hide ProviderCalls, Completions, TailEvents, CallEvents, Calls;
    var n := s.iteration + 1;
    var message := ReplyMessage(w, n, parts);
    var head := CallEvents(w, n) + [MessageStop(message.id), MessageComplete(message)];
    var tail := TailEvents(cfg, w, s, Calls(parts), kind, AddUsage(s.usage, used));
    var s' := Advance(cfg, w, s, parts, used, kind);
    assert s'.events == s.events + (head + tail) && s'.usage == AddUsage(s.usage, used);
    hide Advance, AddUsage, ReplyMessage;
    HeadCounts(w, n, message);
    TailCounts(cfg, w, s, Calls(parts), kind, s'.usage);
    CallsConcat(head, tail);
    CallsConcat(s.events, head + tail);
    assert [] + Completions(tail) == Completions(tail);
  }

  /** Usage is the sum over the replies, as far as 32 bits hold it. */
  predicate Charged(s: State) {
    s.usage == Usage(InputTokens(s.rounds) % TWO_32, OutputTokens(s.rounds) % TWO_32)
  }

  lemma WrappedSum(a: nat, b: nat)
    ensures (a % TWO_32 + b) % TWO_32 == (a + b) % TWO_32
  {
  }

  lemma AdvanceCharged(cfg: Config, w: World, s: State, parts: seq<Part>, used: Usage, kind: Kind)
    requires Charged(s)
    ensures Charged(Advance(cfg, w, s, parts, used, kind))
  {
    var r := RoundOf(cfg, w, s, parts, used, kind);
    assert (s.rounds + [r])[..|s.rounds|] == s.rounds;
    WrappedSum(InputTokens(s.rounds), used.inputTokens);
    WrappedSum(OutputTokens(s.rounds), used.outputTokens);
  }

  /** The account of a run that is still going. */
  ghost predicate Running(cfg: Config, s: State) {
    && Charged(s)
    && s.iteration == |s.rounds| == ProviderCalls(s.events) <= cfg.maxIterations
    && Completions(s.events) == []
  }

  /** A handoff rests on a sole call of the handoff tool whose input is valid. */
  predicate HandoffJustified(cfg: Config, w: World, o: Outcome, calls: seq<Call>) {
    o.Handoff? ==>
      && cfg.handoffTool == Some(o.tool) && |calls| == 1
      && calls[0].name == o.tool && calls[0].input == o.data && w.valid(o.data)
  }

  /** The account of a run that has ended with `o`. */
  ghost predicate Settled(cfg: Config, w: World, o: Outcome, s: State) {
    && Charged(s)
    && ProviderCalls(s.events) == s.iteration <= cfg.maxIterations
    && (match o
        case Failed(_) => Completions(s.events) == []
        case Completed(_, usage) =>
          cfg.handoffTool.None? && usage == s.usage && Completions(s.events) == [RunComplete(s.usage, |s.rounds|)]
        case Handoff(_, _, usage) =>
          && usage == s.usage && Completions(s.events) == [RunComplete(s.usage, |s.rounds|)]
          && s.rounds != [] && HandoffJustified(cfg, w, o, CallsOf(s.rounds[|s.rounds| - 1].message)))
  }

  lemma ReplySettles(cfg: Config, w: World, s: State, parts: seq<Part>, used: Usage, kind: Kind)
    requires Running(cfg, s) && s.iteration < cfg.maxIterations && kind == Judge(cfg, w, s, Calls(parts))
    ensures var s' := Advance(cfg, w, s, parts, used, kind);
            if EndsRun(kind) then Settled(cfg, w, OutcomeOf(cfg, w, parts, kind, s'.usage), s')
            else Running(cfg, s') && s'.iteration == s.iteration + 1
  {
    hide ProviderCalls, Completions;
    AdvanceCounts(cfg, w, s, parts, used, kind);
    AdvanceCharged(cfg, w, s, parts, used, kind);
    if kind.HandedOff? {
      assert |Calls(parts)| == 1;
    }
  }

  lemma ErrorSettles(cfg: Config, w: World, s: State)
    requires Running(cfg, s) && s.iteration < cfg.maxIterations && !w.cancelled(s.checks)
    requires w.replies(s.iteration + 1).ProviderError?
    ensures var next := OneRound(cfg, w, s); next.Halt? && Settled(cfg, w, next.outcome, next.state)
  {
    CallEventsCount(w, s.iteration + 1);
    CallsConcat(s.events, CallEvents(w, s.iteration + 1));
  }

  lemma RoundAccounts(cfg: Config, w: World, s: State)
    requires Running(cfg, s)
    ensures var next := OneRound(cfg, w, s);
            match next
            case Continue(s') => Running(cfg, s') && s'.iteration == s.iteration + 1
            case Halt(o, s') => Settled(cfg, w, o, s')
  {
    hide Judge, Advance, ProviderCalls, Completions, OutcomeOf;
    if !w.cancelled(s.checks) && s.iteration < cfg.maxIterations {
      match w.replies(s.iteration + 1)
      case Response(parts, used) => ReplySettles(cfg, w, s, parts, used, Judge(cfg, w, s, Calls(parts)));
      case ProviderError(_) => ErrorSettles(cfg, w, s);
    }
  }

  lemma StartRuns(cfg: Config, base: seq<Message>, input: Message)
    ensures Running(cfg, Start(base, input))
  {
    OneEvent(InputMessage(input));
  }

  /**
    At every moment of a run and at its end: provider calls never exceed `maxIterations`;
    the usage is the sum over the replies; a success carries exactly one completion event,
    with that usage and the number of replies, a failure none; an agent with a handoff tool
    never merely completes, and hands off only on a sole call with valid input.
   */
  lemma {:induction false} RunsAccount(cfg: Config, w: World, base: seq<Message>, input: Message, n: nat)
    ensures match After(cfg, w, Start(base, input), n)
            case Continue(s) => Running(cfg, s) && s.iteration == n
            case Halt(o, s) => Settled(cfg, w, o, s)
  {
    hide OneRound, Running, Settled;
    if n == 0 {
      StartRuns(cfg, base, input);
    } else {
      RunsAccount(cfg, w, base, input, n - 1);
      match After(cfg, w, Start(base, input), n - 1)
      case Halt(_, _) =>
      case Continue(s) => RoundAccounts(cfg, w, s);
    }
  }

  /** Every run halts, however the provider answers. */
  lemma RunsHalt(cfg: Config, w: World, base: seq<Message>, input: Message)
    ensures var run := Run(cfg, w, base, input);
            && run.Halt?
            && Settled(cfg, w, run.outcome, run.state)
            && ProviderCalls(run.state.events) <= cfg.maxIterations
  {
    RunsAccount(cfg, w, base, input, cfg.maxIterations + 1);
  }

  /** The reported usage is the true sum exactly when both sums fit in 32 bits. */
  lemma UsageIsSumIff(cfg: Config, w: World, base: seq<Message>, input: Message)
    ensures var s := Run(cfg, w, base, input).state;
            s.usage == Usage(InputTokens(s.rounds), OutputTokens(s.rounds)) <==>
            InputTokens(s.rounds) < TWO_32 && OutputTokens(s.rounds) < TWO_32
  {
    RunsHalt(cfg, w, base, input);
  }
}
