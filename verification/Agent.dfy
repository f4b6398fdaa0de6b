/** The agent as an object: it updates its history in place and reports to a sink as it goes. */
module Agents {
  import opened Common
  import opened Conversation
  import opened AgentLoop

  /** Receives every event of a run, in emission order. */
  class EventSink {
    var emitted: seq<Event>

    constructor ()
      ensures emitted == []
    {
      emitted := [];
    }

    method Emit(e: Event)
      modifies this
      ensures emitted == old(emitted) + [e]
    {
      emitted := emitted + [e];
    }
  }

  lemma {:induction false} HaltedStays(cfg: Config, w: World, start: State, n: nat, later: nat)
    requires After(cfg, w, start, n).Halt? && n <= later
    ensures After(cfg, w, start, later) == After(cfg, w, start, n)
    decreases later
  {
    hide OneRound;
    if n < later {
      HaltedStays(cfg, w, start, n, later - 1);
    }
  }

  /** A run that is still going after `n` rounds and then halts has its outcome. */
  lemma HaltsNext(cfg: Config, w: World, base: seq<Message>, input: Message, s: State)
    requires After(cfg, w, Start(base, input), s.iteration) == Continue(s) && s.iteration <= cfg.maxIterations
    requires OneRound(cfg, w, s).Halt?
    ensures Run(cfg, w, base, input) == OneRound(cfg, w, s)
  {
    hide OneRound;
    assert After(cfg, w, Start(base, input), s.iteration + 1) == OneRound(cfg, w, s);
    HaltedStays(cfg, w, Start(base, input), s.iteration + 1, cfg.maxIterations + 1);
  }

  /** A reply judged to be of `kind` moves the run on, or ends it. */
  lemma RoundIs(cfg: Config, w: World, s: State, parts: seq<Part>, used: Usage, kind: Kind)
    requires !w.cancelled(s.checks) && s.iteration < cfg.maxIterations
    requires w.replies(s.iteration + 1) == Response(parts, used)
    requires kind == Judge(cfg, w, s, Calls(parts))
    ensures var s' := Advance(cfg, w, s, parts, used, kind);
            OneRound(cfg, w, s) ==
            if EndsRun(kind) then Halt(OutcomeOf(cfg, w, parts, kind, s'.usage), s') else Continue(s')
  {
    hide Judge, Advance, OutcomeOf, Calls;
  }

  function ExecutionPair(call: Call, o: ToolOutcome): seq<Event> {
    [ToolExecuting(call.id), ToolComplete(call.id, o.output, o.isError)]
  }

  lemma ExecutionStep(w: World, h: seq<Message>, es: seq<Event>, calls: seq<Call>, i: nat, done: nat)
    requires i < |calls|
    ensures var o := w.tools(done + i);
            && h + ExecutionMessages(w, calls[i..], done + i) ==
               h + [ResultMessage(calls[i].id, o.output, o.isError)]
               + ExecutionMessages(w, calls[i + 1..], done + (i + 1))
            && es + ExecutionEvents(w, calls[i..], done + i) ==
               es + ExecutionPair(calls[i], o) + ExecutionEvents(w, calls[i + 1..], done + (i + 1))
  {
    var o := w.tools(done + i);
    assert calls[i..][1..] == calls[i + 1..];
    Assoc(h, [ResultMessage(calls[i].id, o.output, o.isError)], ExecutionMessages(w, calls[i + 1..], done + (i + 1)));
    Assoc(es, ExecutionPair(calls[i], o), ExecutionEvents(w, calls[i + 1..], done + (i + 1)));
  }

  lemma ExecutionEnd(w: World, h: seq<Message>, es: seq<Event>, done: nat)
    ensures h + ExecutionMessages(w, [], done) == h && es + ExecutionEvents(w, [], done) == es
  {
  }

  lemma AtStart(cfg: Config, w: World, base: seq<Message>, input: Message)
    ensures After(cfg, w, Start(base, input), 0) == Continue(Start(base, input))
  {
  }

  lemma HaltsBeforeAsking(cfg: Config, w: World, base: seq<Message>, input: Message, s: State)
    requires After(cfg, w, Start(base, input), s.iteration) == Continue(s) && s.iteration <= cfg.maxIterations
    requires w.cancelled(s.checks) || s.iteration >= cfg.maxIterations
    ensures Run(cfg, w, base, input) ==
            Halt(Failed(if w.cancelled(s.checks) then Cancelled else MaxIterationsExceeded(cfg.maxIterations)), s)
  {
    hide After, Run, Judge, Advance;
    HaltsNext(cfg, w, base, input, s);
  }

  lemma HaltsOnError(cfg: Config, w: World, base: seq<Message>, input: Message, s: State, before: seq<Event>)
    requires After(cfg, w, Start(base, input), s.iteration) == Continue(s) && s.iteration < cfg.maxIterations
    requires !w.cancelled(s.checks) && w.replies(s.iteration + 1).ProviderError?
    ensures var run := Run(cfg, w, base, input);
            && run == Halt(Failed(Provider(w.replies(s.iteration + 1).error)), run.state)
            && run.state.history == s.history
            && before + run.state.events == before + s.events + CallEvents(w, s.iteration + 1)
  {
    hide After, Run, Judge, Advance, CallEvents;
    HaltsNext(cfg, w, base, input, s);
    Assoc(before, s.events, CallEvents(w, s.iteration + 1));
  }

  /** Everything emitted up to and including the reply. */
  ghost function Asked(w: World, s: State, before: seq<Event>, n: nat, message: Message): seq<Event> {
    before + (s.events + (CallEvents(w, n) + [MessageStop(message.id), MessageComplete(message)]))
  }

  lemma AskedIs(w: World, s: State, before: seq<Event>, n: nat, message: Message)
    ensures Asked(w, s, before, n, message) ==
            before + s.events + CallEvents(w, n) + [MessageStop(message.id)] + [MessageComplete(message)]
  {
    hide CallEvents;
    Assoc(before + s.events + CallEvents(w, n), [MessageStop(message.id)], [MessageComplete(message)]);
    Assoc(before + s.events, CallEvents(w, n), [MessageStop(message.id), MessageComplete(message)]);
    Assoc(before, s.events, CallEvents(w, n) + [MessageStop(message.id), MessageComplete(message)]);
  }

  /** What is left to do once the reply is in, whatever it is judged to be. */
  lemma Outlook(
      cfg: Config, w: World, base: seq<Message>, input: Message, s: State, parts: seq<Part>, used: Usage,
      before: seq<Event>)
    requires After(cfg, w, Start(base, input), s.iteration) == Continue(s) && s.iteration < cfg.maxIterations
    requires !w.cancelled(s.checks) && w.replies(s.iteration + 1) == Response(parts, used)
    ensures var calls := Calls(parts);
            var kind := Judge(cfg, w, s, calls);
            var next := Advance(cfg, w, s, parts, used, kind);
            var n := s.iteration + 1;
            var message := ReplyMessage(w, n, parts);
            var usage := AddUsage(s.usage, used);
            && (if EndsRun(kind) then Run(cfg, w, base, input) == Halt(OutcomeOf(cfg, w, parts, kind, usage), next)
                else After(cfg, w, Start(base, input), n) == Continue(next))
            && next.history == s.history + [message] + Added(cfg, w, s, calls, kind)
            && before + next.events == Asked(w, s, before, n, message) + TailEvents(cfg, w, s, calls, kind, usage)
            && next == State(
                 next.history, next.events, usage, n,
                 if Counted(kind) then Push(s.recent, Fingerprint(w, calls), cfg.stuckThreshold) else s.recent,
                 if kind.Rejected? then s.handoffRetries + 1 else s.handoffRetries,
                 if kind.Missing? then s.missingRetries + 1 else s.missingRetries,
                 if kind.Executed? || kind.CancelledLate? then s.checks + 2 else s.checks + 1,
                 if kind.Executed? then s.executions + |calls| else s.executions,
                 next.rounds)
  {
    hide After, Run, Judge, OutcomeOf, CallEvents, Calls, Added, TailEvents, Push, Fingerprint, OneRound;
    var kind := Judge(cfg, w, s, Calls(parts));
    var n := s.iteration + 1;
    var message := ReplyMessage(w, n, parts);
    var head := CallEvents(w, n) + [MessageStop(message.id), MessageComplete(message)];
    var tail := TailEvents(cfg, w, s, Calls(parts), kind, AddUsage(s.usage, used));
    RoundIs(cfg, w, s, parts, used, kind);
    if EndsRun(kind) {
      HaltsNext(cfg, w, base, input, s);
    } else {
      GoesOn(cfg, w, base, input, s);
    }
    Assoc(s.events, head, tail);
    Assoc(before, s.events + head, tail);
  }

  /** Which kinds of rounds each sort of reply can lead to. */
  lemma JudgedBy(cfg: Config, w: World, s: State, calls: seq<Call>)
    ensures var kind := Judge(cfg, w, s, calls);
            var handoff := cfg.handoffTool.Some? && FindCall(calls, cfg.handoffTool.value).Some?;
            && (kind.Missing? ==> calls == [])
            && (kind.Rejected? ==> calls != [] && handoff)
            && (Counted(kind) <==> calls != [] && !handoff)
  {
    hide FindCall, Fingerprint, Push;
  }

  lemma GoesOn(cfg: Config, w: World, base: seq<Message>, input: Message, s: State)
    requires After(cfg, w, Start(base, input), s.iteration) == Continue(s)
    ensures After(cfg, w, Start(base, input), s.iteration + 1) == OneRound(cfg, w, s)
  {
    hide OneRound;
  }

  lemma TakeOneMore<T>(before: seq<T>, all: seq<T>, i: nat)
    requires i < |all|
    ensures before + all[..i + 1] == before + all[..i] + [all[i]]
  {
  }

  class Agent {
    const cfg: Config
    const world: World
    var history: seq<Message>

    constructor (cfg: Config, world: World, history: seq<Message>)
      ensures this.cfg == cfg && this.world == world && this.history == history
    {
      this.cfg := cfg;
      this.world := world;
      this.history := history;
    }

    /** Asks the provider for its `n`-th reply; it streams its pieces to the sink meanwhile. */
    method Ask(n: nat, sink: EventSink) returns (reply: Reply)
      modifies sink
      ensures reply == world.replies(n)
      ensures sink.emitted == old(sink.emitted) + CallEvents(world, n)
    {
      sink.Emit(MessageStart(world.ids(n)));
      var pieces := world.chunks(n);
      ghost var before := sink.emitted;
      var i := 0;
      while i < |pieces|
        invariant 0 <= i <= |pieces|
        invariant before + ChunkEvents(world.ids(n), pieces) ==
                  sink.emitted + ChunkEvents(world.ids(n), pieces[i..])
      {
        Assoc(sink.emitted, [Chunk(world.ids(n), pieces[i])], ChunkEvents(world.ids(n), pieces[i + 1..]));
        assert pieces[i..][1..] == pieces[i + 1..];
        sink.Emit(Chunk(world.ids(n), pieces[i]));
        i := i + 1;
      }
      assert sink.emitted + [] == sink.emitted;
      Assoc(old(sink.emitted), [MessageStart(world.ids(n))], ChunkEvents(world.ids(n), pieces));
      reply := world.replies(n);
    }

    method ExecuteOne(call: Call, o: ToolOutcome, sink: EventSink)
      modifies this, sink
      ensures history == old(history) + [ResultMessage(call.id, o.output, o.isError)]
      ensures sink.emitted == old(sink.emitted) + ExecutionPair(call, o)
    {
      sink.Emit(ToolExecuting(call.id));
      sink.Emit(ToolComplete(call.id, o.output, o.isError));
      history := history + [ResultMessage(call.id, o.output, o.isError)];
    }

    /** Executes the calls in order; failures become error results. */
    method Execute(calls: seq<Call>, done: nat, sink: EventSink)
      modifies this, sink
      ensures history == old(history) + ExecutionMessages(world, calls, done)
      ensures sink.emitted == old(sink.emitted) + ExecutionEvents(world, calls, done)
    {
      hide ExecutionMessages, ExecutionEvents, ExecutionPair;
      var i := 0;
      assert calls[0..] == calls;
      while i < |calls|
        invariant 0 <= i <= |calls|
        invariant old(history) + ExecutionMessages(world, calls, done) ==
                  history + ExecutionMessages(world, calls[i..], done + i)
        invariant old(sink.emitted) + ExecutionEvents(world, calls, done) ==
                  sink.emitted + ExecutionEvents(world, calls[i..], done + i)
      {
        ExecutionStep(world, history, sink.emitted, calls, i, done);
        ExecuteOne(calls[i], world.tools(done + i), sink);
        i := i + 1;
      }
      ExecutionEnd(world, history, sink.emitted, done + i);
    }

    /** Answers every call with the advice to try something else. */
    method Nudge(calls: seq<Call>)
      modifies this
      ensures history == old(history) + NudgeMessages(world, calls)
    {
      ghost var all := NudgeMessages(world, calls);
      var i := 0;
      while i < |calls|
        invariant 0 <= i <= |calls|
        invariant history == old(history) + all[..i]
      {
        TakeOneMore(old(history), all, i);
        history := history + [NudgeMessage(world, calls[i])];
        i := i + 1;
      }
    }

    /** Answers every call of a malformed handoff with an error. */
    method Reject(calls: seq<Call>, name: string, reason: string)
      modifies this
      ensures history == old(history) + RejectionMessages(world, calls, name, reason)
    {
      ghost var all := RejectionMessages(world, calls, name, reason);
      var i := 0;
      while i < |calls|
        invariant 0 <= i <= |calls|
        invariant history == old(history) + all[..i]
      {
        TakeOneMore(old(history), all, i);
        var content := if calls[i].name == name then reason else world.wording.ignored(name);
        history := history + [ResultMessage(calls[i].id, content, true)];
        i := i + 1;
      }
    }

    /**
      What is done about a reply without calls: conclude, or remind the model to hand off.
      `s` is the run before the reply.
     */
    method WithoutCalls(
        parts: seq<Part>, usage: Usage, iteration: nat, retries: nat, sink: EventSink, ghost s: State)
      returns (ended: Option<Outcome>, retries': nat)
      requires Calls(parts) == [] && retries == s.missingRetries && iteration == s.iteration + 1
      modifies this, sink
      ensures Handled(parts, usage, ended, s, old(history), old(sink.emitted), sink)
      ensures retries' == if Judge(cfg, world, s, []).Missing? then retries + 1 else retries
    {
      hide Calls, Fingerprint;
      retries' := retries;
      if cfg.handoffTool.Some? {
        if retries >= cfg.handoffMaxRetries {
          return Some(Failed(HandoffValidationFailed(cfg.handoffTool.value, world.wording.missingReason))), retries;
        }
        history := history + [MissingMessage(world, cfg.handoffTool.value, iteration)];
        return None, retries + 1;
      }
      sink.Emit(RunComplete(usage, iteration));
      ended := Some(Completed(TextOf(parts), usage));
    }

    /** What is done about a reply that calls the handoff tool: hand off, or send it back. */
    method WithHandoff(
        parts: seq<Part>, calls: seq<Call>, usage: Usage, iteration: nat, retries: nat, sink: EventSink, ghost s: State)
      returns (ended: Option<Outcome>, retries': nat)
      requires calls == Calls(parts) && calls != [] && retries == s.handoffRetries && iteration == s.iteration + 1
      requires cfg.handoffTool.Some? && FindCall(calls, cfg.handoffTool.value).Some?
      modifies this, sink
      ensures Handled(parts, usage, ended, s, old(history), old(sink.emitted), sink)
      ensures retries' == if Judge(cfg, world, s, calls).Rejected? then retries + 1 else retries
    {
      hide Calls, FindCall, ValidateHandoff, RejectionMessages;
      retries' := retries;
      var name, data := cfg.handoffTool.value, FindCall(calls, cfg.handoffTool.value).value.input;
      var rejection := ValidateHandoff(world, name, calls, data);
      if rejection.None? {
        sink.Emit(RunComplete(usage, iteration));
        return Some(Handoff(name, data, usage)), retries;
      }
      if retries >= cfg.handoffMaxRetries {
        return Some(Failed(HandoffValidationFailed(name, rejection.value))), retries;
      }
      Reject(calls, name, rejection.value);
      return None, retries + 1;
    }

    /** What is done about any other reply: stop, nudge, or execute, by the last fingerprints. */
    method WithTools(
        parts: seq<Part>, calls: seq<Call>, recent: seq<string>, checks: nat, executions: nat, sink: EventSink,
        ghost usage: Usage, ghost s: State)
      returns (ended: Option<Outcome>, recent': seq<string>, checks': nat, executions': nat)
      requires calls == Calls(parts) && calls != []
      requires cfg.handoffTool.Some? ==> FindCall(calls, cfg.handoffTool.value).None?
      requires recent == s.recent && checks == s.checks + 1 && executions == s.executions
      modifies this, sink
      ensures Handled(parts, usage, ended, s, old(history), old(sink.emitted), sink)
      ensures recent' == Push(recent, Fingerprint(world, calls), cfg.stuckThreshold)
      ensures var kind := Judge(cfg, world, s, calls);
              && Counted(kind)
              && checks' == (if kind.Executed? || kind.CancelledLate? then checks + 1 else checks)
              && executions' == (if kind.Executed? then executions + |calls| else executions)
    {
      hide Calls, Fingerprint, Push, FindCall, NudgeMessages, ExecutionMessages, ExecutionEvents;
      var fingerprint := Fingerprint(world, calls);
      recent' := Push(recent, fingerprint, cfg.stuckThreshold);
      checks', executions', ended := checks, executions, None;
      if |recent'| >= cfg.stuckThreshold && AllAre(recent', fingerprint) {
        ended := Some(Failed(StuckInLoop(calls[0].name, cfg.stuckThreshold)));
      } else if |recent'| >= cfg.nudgeThreshold && AllAre(recent', fingerprint) {
        Nudge(calls);
      } else {
        checks' := checks + 1;
        if world.cancelled(checks) {
          ended := Some(Failed(Cancelled));
        } else {
          Execute(calls, executions, sink);
          executions' := executions + |calls|;
        }
      }
    }

    /** The reply has been dealt with as its kind demands, starting from the given history and events. */
    ghost predicate Handled(
        parts: seq<Part>, usage: Usage, ended: Option<Outcome>, s: State, h: seq<Message>, es: seq<Event>,
        sink: EventSink)
      reads this, sink
    {
      var calls := Calls(parts);
      var kind := Judge(cfg, world, s, calls);
      && history == h + Added(cfg, world, s, calls, kind)
      && sink.emitted == es + TailEvents(cfg, world, s, calls, kind, usage)
      && ended == if EndsRun(kind) then Some(OutcomeOf(cfg, world, parts, kind, usage)) else None
    }

    /** The loop itself, from the input to the outcome. */
    method Run(input: Message, sink: EventSink) returns (outcome: Outcome)
      modifies this, sink
      ensures var run := AgentLoop.Run(cfg, world, old(history), input);
              && run == Halt(outcome, run.state)
              && history == run.state.history
              && sink.emitted == old(sink.emitted) + run.state.events
    {
      hide Advance, OneRound, After, Calls, Fingerprint, CallEvents, Asked, AgentLoop.Run;
      hide Judge, OutcomeOf, Added, TailEvents, FindCall, Push, EndsRun;
      ghost var base, before := history, sink.emitted;
      ghost var s := Start(base, input);
      AtStart(cfg, world, base, input);
      sink.Emit(InputMessage(input));
      history := history + [input];
      var usage, iteration: nat := Usage(0, 0), 0;
      var recent: seq<string>, handoffRetries: nat, missingRetries: nat := [], 0, 0;
      var checks: nat, executions: nat := 0, 0;
      while true
        invariant After(cfg, world, Start(base, input), iteration) == Continue(s)
        invariant iteration <= cfg.maxIterations
        invariant s == State(history, s.events, usage, iteration, recent, handoffRetries, missingRetries,
                             checks, executions, s.rounds)
        invariant sink.emitted == before + s.events
        decreases cfg.maxIterations - iteration
      {
        if world.cancelled(checks) {
          HaltsBeforeAsking(cfg, world, base, input, s);
          return Failed(Cancelled);
        }
        if iteration >= cfg.maxIterations {
          HaltsBeforeAsking(cfg, world, base, input, s);
          return Failed(MaxIterationsExceeded(cfg.maxIterations));
        }
        iteration := iteration + 1;
        checks := checks + 1;
        var reply := Ask(iteration, sink);
        if reply.ProviderError? {
          HaltsOnError(cfg, world, base, input, s, before);
          return Failed(Provider(reply.error));
        }
        var message := ReplyMessage(world, iteration, reply.parts);
        sink.Emit(MessageStop(message.id));
        usage := AddUsage(usage, reply.usage);
        sink.Emit(MessageComplete(message));
        history := history + [message];
        AskedIs(world, s, before, iteration, message);
        Outlook(cfg, world, base, input, s, reply.parts, reply.usage, before);
        var calls := Calls(reply.parts);
        ghost var kind := Judge(cfg, world, s, calls);
        ghost var next := Advance(cfg, world, s, reply.parts, reply.usage, kind);
        JudgedBy(cfg, world, s, calls);
        var ended: Option<Outcome>;
        if calls == [] {
          ended, missingRetries := WithoutCalls(reply.parts, usage, iteration, missingRetries, sink, s);
        } else if cfg.handoffTool.Some? && FindCall(calls, cfg.handoffTool.value).Some? {
          ended, handoffRetries := WithHandoff(reply.parts, calls, usage, iteration, handoffRetries, sink, s);
        } else {
          ended, recent, checks, executions :=
            WithTools(reply.parts, calls, recent, checks, executions, sink, usage, s);
        }
        if ended.Some? {
          return ended.value;
        }
        s := next;
      }
    }
  }
}
