/** What a reply means to the loop, call by call and text by text, and what the loop answers it. */
module AgentReplies {
  import opened Common
  import opened Conversation
  import opened AgentLoop
  import opened AgentRuns

  // ---- Fingerprints --------------------------------------------------------------------------------

  /** What two rounds have to agree on, call by call, to be alike. */
  function Shown(w: World, c: Call): string {
    c.name + ":" + w.render(c.input)
  }

  lemma {:induction false} FingerprintJoins(w: World, x: seq<Call>, y: seq<Call>)
    ensures |x| == 1 ==> Fingerprint(w, x) == Shown(w, x[0])
    ensures Fingerprint(w, x + y) ==
            if x == [] then Fingerprint(w, y)
            else if y == [] then Fingerprint(w, x)
            else Fingerprint(w, x) + ("|" + Fingerprint(w, y))
    decreases x
  {
    if x == [] {
      assert x + y == y;
    } else if y == [] {
      assert x + y == x;
    } else {
      assert (x + y)[0] == x[0] && (x + y)[1..] == x[1..] + y;
      FingerprintJoins(w, x[1..], y);
      if |x| > 1 {
        Assoc(Shown(w, x[0]) + "|", Fingerprint(w, x[1..]), "|" + Fingerprint(w, y));
      } else {
        Assoc(Shown(w, x[0]), "|", Fingerprint(w, y));
      }
    }
  }

  lemma SameAround(front: string, a: string, b: string, back: string)
    ensures front + (a + back) == front + (b + back) <==> a == b
  {
    if front + (a + back) == front + (b + back) {
      assert a + back == (front + (a + back))[|front|..] == (front + (b + back))[|front|..] == b + back;
      assert |a| == |b|;
      assert a == (a + back)[..|a|] == (b + back)[..|b|] == b;
    }
  }

  /**
    Every call of a round counts: two rounds that differ in one call, wherever it stands, are
    alike exactly when that call shows the same name and input.
   */
  lemma EveryCallCounts(w: World, x: seq<Call>, c: Call, d: Call, y: seq<Call>)
    ensures Fingerprint(w, x + ([c] + y)) == Fingerprint(w, x + ([d] + y)) <==> Shown(w, c) == Shown(w, d)
  {
    hide Fingerprint, Shown;
    var front := if x == [] then "" else Fingerprint(w, x) + "|";
    var back := if y == [] then "" else "|" + Fingerprint(w, y);
    StandsBetween(w, x, c, y);
    StandsBetween(w, x, d, y);
    SameAround(front, Shown(w, c), Shown(w, d), back);
  }

  lemma StandsBetween(w: World, x: seq<Call>, c: Call, y: seq<Call>)
    ensures Fingerprint(w, x + ([c] + y)) ==
            (if x == [] then "" else Fingerprint(w, x) + "|")
            + (Shown(w, c) + if y == [] then "" else "|" + Fingerprint(w, y))
  {
    hide Fingerprint, Shown;
    FingerprintJoins(w, x, [c] + y);
    FingerprintJoins(w, [c], y);
    FingerprintJoins(w, [c], []);
    var rest := Shown(w, c) + if y == [] then "" else "|" + Fingerprint(w, y);
    assert y == [] ==> Shown(w, c) + "" == Shown(w, c);
    assert Fingerprint(w, [c] + y) == rest;
    if x == [] {
      assert "" + rest == rest;
    } else {
      Assoc(Fingerprint(w, x), "|", rest);
    }
  }

  // ---- Texts and calls ----------------------------------------------------------------------------

  lemma {:induction false} TextsJoin(x: seq<Part>, y: seq<Part>)
    ensures TextOf(x + y) == TextOf(x) + TextOf(y)
  {
    if x == [] {
      assert x + y == y && "" + TextOf(y) == TextOf(y);
    } else {
      assert (x + y)[0] == x[0] && (x + y)[1..] == x[1..] + y;
      TextsJoin(x[1..], y);
      Assoc(if x[0].Text? then x[0].text else "", TextOf(x[1..]), TextOf(y));
    }
  }

  /** A part adds its text, if it is one, behind the texts before it and ahead of those after it. */
  lemma TextStandsInOrder(x: seq<Part>, p: Part, y: seq<Part>)
    ensures TextOf(x + ([p] + y)) == TextOf(x) + ((if p.Text? then p.text else "") + TextOf(y))
  {
    TextsJoin(x, [p] + y);
    TextsJoin([p], y);
    assert [p][1..] == [];
    var own := if p.Text? then p.text else "";
    assert TextOf([p]) == own + "" == own;
  }

  lemma {:induction false} CallsJoin(x: seq<Part>, y: seq<Part>)
    ensures Calls(x + y) == Calls(x) + Calls(y)
  {
    if x == [] {
      assert x + y == y && [] + Calls(y) == Calls(y);
    } else {
      assert (x + y)[0] == x[0] && (x + y)[1..] == x[1..] + y;
      CallsJoin(x[1..], y);
      Assoc(Calls([x[0]]), Calls(x[1..]), Calls(y));
      OneCallOf(x[0]);
    }
  }

  lemma OneCallOf(p: Part)
    ensures Calls([p]) == if p.ToolCall? then [Call(p.id, p.name, p.input)] else []
  {
    assert [p][1..] == [];
    assert Calls([]) == [];
  }

  /** A tool call part is the call of its own id, name and input, in its place. */
  lemma CallStandsInOrder(x: seq<Part>, id: string, name: string, input: Json, y: seq<Part>)
    ensures Calls(x + ([ToolCall(id, name, input)] + y)) == Calls(x) + ([Call(id, name, input)] + Calls(y))
  {
    hide Calls;
    CallsJoin(x, [ToolCall(id, name, input)] + y);
    CallsJoin([ToolCall(id, name, input)], y);
    OneCallOf(ToolCall(id, name, input));
  }

  /** A run that completes delivers the text of its last reply, which called nothing. */
  lemma CompletionDeliversTheText(cfg: Config, w: World, base: seq<Message>, input: Message, n: nat)
    requires var next := After(cfg, w, Start(base, input), n); next.Halt? && next.outcome.Completed?
    ensures var next := After(cfg, w, Start(base, input), n);
            var rounds := next.state.rounds;
            && rounds != []
            && var last := rounds[|rounds| - 1].message;
               && next.outcome == Completed(TextOf(last.parts), next.state.usage)
               && CallsOf(last) == [] && cfg.handoffTool.None?
  {
    hide Judge, Advance, TextOf, Calls;
    var m, s := LastRound(cfg, w, Start(base, input), n);
    var reply := w.replies(s.iteration + 1);
    var kind := ReplyStep(cfg, w, s, reply.parts, reply.usage);
    AdvanceRecords(cfg, w, s, reply.parts, reply.usage, kind);
    OnlyConcludedCompletes(cfg, w, s, reply.parts, reply.usage);
  }

  lemma OnlyConcludedCompletes(cfg: Config, w: World, s: State, parts: seq<Part>, used: Usage)
    ensures var kind := Judge(cfg, w, s, Calls(parts));
            var s' := Advance(cfg, w, s, parts, used, kind);
            OutcomeOf(cfg, w, parts, kind, s'.usage).Completed? ==>
              && kind.Concluded? && Calls(parts) == [] && cfg.handoffTool.None?
  {
    hide Calls, Fingerprint, Push, AllAre, TextOf, FindCall, Added, TailEvents;
  }

  // ---- Cancellation ---------------------------------------------------------------------------------

  /**
    Cancelled before a request, the run ends without asking; cancelled after the reply, it
    ends without running a tool. A round that reaches the tools runs them exactly when it was
    not cancelled then.
   */
  lemma CancellationIsHeeded(cfg: Config, w: World, s: State)
    ensures w.cancelled(s.checks) ==> OneRound(cfg, w, s) == Halt(Failed(Cancelled), s)
    ensures w.cancelled(s.checks + 1) ==> OneRound(cfg, w, s).state.executions == s.executions
    ensures !w.cancelled(s.checks) && s.iteration < cfg.maxIterations && w.replies(s.iteration + 1).Response? ==>
              var next := OneRound(cfg, w, s);
              && next.state.rounds != []
              && var kind := next.state.rounds[|next.state.rounds| - 1].kind;
                 && (kind.Executed? ==> !w.cancelled(s.checks + 1))
                 && next.state.checks == s.checks + (if kind.Executed? || kind.CancelledLate? then 2 else 1)
                 && (kind.CancelledLate? ==>
                       w.cancelled(s.checks + 1) && next.Halt? && next.outcome == Failed(Cancelled))
  {
    hide Calls, TextOf, FindCall, Fingerprint, Push, AllAre, Added, TailEvents, ValidateHandoff;
  }

  // ---- What calls are answered ------------------------------------------------------------------------

  /**
    A nudged round answers each call with the advice, as a success; a rejected one answers
    each with an error, which is the reason for a call of the handoff tool and a notice that
    it was ignored for any other. A reply that should have handed off is followed by a user's
    message that says so.
   */
  lemma AdviceAndRejections(cfg: Config, w: World, s: State, calls: seq<Call>, i: nat)
    requires i < |calls|
    ensures var nudged := Added(cfg, w, s, calls, Nudged);
            |nudged| == |calls| && nudged[i].role.Tool? && nudged[i].id == w.wording.nudgeId(calls[i].id)
            && nudged[i].parts == [ToolResult(calls[i].id, w.wording.nudge, false)]
    ensures cfg.handoffTool.Some? ==>
              var name, rejected := cfg.handoffTool.value, Added(cfg, w, s, calls, Rejected);
              |rejected| == |calls| && rejected[i].role.Tool?
              && rejected[i].parts ==
                 [ToolResult(calls[i].id,
                             if calls[i].name == name then Reason(w, name, calls) else w.wording.ignored(name), true)]
    ensures cfg.handoffTool.Some? ==>
              Added(cfg, w, s, [], Missing) ==
              [Message(w.wording.missingId(s.iteration + 1), User, [Text(w.wording.missing(cfg.handoffTool.value))])]
  {
    hide Reason;
  }

  /**
    The reason of a refused handoff: it did not come alone; or if it did, its data is invalid.
   */
  lemma ReasonSays(w: World, name: string, calls: seq<Call>)
    requires exists c :: c in calls && c.name == name
    ensures |calls| > 1 ==> Reason(w, name, calls) == w.wording.notAlone(name)
    ensures |calls| == 1 && !w.valid(calls[0].input) ==>
              Reason(w, name, calls) == w.wording.invalid(name, w.complaint(calls[0].input))
  {
    var c := FindCall(calls, name).value;
    if |calls| == 1 {
      assert calls[0] == c;
    }
  }

  /** An executed round tells of each call in order: that it runs, then its result. */
  lemma {:induction false} ExecutionsAreTold(w: World, calls: seq<Call>, done: nat, i: nat)
    requires i < |calls|
    ensures var events, outcome := ExecutionEvents(w, calls, done), w.tools(done + i);
            && |events| == 2 * |calls|
            && events[2 * i] == ToolExecuting(calls[i].id)
            && events[2 * i + 1] == ToolComplete(calls[i].id, outcome.output, outcome.isError)
    decreases |calls|
  {
    var rest := ExecutionEvents(w, calls[1..], done + 1);
    if |calls| == 1 {
      assert calls[1..] == [] && rest == [];
    } else {
      ExecutionsAreTold(w, calls[1..], done + 1, if i == 0 then 0 else i - 1);
      if i > 0 {
        assert calls[1..][i - 1] == calls[i];
        assert ExecutionEvents(w, calls, done)[2 * i] == rest[2 * (i - 1)];
        assert ExecutionEvents(w, calls, done)[2 * i + 1] == rest[2 * (i - 1) + 1];
      }
    }
  }

  // ---- What the rounds of a run are ----------------------------------------------------------------------

  /** How many tool calls the rounds executed. */
  function ExecutedCalls(rounds: seq<Round>): nat {
    if rounds == [] then 0
    else
      var last := rounds[|rounds| - 1];
      ExecutedCalls(rounds[..|rounds| - 1]) + if last.kind.Executed? then |CallsOf(last.message)| else 0
  }

  /**
    The round `i` is the provider's answer to the request of that number, and its tools are
    the next ones to run.
   */
  predicate IsAnswer(w: World, rounds: seq<Round>, i: nat)
    requires i < |rounds|
  {
    && w.replies(i + 1) == Response(rounds[i].message.parts, rounds[i].usage)
    && rounds[i].message.id == w.ids(i + 1) && rounds[i].message.role.Assistant?
    && (rounds[i].kind.Executed? ==>
          rounds[i].added == ExecutionMessages(w, CallsOf(rounds[i].message), ExecutedCalls(rounds[..i])))
  }

  ghost predicate InStep(w: World, s: State) {
    && s.executions == ExecutedCalls(s.rounds)
    && forall i: nat :: i < |s.rounds| ==> IsAnswer(w, s.rounds, i)
  }

  lemma RoundInStep(cfg: Config, w: World, s: State)
    requires InStep(w, s) && s.iteration == |s.rounds|
    ensures var next := OneRound(cfg, w, s);
            InStep(w, next.state) && (next.Continue? ==> next.state.iteration == |next.state.rounds|)
  {
    hide Judge, Advance, Calls, ExecutionMessages, IsAnswer;
    if !w.cancelled(s.checks) && s.iteration < cfg.maxIterations && w.replies(s.iteration + 1).Response? {
      var reply := w.replies(s.iteration + 1);
      var kind := ReplyStep(cfg, w, s, reply.parts, reply.usage);
      AdvanceInStep(cfg, w, s, reply.parts, reply.usage, kind);
    }
  }

  lemma AdvanceInStep(cfg: Config, w: World, s: State, parts: seq<Part>, used: Usage, kind: Kind)
    requires InStep(w, s) && s.iteration == |s.rounds| && w.replies(s.iteration + 1) == Response(parts, used)
    ensures var s' := Advance(cfg, w, s, parts, used, kind); InStep(w, s') && s'.iteration == |s'.rounds|
  {
    hide Calls, ExecutionMessages, NudgeMessages, RejectionMessages, TailEvents, Fingerprint, Push;
    AdvanceRecords(cfg, w, s, parts, used, kind);
    var s', r, n := Advance(cfg, w, s, parts, used, kind), RoundOf(cfg, w, s, parts, used, kind), |s.rounds|;
    assert s'.rounds[..n] == s.rounds && s'.rounds[n] == r;
    forall i: nat | i < |s'.rounds| ensures IsAnswer(w, s'.rounds, i) {
      assert s'.rounds[..i] == if i < n then s.rounds[..i] else s.rounds;
      if i < n {
        assert IsAnswer(w, s.rounds, i) && s'.rounds[i] == s.rounds[i];
      }
    }
  }

  /**
    At every moment of a run its rounds are the provider's answers, one after the other, and
    the tools of an executed round are run on from where the last executed round left off.
   */
  lemma {:induction false} RoundsAreAnswers(cfg: Config, w: World, base: seq<Message>, input: Message, n: nat)
    ensures var next := After(cfg, w, Start(base, input), n);
            InStep(w, next.state) && (next.Continue? ==> next.state.iteration == |next.state.rounds|)
  {
    hide OneRound, InStep;
    if n == 0 {
      StartInStep(w, base, input);
    } else {
      RoundsAreAnswers(cfg, w, base, input, n - 1);
      match After(cfg, w, Start(base, input), n - 1)
      case Halt(_, _) =>
      case Continue(s) => RoundInStep(cfg, w, s);
    }
  }

  lemma StartInStep(w: World, base: seq<Message>, input: Message)
    ensures InStep(w, Start(base, input))
  {
  }

  // ---- How runs fail ------------------------------------------------------------------------------------

  /** An error says what it is about: the limit, the tool called over and over, the provider's own words. */
  lemma FailuresSayWhy(cfg: Config, w: World, s: State)
    requires OneRound(cfg, w, s).Halt? && OneRound(cfg, w, s).outcome.Failed?
    ensures var error := OneRound(cfg, w, s).outcome.error;
            match error
            case MaxIterationsExceeded(n) => n == cfg.maxIterations <= s.iteration
            case Provider(e) => w.replies(s.iteration + 1) == ProviderError(e)
            case StuckInLoop(tool, n) =>
              && n == cfg.stuckThreshold && w.replies(s.iteration + 1).Response?
              && var calls := Calls(w.replies(s.iteration + 1).parts); calls != [] && tool == calls[0].name
            case HandoffValidationFailed(tool, _) => cfg.handoffTool == Some(tool)
            case Cancelled => w.cancelled(s.checks) || w.cancelled(s.checks + 1)
  {
    hide Calls, TextOf, FindCall, Fingerprint, Push, AllAre, Added, TailEvents, ValidateHandoff, Reason;
  }
}
