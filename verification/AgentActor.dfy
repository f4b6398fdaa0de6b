/** How a session interprets the end of a turn: report to the workflow, and live on or stop. */
module AgentActors {
  import opened Common
  import opened Conversation
  import opened AgentLoop
  import opened AgentEvents
  import AgentAccounting
  import opened AgentRetries
  import opened AgentRecovery
  import opened AgentCrashes

  const CONCLUDE: string := "conclude"

  datatype Params = Params(hasOutputSchema: bool, allowAskUser: bool)

  function HandoffTool(p: Params): Option<string> {
    if p.hasOutputSchema || p.allowAskUser then Some(CONCLUDE) else None
  }

  function Member(members: seq<(string, Json)>, key: string): Option<Json> {
    if members == [] then None
    else if members[0].0 == key then Some(members[0].1)
    else Member(members[1..], key)
  }

  function Get(data: Json, key: string): Option<Json> {
    if data.JObject? then Member(data.members, key) else None
  }

  /** A member's text, or `otherwise` if there is none or it is no string. */
  function TextIn(data: Json, key: string, otherwise: string): string {
    match Get(data, key)
    case Some(JString(s)) => s
    case _ => otherwise
  }

  datatype Conclusion = Output(data: Json) | Ask(callId: Option<string>, question: string)

  function Interpret(p: Params, data: Json, callId: Option<string>): Conclusion {
    if p.hasOutputSchema && p.allowAskUser then
      if TextIn(data, "kind", "submit") == "ask" then Ask(callId, TextIn(data, "question", ""))
      else
        match Get(data, "output")
        case Some(output) => Output(output)
        case None => Output(JNull)
    else if p.hasOutputSchema then Output(data)
    else if p.allowAskUser then Ask(callId, TextIn(data, "question", ""))
    else Output(data)
  }

  datatype Report =
    | AgentConcluded(output: Json)
    | AgentAsked(callId: Option<string>, question: string)
    | AgentFailed(error: TurnError, recoverable: bool)

  /** What the session tells the workflow when a turn ends, and what becomes of the session. */
  function HandleFinished(p: Params, o: TurnOutcome): (Option<Report>, Effect<DomainEvent>) {
    match o
    case TurnCompleted(text) => (Some(AgentConcluded(JString(text))), Stop)
    case TurnConcluded(data, callId) =>
      (match Interpret(p, data, callId)
       case Output(output) => (Some(AgentConcluded(output)), Stop)
       case Ask(id, question) => (Some(AgentAsked(id, question)), Snapshot))
    case TurnCancelled => (None, PersistAndSnapshot([RunCancelled]))
    case TurnFailed(error, recoverable) => (Some(AgentFailed(error, recoverable)), Stop)
  }

  /** The turn of a session with these parameters. */
  function TurnOf(
      p: Params, cfg: Config, specs: seq<ToolSpec>, compiles: Json -> bool, ws: nat -> World,
      base: seq<Message>, input: Message, maxRetries: nat): Turn {
    RunWithRetries(cfg.(handoffTool := HandoffTool(p)), specs, compiles, ws, base, input, maxRetries)
  }

  lemma {:induction false} EndFitsTool(
      cfg: Config, ws: nat -> World, base: seq<Message>, input: Message, maxRetries: nat, attempt: nat)
    requires attempt <= maxRetries
    ensures var o := Attempts(cfg, ws, base, input, maxRetries, attempt).outcome;
            && (o.TurnCompleted? ==> cfg.handoffTool.None?)
            && (o.TurnConcluded? ==> cfg.handoffTool.Some?)
    decreases maxRetries - attempt
  {
    hide AgentLoop.Run, FindToolCallId;
    hide AgentAccounting.Charged, AgentAccounting.Completions, AgentAccounting.ProviderCalls;
    var run := Run(cfg, ws(attempt), base, input);
    if ProviderFailed(run) && attempt < maxRetries {
      EndFitsTool(cfg, ws, base, input, maxRetries, attempt + 1);
    } else {
      AgentAccounting.RunsHalt(cfg, ws(attempt), base, input);
    }
  }

  /**
    A session pauses only if it may ask the user, and delivers plain text only if it has no
    `conclude` tool. It stops exactly when it reports a conclusion or a failure; a cancelled
    turn it reports to nobody and closes in the journal. When it pauses it stays alive and
    names the call that its journaled conversation ends with: answering a call then resumes a
    well-formed conversation exactly when it is that call, and no earlier round was nudged or
    rejected.
   */
  lemma PauseNamesItsCall(
      p: Params, cfg: Config, specs: seq<ToolSpec>, compiles: Json -> bool, ws: nat -> World,
      base: seq<Message>, input: Message, maxRetries: nat, id: string, content: string)
    requires WellFormed(base + [input])
    ensures var turn := TurnOf(p, cfg, specs, compiles, ws, base, input, maxRetries);
            var (report, effect) := HandleFinished(p, turn.outcome);
            var rounds := RoundsOf(turn.runs);
            && (turn.outcome.TurnCompleted? ==> !p.hasOutputSchema && !p.allowAskUser)
            && (turn.outcome.TurnConcluded? ==> p.hasOutputSchema || p.allowAskUser)
            && (effect.Stop? <==> report.Some? && !report.value.AgentAsked?)
            && (effect.Snapshot? <==> report.Some? && report.value.AgentAsked?)
            && (report.None? <==> Closing(turn.outcome).Some?)
            && (report.None? ==> effect == PersistAndSnapshot([Closing(turn.outcome).value]))
            && (effect.Snapshot? ==>
                  && p.allowAskUser && rounds != []
                  && (WellFormed(
                        FoldEvents(base, JournalOf(input, turn.runs)) + [ResultMessage(id, content, false)]) <==>
                        report.value.callId == Some(id) && Mended(rounds[..|rounds| - 1])))
  {
    hide Attempts, WellFormed, Mended, FoldEvents, JournalOf, RoundsOf, Get;
    var cfg' := cfg.(handoffTool := HandoffTool(p));
    if Build(cfg', specs, compiles).Ok? {
      EndFitsTool(cfg', ws, base, input, maxRetries, 0);
      if RunWithRetries(cfg', specs, compiles, ws, base, input, maxRetries).outcome.TurnConcluded? {
        ResumeAnswersThePause(cfg', specs, compiles, ws, base, input, maxRetries, id, content);
      }
    }
  }

  // ---- The session's handlers -----------------------------------------------------------------

  datatype Command =
    | RunInput(id: string, text: string)
    | InjectToolResult(callId: string, content: string)
    | CancelTurn
    | PersistProgress(events: seq<DomainEvent>)
    | TurnFinished(outcome: TurnOutcome)

  /** The turn a command starts, if any: its history and its input. */
  function TurnStarted(messages: seq<Message>, c: Command): Option<(seq<Message>, Message)> {
    match c
    case RunInput(id, text) => Some((messages, UserMessage(id, text)))
    case InjectToolResult(callId, content) => Some((messages, ResultMessage(callId, content, false)))
    case _ => None
  }

  function EffectOf(p: Params, c: Command): Effect<DomainEvent> {
    match c
    case RunInput(id, text) => Persist([InputPersisted(UserMessage(id, text))])
    case InjectToolResult(callId, content) => Persist([InputPersisted(ResultMessage(callId, content, false))])
    case CancelTurn => NoEffect
    case PersistProgress(events) => Persist(events)
    case TurnFinished(outcome) => HandleFinished(p, outcome).1
  }

  /** The turn that recovery starts, if any: an empty session starts nothing. */
  function TurnResumed(note: string, messages: seq<Message>, proceed: Message): Option<(seq<Message>, Message)> {
    if messages == [] then None else Some((Sanitize(note, messages), proceed))
  }

  predicate FirstOfName(members: seq<(string, Json)>, key: string, i: nat) {
    i < |members| && members[i].0 == key && forall j :: 0 <= j < i ==> members[j].0 != key
  }

  /** A member of an object is found exactly if there is one, and then the first of its name. */
  lemma {:induction false} MemberFinds(members: seq<(string, Json)>, key: string)
    ensures Member(members, key).None? <==> forall i :: 0 <= i < |members| ==> members[i].0 != key
    ensures forall i: nat :: FirstOfName(members, key, i) ==> Member(members, key) == Some(members[i].1)
  {
    if members != [] {
      MemberFinds(members[1..], key);
      assert forall i :: 0 < i < |members| ==> members[i] == members[1..][i - 1];
      if members[0].0 != key {
        forall i: nat | FirstOfName(members, key, i) ensures Member(members, key) == Some(members[i].1) {
          assert FirstOfName(members[1..], key, i - 1);
        }
      }
    }
  }

  /** The payload says that it is a question. */
  predicate SaysAsk(data: Json) {
    Get(data, "kind") == Some(JString("ask"))
  }

  /**
    What a session reports: its text or its output as a conclusion, its question if it may ask
    and does, its error as a failure; and nothing of a cancelled turn. With both tools at hand
    the payload has to say that it is a question, and an output is its `output` member.
   */
  lemma ReportsSay(p: Params, o: TurnOutcome)
    ensures var report := HandleFinished(p, o).0;
            match o
            case TurnCompleted(text) => report == Some(AgentConcluded(JString(text)))
            case TurnFailed(error, recoverable) => report == Some(AgentFailed(error, recoverable))
            case TurnCancelled => report == None
            case TurnConcluded(data, callId) =>
              var asks := p.allowAskUser && (p.hasOutputSchema ==> SaysAsk(data));
              && (asks ==> exists question ::
                             && report == Some(AgentAsked(callId, question))
                             && (forall text :: Get(data, "question") == Some(JString(text)) ==> question == text))
              && (!asks && !p.allowAskUser ==> report == Some(AgentConcluded(data)))
              && (!asks && p.allowAskUser ==>
                    var output := Get(data, "output");
                    report == Some(AgentConcluded(if output.Some? then output.value else JNull)))
  {
    hide Get;
    if o.TurnConcluded? && p.allowAskUser && (p.hasOutputSchema ==> SaysAsk(o.data)) {
      assert HandleFinished(p, o).0 == Some(AgentAsked(o.callId, TextIn(o.data, "question", "")));
    }
  }

  /**
    A command that starts a turn persists its input and nothing else, and the turn starts from
    the conversation so far: history and input together are what the persisted event folds to.
    A user's input becomes a user's message, an answer the result of the call it names.
   */
  lemma CommandsContinueTheConversation(p: Params, messages: seq<Message>, c: Command)
    ensures TurnStarted(messages, c).Some? <==> c.RunInput? || c.InjectToolResult?
    ensures TurnStarted(messages, c).Some? ==>
              var (history, input) := TurnStarted(messages, c).value;
              && history == messages
              && EffectOf(p, c) == Persist([InputPersisted(input)])
              && FoldEvents(messages, EffectOf(p, c).events) == history + [input]
              && (c.RunInput? ==> input.role.User? && input.parts == [Text(c.text)])
              && (c.InjectToolResult? ==>
                    input.role.Tool? && input.parts == [ToolResult(c.callId, c.content, false)])
    ensures c.PersistProgress? ==> EffectOf(p, c) == Persist(c.events)
    ensures c.CancelTurn? ==> EffectOf(p, c) == NoEffect
    ensures c.TurnFinished? ==> EffectOf(p, c) == HandleFinished(p, c.outcome).1
  {
    if TurnStarted(messages, c).Some? {
      var input := TurnStarted(messages, c).value.1;
      FoldFrom(messages, [InputPersisted(input)]);
      assert [InputPersisted(input)][..0] == [];
      assert [] + [input] == [input];
    }
  }

  class AgentActor {
    const params: Params
    /** Whether a turn is held to be running; nothing refuses a second one. */
    var running: bool
    /** The turns started, the cancellations sent and the reports made so far. */
    var started: seq<(seq<Message>, Message)>
    var cancelled: nat
    var reports: seq<Report>

    constructor (params: Params)
      ensures this.params == params && !running && started == [] && cancelled == 0 && reports == []
    {
      this.params := params;
      running, started, cancelled, reports := false, [], 0, [];
    }

    method StartRun(input: Message, history: seq<Message>)
      modifies this`running, this`started
      ensures running && started == old(started) + [(history, input)]
    {
      running := true;
      started := started + [(history, input)];
    }

    method Finish(outcome: TurnOutcome) returns (effect: Effect<DomainEvent>)
      modifies this`running, this`reports
      ensures !running && effect == HandleFinished(params, outcome).1
      ensures var report := HandleFinished(params, outcome).0;
              reports == old(reports) + (if report.Some? then [report.value] else [])
    {
      running := false;
      match outcome {
        case TurnCompleted(text) =>
          reports := reports + [AgentConcluded(JString(text))];
          return Stop;
        case TurnConcluded(data, callId) =>
          match Interpret(params, data, callId) {
            case Output(output) =>
              reports := reports + [AgentConcluded(output)];
              return Stop;
            case Ask(id, question) =>
              reports := reports + [AgentAsked(id, question)];
              return Snapshot;
          }
        case TurnCancelled =>
          return PersistAndSnapshot([RunCancelled]);
        case TurnFailed(error, recoverable) =>
          reports := reports + [AgentFailed(error, recoverable)];
          return Stop;
      }
    }

    method HandleCommand(messages: seq<Message>, c: Command) returns (effect: Effect<DomainEvent>)
      modifies this
      ensures effect == EffectOf(params, c)
      ensures var turn := TurnStarted(messages, c);
              started == old(started) + (if turn.Some? then [turn.value] else [])
      ensures running ==
              if TurnStarted(messages, c).Some? then true else if c.TurnFinished? then false else old(running)
      ensures cancelled == old(cancelled) + (if c.CancelTurn? && old(running) then 1 else 0)
      ensures var report := if c.TurnFinished? then HandleFinished(params, c.outcome).0 else None;
              reports == old(reports) + (if report.Some? then [report.value] else [])
    {
      match c {
        case RunInput(id, text) =>
          StartRun(UserMessage(id, text), messages);
          return Persist([InputPersisted(UserMessage(id, text))]);
        case InjectToolResult(callId, content) =>
          StartRun(ResultMessage(callId, content, false), messages);
          return Persist([InputPersisted(ResultMessage(callId, content, false))]);
        case PersistProgress(events) =>
          return Persist(events);
        case CancelTurn =>
          if running {
            cancelled := cancelled + 1;
          }
          return NoEffect;
        case TurnFinished(outcome) =>
          effect := Finish(outcome);
      }
    }

    /** A recovered session goes on from the sanitized conversation with a synthetic input that is not persisted. */
    method RecoveryComplete(note: string, messages: seq<Message>, proceed: Message)
      modifies this
      ensures var turn := TurnResumed(note, messages, proceed);
              started == old(started) + (if turn.Some? then [turn.value] else [])
      ensures running == (old(running) || messages != [])
      ensures reports == old(reports) && cancelled == old(cancelled)
    {
      if messages == [] {
        return;
      }
      var history := SanitizeForResume(note, messages);
      StartRun(proceed, history);
    }
  }
}
