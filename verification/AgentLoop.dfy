/**
  The agent loop: ask the provider, decide what the reply means, run or refuse its tool
  calls, and go round again.

  Whatever lies outside the loop is an oracle indexed by how often it was consulted: the
  provider's replies, the outcomes of tool executions, the cancellation checks, fresh
  message ids. The schema validator and the rendering of tool input are functions of the
  value. Everything below is stated for all oracles.
 */
module AgentLoop {
  import opened Common
  import opened Conversation

  /** Token counts are 32-bit; sums wrap as in a build without overflow checks. */
  const TWO_32: nat := 0x1_0000_0000

  datatype Usage = Usage(inputTokens: nat, outputTokens: nat)

  function AddUsage(a: Usage, b: Usage): Usage {
    Usage((a.inputTokens + b.inputTokens) % TWO_32, (a.outputTokens + b.outputTokens) % TWO_32)
  }

  datatype Event =
    | InputMessage(message: Message)
    | MessageStart(id: string)
    | Chunk(id: string, payload: string)
    | MessageStop(id: string)
    | MessageComplete(message: Message)
    | ToolExecuting(callId: string)
    | ToolComplete(callId: string, output: string, isError: bool)
    | RunComplete(usage: Usage, iterations: nat)

  datatype Reply = Response(parts: seq<Part>, usage: Usage) | ProviderError(error: string)

  datatype ToolOutcome = ToolOutcome(output: string, isError: bool)

  datatype Config = Config(
    maxIterations: nat,
    stuckThreshold: nat,
    nudgeThreshold: nat,
    handoffMaxRetries: nat,
    handoffTool: Option<string>)

  /** The texts the loop itself writes; only the calls they answer matter here. */
  datatype Wording = Wording(
    nudge: string,
    nudgeId: string -> string,
    notAlone: string -> string,
    ignored: string -> string,
    invalid: (string, string) -> string,
    missing: string -> string,
    missingId: nat -> string,
    missingReason: string)

  datatype World = World(
    wording: Wording,
    ids: nat -> string,
    replies: nat -> Reply,
    chunks: nat -> seq<string>,
    tools: nat -> ToolOutcome,
    cancelled: nat -> bool,
    valid: Json -> bool,
    complaint: Json -> string,
    render: Json -> string)

  datatype AgentError =
    | MaxIterationsExceeded(max: nat)
    | StuckInLoop(tool: string, count: nat)
    | Provider(error: string)
    | HandoffValidationFailed(tool: string, reason: string)
    | Cancelled

  datatype Outcome =
    | Completed(text: string, usage: Usage)
    | Handoff(tool: string, data: Json, usage: Usage)
    | Failed(error: AgentError)

  // ---- Building an agent ---------------------------------------------------------------

  datatype ToolSpec = ToolSpec(name: string, schema: Json)

  datatype BuildError =
    | InvalidConfig(nudge: nat, stuck: nat)
    | HandoffToolNotRegistered(tool: string)
    | InvalidHandoffSchema(tool: string)

  function FindSpec(specs: seq<ToolSpec>, name: string): (r: Option<ToolSpec>)
    ensures r.Some? <==> exists spec :: spec in specs && spec.name == name
    ensures r.Some? ==> r.value in specs && r.value.name == name
  {
    if specs == [] then None
    else if specs[0].name == name then Some(specs[0])
    else FindSpec(specs[1..], name)
  }

  /** `compiles` says whether a schema compiles to a validator. */
  function Build(cfg: Config, specs: seq<ToolSpec>, compiles: Json -> bool): (r: Result<Config, BuildError>)
    ensures r.Ok? <==>
              && cfg.nudgeThreshold < cfg.stuckThreshold
              && (cfg.handoffTool.Some? ==>
                    var spec := FindSpec(specs, cfg.handoffTool.value); spec.Some? && compiles(spec.value.schema))
    ensures r.Ok? ==> r.value == cfg
  {
    if cfg.nudgeThreshold >= cfg.stuckThreshold then Err(InvalidConfig(cfg.nudgeThreshold, cfg.stuckThreshold))
    else
      match cfg.handoffTool
      case None => Ok(cfg)
      case Some(name) =>
        match FindSpec(specs, name)
        case None => Err(HandoffToolNotRegistered(name))
        case Some(spec) => if compiles(spec.schema) then Ok(cfg) else Err(InvalidHandoffSchema(name))
  }

  // ---- What a reply means ---------------------------------------------------------------

  function TextOf(parts: seq<Part>): string {
    if parts == [] then ""
    else (if parts[0].Text? then parts[0].text else "") + TextOf(parts[1..])
  }

  /** The calls' names and inputs, joined: two rounds are alike when these agree. */
  function Fingerprint(w: World, calls: seq<Call>): string {
    if calls == [] then ""
    else
      var first := calls[0].name + ":" + w.render(calls[0].input);
      if |calls| == 1 then first else first + "|" + Fingerprint(w, calls[1..])
  }

  function FindCall(calls: seq<Call>, name: string): (r: Option<Call>)
    ensures r.Some? <==> exists c :: c in calls && c.name == name
    ensures r.Some? ==> r.value in calls && r.value.name == name
  {
    if calls == [] then None
    else if calls[0].name == name then Some(calls[0])
    else FindCall(calls[1..], name)
  }

  /** Why a handoff call is refused, if it is: it must come alone and satisfy its schema. */
  function ValidateHandoff(w: World, name: string, calls: seq<Call>, data: Json): Option<string> {
    if |calls| > 1 then Some(w.wording.notAlone(name))
    else if !w.valid(data) then Some(w.wording.invalid(name, w.complaint(data)))
    else None
  }

  /** How a round ended; the last six also end the run. */
  datatype Kind =
    | Executed
    | Nudged
    | Rejected
    | Missing
    | Concluded
    | HandedOff
    | Stuck
    | Refused
    | NeverHandedOff
    | CancelledLate

  /** Rounds that reached the repetition check. */
  predicate Counted(k: Kind) {
    k.Executed? || k.Nudged? || k.Stuck? || k.CancelledLate?
  }

  predicate EndsRun(k: Kind) {
    !(k.Executed? || k.Nudged? || k.Rejected? || k.Missing?)
  }

  /** One reply: the assistant message, how the round ended, and the messages then added. */
  datatype Round = Round(message: Message, usage: Usage, kind: Kind, added: seq<Message>)

  datatype State = State(
    history: seq<Message>,
    events: seq<Event>,
    usage: Usage,
    iteration: nat,
    recent: seq<string>,
    handoffRetries: nat,
    missingRetries: nat,
    checks: nat,
    executions: nat,
    rounds: seq<Round>)

  function Start(base: seq<Message>, input: Message): State {
    State(base + [input], [InputMessage(input)], Usage(0, 0), 0, [], 0, 0, 0, 0, [])
  }

  function Push(recent: seq<string>, fingerprint: string, bound: nat): seq<string> {
    var longer := recent + [fingerprint];
    if |longer| > bound then longer[1..] else longer
  }

  predicate AllAre(recent: seq<string>, fingerprint: string) {
    forall i :: 0 <= i < |recent| ==> recent[i] == fingerprint
  }

  function JudgeRepetition(cfg: Config, w: World, s: State, calls: seq<Call>): Kind {
    var fingerprint := Fingerprint(w, calls);
    var recent := Push(s.recent, fingerprint, cfg.stuckThreshold);
    if |recent| >= cfg.stuckThreshold && AllAre(recent, fingerprint) then Stuck
    else if |recent| >= cfg.nudgeThreshold && AllAre(recent, fingerprint) then Nudged
    else if w.cancelled(s.checks + 1) then CancelledLate
    else Executed
  }

  function Judge(cfg: Config, w: World, s: State, calls: seq<Call>): Kind {
    if calls == [] then
      if cfg.handoffTool.None? then Concluded
      else if s.missingRetries >= cfg.handoffMaxRetries then NeverHandedOff
      else Missing
    else if cfg.handoffTool.Some? && FindCall(calls, cfg.handoffTool.value).Some? then
      var name := cfg.handoffTool.value;
      if ValidateHandoff(w, name, calls, FindCall(calls, name).value.input).None? then HandedOff
      else if s.handoffRetries >= cfg.handoffMaxRetries then Refused
      else Rejected
    else JudgeRepetition(cfg, w, s, calls)
  }

  // ---- What each kind of round adds -------------------------------------------------------

  function NudgeMessage(w: World, call: Call): Message {
    Message(w.wording.nudgeId(call.id), Tool, [ToolResult(call.id, w.wording.nudge, false)])
  }

  function NudgeMessages(w: World, calls: seq<Call>): (r: seq<Message>)
    ensures |r| == |calls|
    ensures forall i :: 0 <= i < |r| ==> r[i] == NudgeMessage(w, calls[i])
  {
    if calls == [] then [] else [NudgeMessage(w, calls[0])] + NudgeMessages(w, calls[1..])
  }

  function RejectionMessage(w: World, call: Call, name: string, reason: string): Message {
    ResultMessage(call.id, if call.name == name then reason else w.wording.ignored(name), true)
  }

  function RejectionMessages(w: World, calls: seq<Call>, name: string, reason: string): (r: seq<Message>)
    ensures |r| == |calls|
    ensures forall i :: 0 <= i < |r| ==> r[i] == RejectionMessage(w, calls[i], name, reason)
  {
    if calls == [] then []
    else [RejectionMessage(w, calls[0], name, reason)] + RejectionMessages(w, calls[1..], name, reason)
  }

  /** The results of executing the calls in order, `done` executions into the run. */
  function ExecutionMessages(w: World, calls: seq<Call>, done: nat): (r: seq<Message>)
    ensures |r| == |calls|
    ensures forall i :: 0 <= i < |r| ==>
              r[i] == ResultMessage(calls[i].id, w.tools(done + i).output, w.tools(done + i).isError)
    decreases |calls|
  {
    if calls == [] then []
    else
      [ResultMessage(calls[0].id, w.tools(done).output, w.tools(done).isError)]
      + ExecutionMessages(w, calls[1..], done + 1)
  }

  function ExecutionEvents(w: World, calls: seq<Call>, done: nat): seq<Event>
    decreases |calls|
  {
    if calls == [] then []
    else
      [ToolExecuting(calls[0].id), ToolComplete(calls[0].id, w.tools(done).output, w.tools(done).isError)]
      + ExecutionEvents(w, calls[1..], done + 1)
  }

  function MissingMessage(w: World, name: string, iteration: nat): Message {
    UserMessage(w.wording.missingId(iteration), w.wording.missing(name))
  }

  /** The reason the handoff call among `calls` is refused. */
  function Reason(w: World, name: string, calls: seq<Call>): string {
    match FindCall(calls, name)
    case None => ""
    case Some(call) =>
      match ValidateHandoff(w, name, calls, call.input)
      case None => ""
      case Some(reason) => reason
  }

  function HandoffName(cfg: Config): string {
    if cfg.handoffTool.Some? then cfg.handoffTool.value else ""
  }

  function Added(cfg: Config, w: World, s: State, calls: seq<Call>, kind: Kind): seq<Message> {
    match kind
    case Executed => ExecutionMessages(w, calls, s.executions)
    case Nudged => NudgeMessages(w, calls)
    case Rejected => RejectionMessages(w, calls, HandoffName(cfg), Reason(w, HandoffName(cfg), calls))
    case Missing => [MissingMessage(w, HandoffName(cfg), s.iteration + 1)]
    case _ => []
  }

  function TailEvents(cfg: Config, w: World, s: State, calls: seq<Call>, kind: Kind, usage: Usage): seq<Event> {
    match kind
    case Executed => ExecutionEvents(w, calls, s.executions)
    case Concluded => [RunComplete(usage, s.iteration + 1)]
    case HandedOff => [RunComplete(usage, s.iteration + 1)]
    case _ => []
  }

  function OutcomeOf(cfg: Config, w: World, parts: seq<Part>, kind: Kind, usage: Usage): Outcome {
    var calls := Calls(parts);
    var name := HandoffName(cfg);
    match kind
    case Concluded => Completed(TextOf(parts), usage)
    case HandedOff =>
      Handoff(name, if FindCall(calls, name).Some? then FindCall(calls, name).value.input else JNull, usage)
    case Stuck => Failed(StuckInLoop(if calls == [] then "" else calls[0].name, cfg.stuckThreshold))
    case Refused => Failed(HandoffValidationFailed(name, Reason(w, name, calls)))
    case NeverHandedOff => Failed(HandoffValidationFailed(name, w.wording.missingReason))
    case _ => Failed(Cancelled)
  }

  // ---- One round -----------------------------------------------------------------------------

  datatype Next = Continue(state: State) | Halt(outcome: Outcome, state: State)

  function ChunkEvents(id: string, payloads: seq<string>): (r: seq<Event>)
    ensures |r| == |payloads| && forall i :: 0 <= i < |r| ==> r[i] == Chunk(id, payloads[i])
  {
    if payloads == [] then [] else [Chunk(id, payloads[0])] + ChunkEvents(id, payloads[1..])
  }

  /** The events of one call to the provider before it answers. */
  function CallEvents(w: World, n: nat): seq<Event> {
    [MessageStart(w.ids(n))] + ChunkEvents(w.ids(n), w.chunks(n))
  }

  function ReplyMessage(w: World, n: nat, parts: seq<Part>): Message {
    Message(w.ids(n), Assistant, parts)
  }

  /** Folds one reply, taken to mean `kind`, into the state. */
  function Advance(cfg: Config, w: World, s: State, parts: seq<Part>, used: Usage, kind: Kind): State {
    var n := s.iteration + 1;
    var message := ReplyMessage(w, n, parts);
    var calls := Calls(parts);
    var added := Added(cfg, w, s, calls, kind);
    var usage := AddUsage(s.usage, used);
    State(
      s.history + [message] + added,
      s.events + (CallEvents(w, n) + [MessageStop(message.id), MessageComplete(message)]
                  + TailEvents(cfg, w, s, calls, kind, usage)),
      usage,
      n,
      if Counted(kind) then Push(s.recent, Fingerprint(w, calls), cfg.stuckThreshold) else s.recent,
      if kind.Rejected? then s.handoffRetries + 1 else s.handoffRetries,
      if kind.Missing? then s.missingRetries + 1 else s.missingRetries,
      if kind.Executed? || kind.CancelledLate? then s.checks + 2 else s.checks + 1,
      if kind.Executed? then s.executions + |calls| else s.executions,
      s.rounds + [Round(message, used, kind, added)])
  }

  function OneRound(cfg: Config, w: World, s: State): Next {
    if w.cancelled(s.checks) then Halt(Failed(Cancelled), s)
    else if s.iteration >= cfg.maxIterations then Halt(Failed(MaxIterationsExceeded(cfg.maxIterations)), s)
    else
      match w.replies(s.iteration + 1)
      case ProviderError(e) =>
        Halt(Failed(Provider(e)),
             s.(iteration := s.iteration + 1, checks := s.checks + 1,
                events := s.events + CallEvents(w, s.iteration + 1)))
      case Response(parts, used) =>
        var kind := Judge(cfg, w, s, Calls(parts));
        var s' := Advance(cfg, w, s, parts, used, kind);
        if EndsRun(kind) then Halt(OutcomeOf(cfg, w, parts, kind, s'.usage), s') else Continue(s')
  }

  /** The state after at most `n` rounds; a run that has halted stays halted. */
  function After(cfg: Config, w: World, s: State, n: nat): Next {
    if n == 0 then Continue(s)
    else
      match After(cfg, w, s, n - 1)
      case Halt(o, h) => Halt(o, h)
      case Continue(s') => OneRound(cfg, w, s')
  }

  /** A whole run. */
  function Run(cfg: Config, w: World, base: seq<Message>, input: Message): Next {
    After(cfg, w, Start(base, input), cfg.maxIterations + 1)
  }
}
