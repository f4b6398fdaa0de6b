/**
  The workflow: one agent session after another, handed over along transition rules, with
  an event log that alone determines the persisted state.
 */
module Workflow {
  import opened Common

  /** Session ids; a fresh one is larger than every id drawn before. */
  type Session = nat

  datatype Transition = Transition(to: string, condition: Option<string>)

  datatype AgentDef = AgentDef(name: string, model: string, transitions: Option<seq<Transition>>)

  datatype Definition = Definition(start: string, agents: seq<AgentDef>)

  datatype Failure =
    | StartMissing(name: string)
    | TargetMissing(name: string)
    | NoProvider(model: string)
    | ForkFailed(source: Session)
    | AgentFailure(error: string)

  datatype Event =
    | WorkflowStarted
    | AgentStarted(agent: string, session: Session, input: string)
    | AgentTransitioned(from: string, to: string, fromSession: Session, toSession: Session, condition: Option<string>)
    | WorkflowFinished(output: Json)
    | WorkflowSuspended
    | WorkflowFailed(failure: Failure, recoverable: bool)
    | WorkflowPaused(paused: Session, callId: Option<string>)
    | WorkflowResumed

  datatype Status = Pending | Running | Suspended | AwaitingUserInput | Finished | Failed

  datatype State = State(
    status: Status,
    agent: Option<string>,
    session: Option<Session>,
    pending: Option<string>)

  const INITIAL := State(Pending, None, None, None)

  function ApplyEvent(s: State, e: Event): State {
    match e
    case WorkflowStarted => s.(status := Running)
    case AgentStarted(agent, session, _) => s.(agent := Some(agent), session := Some(session), status := Running)
    case AgentTransitioned(_, to, _, toSession, _) =>
      s.(agent := Some(to), session := Some(toSession), status := Running)
    case WorkflowFinished(_) => s.(status := Finished)
    case WorkflowSuspended => s.(status := Suspended)
    case WorkflowFailed(_, _) => s.(status := Failed)
    case WorkflowPaused(_, callId) => s.(status := AwaitingUserInput, pending := callId)
    case WorkflowResumed => s.(status := Running, pending := None)
  }

  function Fold(log: seq<Event>): State {
    if log == [] then INITIAL else ApplyEvent(Fold(log[..|log| - 1]), log[|log| - 1])
  }

  /** Fixed for a workflow; `holds` says whether a condition evaluates to true on an output. */
  datatype Env = Env(def: Definition, providers: set<string>, holds: (string, Json) -> bool, asInput: Json -> string)

  function FindAgent(agents: seq<AgentDef>, name: string): (r: Option<AgentDef>)
    ensures r.Some? <==> exists a :: a in agents && a.name == name
    ensures r.Some? ==> r.value in agents && r.value.name == name
  {
    if agents == [] then None
    else if agents[0].name == name then Some(agents[0])
    else FindAgent(agents[1..], name)
  }

  predicate Matches(env: Env, t: Transition, output: Json) {
    t.condition.None? || env.holds(t.condition.value, output)
  }

  /** The first transition whose condition is absent or holds. */
  function FindNextTransition(env: Env, ts: seq<Transition>, output: Json): (r: Option<Transition>)
    ensures r.None? <==> forall i :: 0 <= i < |ts| ==> !Matches(env, ts[i], output)
    ensures r.Some? ==>
              exists i :: 0 <= i < |ts| && ts[i] == r.value && Matches(env, ts[i], output) &&
                          forall j :: 0 <= j < i ==> !Matches(env, ts[j], output)
  {
    if ts == [] then None
    else if Matches(env, ts[0], output) then Some(ts[0])
    else
      var r := FindNextTransition(env, ts[1..], output);
      assert forall i :: 0 < i < |ts| ==> ts[i] == ts[1..][i - 1];
      r
  }

  function TransitionsOf(env: Env, agent: string): seq<Transition> {
    match FindAgent(env.def.agents, agent)
    case None => []
    case Some(def) => if def.transitions.Some? then def.transitions.value else []
  }

  // ---- Commands ---------------------------------------------------------------------------

  datatype Command =
    | Start(input: string)
    | Cancel
    | Resume(message: string)
    | Fork(source: Session, message: string)
    | AgentConcluded(reporter: Session, output: Json)
    | AgentAsked(reporter: Session, callId: Option<string>, question: string)
    | AgentFailed(reporter: Session, error: string, recoverable: bool)

  datatype AgentCommand = RunAgent(input: string) | InjectToolResult(callId: string, content: string) | CancelRun

  /** What the workflow does to its sessions. */
  datatype Action = Spawn(def: AgentDef, session: Session) | Tell(session: Session, command: AgentCommand)

  datatype Notice =
    | NoticeAwaiting(question: string)
    | NoticeSuspended
    | NoticeFinished(output: Json)
    | NoticeFailed(failure: Failure)

  /** The answer to one command: the effect, the child then held, what was done and pushed, the ids drawn. */
  datatype Response = Response(
    effect: Effect<Event>,
    child: Option<Session>,
    actions: seq<Action>,
    notices: seq<Notice>,
    drawn: nat)

  function Quiet(child: Option<Session>): Response {
    Response(NoEffect, child, [], [], 0)
  }

  function FailWith(child: Option<Session>, failure: Failure, notices: seq<Notice>, drawn: nat): Response {
    Response(PersistAndStop([WorkflowFailed(failure, false)]), child, [], notices, drawn)
  }

  function OnStart(env: Env, child: Option<Session>, input: string, newId: Session): Response {
    match FindAgent(env.def.agents, env.def.start)
    case None =>
      FailWith(child, StartMissing(env.def.start), [NoticeFailed(StartMissing(env.def.start))], 0)
    case Some(def) =>
      if def.model !in env.providers then
        FailWith(child, NoProvider(def.model), [NoticeFailed(NoProvider(def.model))], 1)
      else
        Response(
          Persist([WorkflowStarted, AgentStarted(env.def.start, newId, input)]), Some(newId),
          [Spawn(def, newId), Tell(newId, RunAgent(input))], [], 1)
  }

  predicate IsCurrent(s: State, session: Session) {
    s.session == Some(session)
  }

  function OnConcluded(
      env: Env, child: Option<Session>, s: State, session: Session, output: Json, newId: Session): Response {
    if !IsCurrent(s, session) then Quiet(child)
    else if s.agent.None? then
      Response(PersistAndStop([WorkflowFinished(output)]), child, [], [NoticeFinished(output)], 0)
    else
      match FindNextTransition(env, TransitionsOf(env, s.agent.value), output)
      case None =>
        Response(PersistAndStop([WorkflowFinished(output)]), child, [], [NoticeFinished(output)], 0)
      case Some(t) =>
        match FindAgent(env.def.agents, t.to)
        case None => FailWith(child, TargetMissing(t.to), [NoticeFailed(TargetMissing(t.to))], 0)
        case Some(def) =>
          if def.model !in env.providers then
            FailWith(child, NoProvider(def.model), [NoticeFailed(NoProvider(def.model))], 1)
          else
            Response(
              Persist([AgentTransitioned(s.agent.value, t.to, session, newId, t.condition),
                       AgentStarted(t.to, newId, env.asInput(output))]),
              Some(newId),
              [Spawn(def, newId), Tell(newId, RunAgent(env.asInput(output)))], [], 1)
  }

  /** Sends `command` to the held child, or to the session's agent spawned anew. */
  function OnResumeWith(
      env: Env, child: Option<Session>, agent: string, session: Session, command: AgentCommand, notify: bool)
    : Response
  {
    if child.Some? then Response(NoEffect, child, [Tell(child.value, command)], [], 0)
    else
      match FindAgent(env.def.agents, agent)
      case None => Quiet(child)
      case Some(def) =>
        if def.model !in env.providers then
          FailWith(child, NoProvider(def.model), if notify then [NoticeFailed(NoProvider(def.model))] else [], 0)
        else
          Response(NoEffect, Some(session), [Spawn(def, session), Tell(session, command)], [], 0)
  }

  function OnResume(env: Env, child: Option<Session>, s: State, message: string): Response {
    if s.status.AwaitingUserInput? then
      if s.pending.None? || s.session.None? || s.agent.None? then Quiet(child)
      else
        OnResumeWith(env, child, s.agent.value, s.session.value, InjectToolResult(s.pending.value, message), true)
    else if s.status.Suspended? then
      if s.session.None? || s.agent.None? then Quiet(child)
      else OnResumeWith(env, child, s.agent.value, s.session.value, RunAgent(message), false)
    else Quiet(child)
  }

  /** `copied` says whether the snapshot of the source session could be copied. */
  function OnFork(
      env: Env, child: Option<Session>, s: State, source: Session, message: string, newId: Session, copied: bool)
    : Response
  {
    if !s.status.Suspended? || s.agent.None? then Quiet(child)
    else
      match FindAgent(env.def.agents, s.agent.value)
      case None => Quiet(child)
      case Some(def) =>
        if !copied then FailWith(child, ForkFailed(source), [], 1)
        else if def.model !in env.providers then FailWith(child, NoProvider(def.model), [], 1)
        else
          Response(
            Persist([AgentStarted(s.agent.value, newId, message)]), Some(newId),
            [Spawn(def, newId), Tell(newId, RunAgent(message))], [], 1)
  }

  function OnCancel(child: Option<Session>): Response {
    Response(Persist([WorkflowSuspended]), child,
             if child.Some? then [Tell(child.value, CancelRun)] else [], [NoticeSuspended], 0)
  }

  function OnFailed(child: Option<Session>, s: State, session: Session, error: string, recoverable: bool): Response {
    if !IsCurrent(s, session) then Quiet(child)
    else if recoverable then Response(Persist([WorkflowSuspended]), child, [], [NoticeSuspended], 0)
    else FailWith(child, AgentFailure(error), [NoticeFailed(AgentFailure(error))], 0)
  }

  function OnAsked(
      child: Option<Session>, s: State, session: Session, callId: Option<string>, question: string): Response {
    if !IsCurrent(s, session) then Quiet(child)
    else Response(Persist([WorkflowPaused(session, callId)]), child, [], [NoticeAwaiting(question)], 0)
  }

  function Handle(env: Env, child: Option<Session>, s: State, c: Command, newId: Session, copied: bool): Response {
    match c
    case Start(input) => OnStart(env, child, input, newId)
    case Cancel => OnCancel(child)
    case Resume(message) => OnResume(env, child, s, message)
    case Fork(source, message) => OnFork(env, child, s, source, message, newId, copied)
    case AgentConcluded(session, output) => OnConcluded(env, child, s, session, output, newId)
    case AgentAsked(session, callId, question) => OnAsked(child, s, session, callId, question)
    case AgentFailed(session, error, recoverable) => OnFailed(child, s, session, error, recoverable)
  }

  /** The child held after recovery: a running workflow spawns its current agent again. */
  function OnRecovery(env: Env, s: State): (Option<Session>, seq<Action>) {
    if !s.status.Running? || s.agent.None? || s.session.None? then (None, [])
    else
      match FindAgent(env.def.agents, s.agent.value)
      case None => (None, [])
      case Some(def) =>
        if def.model in env.providers then (s.session, [Spawn(def, s.session.value)]) else (None, [])
  }
}
