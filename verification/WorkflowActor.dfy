/** The workflow's handlers as they run: they hold a child, spawn, send and notify as they go. */
module WorkflowActors {
  import opened Common
  import opened Workflow

  class WorkflowActor {
    const env: Env
    var currentChild: Option<Session>
    /** The next fresh session id. */
    var nextId: Session
    /** What has been done to sessions, and pushed to observers, so far. */
    var actions: seq<Action>
    var notices: seq<Notice>

    constructor (env: Env, nextId: Session)
      ensures this.env == env && this.nextId == nextId
      ensures currentChild == None && actions == [] && notices == []
    {
      this.env := env;
      this.nextId := nextId;
      currentChild := None;
      actions := [];
      notices := [];
    }

    /** The handler answered as `r` specifies, starting from the given fields. */
    twostate predicate Did(r: Response)
      reads this
    {
      && currentChild == r.child
      && actions == old(actions) + r.actions
      && notices == old(notices) + r.notices
      && nextId == old(nextId) + r.drawn
    }

    method Notify(n: Notice)
      modifies this`notices
      ensures notices == old(notices) + [n]
    {
      notices := notices + [n];
    }

    method Draw() returns (id: Session)
      modifies this`nextId
      ensures id == old(nextId) && nextId == old(nextId) + 1
    {
      id := nextId;
      nextId := nextId + 1;
    }

    method Send(session: Session, command: AgentCommand)
      modifies this`actions
      ensures actions == old(actions) + [Tell(session, command)]
    {
      actions := actions + [Tell(session, command)];
    }

    /** Spawns the agent unless its model has no provider. */
    method SpawnAgent(def: AgentDef, session: Session) returns (r: Result<Session, Failure>)
      modifies this`actions
      ensures if def.model in env.providers then r == Ok(session) && actions == old(actions) + [Spawn(def, session)]
              else r == Err(NoProvider(def.model)) && actions == old(actions)
    {
      if def.model !in env.providers {
        return Err(NoProvider(def.model));
      }
      actions := actions + [Spawn(def, session)];
      return Ok(session);
    }

    /** Tries the transitions in order. */
    method FindNext(transitions: seq<Transition>, output: Json) returns (r: Option<Transition>)
      ensures r == FindNextTransition(env, transitions, output)
    {
      var i := 0;
      while i < |transitions|
        invariant 0 <= i <= |transitions|
        invariant FindNextTransition(env, transitions, output) == FindNextTransition(env, transitions[i..], output)
      {
        var t := transitions[i];
        assert transitions[i..][1..] == transitions[i + 1..];
        if t.condition.None? || env.holds(t.condition.value, output) {
          return Some(t);
        }
        i := i + 1;
      }
      return None;
    }

    method Start(input: string) returns (effect: Effect<Event>)
      modifies this
      ensures var r := OnStart(env, old(currentChild), input, old(nextId)); effect == r.effect && Did(r)
    {
      var found := FindAgent(env.def.agents, env.def.start);
      if found.None? {
        Notify(NoticeFailed(StartMissing(env.def.start)));
        return PersistAndStop([WorkflowFailed(StartMissing(env.def.start), false)]);
      }
      var session := Draw();
      var spawned := SpawnAgent(found.value, session);
      if spawned.Err? {
        Notify(NoticeFailed(spawned.error));
        return PersistAndStop([WorkflowFailed(spawned.error, false)]);
      }
      Send(session, RunAgent(input));
      currentChild := Some(session);
      return Persist([WorkflowStarted, AgentStarted(env.def.start, session, input)]);
    }

    method Concluded(s: State, session: Session, output: Json) returns (effect: Effect<Event>)
      modifies this
      ensures var r := OnConcluded(env, old(currentChild), s, session, output, old(nextId));
              effect == r.effect && Did(r)
    {
      hide FindAgent, FindNextTransition, TransitionsOf;
      if s.session != Some(session) {
        return NoEffect;
      }
      if s.agent.None? {
        Notify(NoticeFinished(output));
        return PersistAndStop([WorkflowFinished(output)]);
      }
      var next := FindNext(TransitionsOf(env, s.agent.value), output);
      if next.None? {
        Notify(NoticeFinished(output));
        return PersistAndStop([WorkflowFinished(output)]);
      }
      var target := FindAgent(env.def.agents, next.value.to);
      if target.None? {
        Notify(NoticeFailed(TargetMissing(next.value.to)));
        return PersistAndStop([WorkflowFailed(TargetMissing(next.value.to), false)]);
      }
      var toSession := Draw();
      var input := env.asInput(output);
      var spawned := SpawnAgent(target.value, toSession);
      if spawned.Err? {
        Notify(NoticeFailed(spawned.error));
        return PersistAndStop([WorkflowFailed(spawned.error, false)]);
      }
      Send(toSession, RunAgent(input));
      currentChild := Some(toSession);
      return Persist([AgentTransitioned(s.agent.value, next.value.to, session, toSession, next.value.condition),
                      AgentStarted(next.value.to, toSession, input)]);
    }

    method ResumeWith(agent: string, session: Session, command: AgentCommand, notify: bool)
      returns (effect: Effect<Event>)
      modifies this
      ensures var r := OnResumeWith(env, old(currentChild), agent, session, command, notify);
              effect == r.effect && Did(r)
    {
      if currentChild.None? {
        var found := FindAgent(env.def.agents, agent);
        if found.None? {
          return NoEffect;
        }
        var spawned := SpawnAgent(found.value, session);
        if spawned.Err? {
          if notify {
            Notify(NoticeFailed(spawned.error));
          }
          return PersistAndStop([WorkflowFailed(spawned.error, false)]);
        }
        currentChild := Some(session);
      }
      Send(currentChild.value, command);
      return NoEffect;
    }

    method Resume(s: State, message: string) returns (effect: Effect<Event>)
      modifies this
      ensures var r := OnResume(env, old(currentChild), s, message); effect == r.effect && Did(r)
    {
      match s.status {
        case AwaitingUserInput =>
          if s.pending.None? || s.session.None? || s.agent.None? {
            return NoEffect;
          }
          effect := ResumeWith(s.agent.value, s.session.value, InjectToolResult(s.pending.value, message), true);
        case Suspended =>
          if s.session.None? || s.agent.None? {
            return NoEffect;
          }
          effect := ResumeWith(s.agent.value, s.session.value, RunAgent(message), false);
        case _ =>
          return NoEffect;
      }
    }

    method Fork(s: State, source: Session, message: string, copied: bool) returns (effect: Effect<Event>)
      modifies this
      ensures var r := OnFork(env, old(currentChild), s, source, message, old(nextId), copied);
              effect == r.effect && Did(r)
    {
      if s.status != Suspended || s.agent.None? {
        return NoEffect;
      }
      var found := FindAgent(env.def.agents, s.agent.value);
      if found.None? {
        return NoEffect;
      }
      var session := Draw();
      if !copied {
        return PersistAndStop([WorkflowFailed(ForkFailed(source), false)]);
      }
      var spawned := SpawnAgent(found.value, session);
      if spawned.Err? {
        return PersistAndStop([WorkflowFailed(spawned.error, false)]);
      }
      Send(session, RunAgent(message));
      currentChild := Some(session);
      return Persist([AgentStarted(s.agent.value, session, message)]);
    }

    /** `copied` matters for a fork only: whether the journal could copy the snapshot. */
    method HandleCommand(s: State, c: Command, copied: bool) returns (effect: Effect<Event>)
      modifies this
      ensures var r := Handle(env, old(currentChild), s, c, old(nextId), copied); effect == r.effect && Did(r)
    {
      match c {
        case Start(input) => effect := Start(input);
        case Cancel =>
          if currentChild.Some? {
            Send(currentChild.value, CancelRun);
          }
          Notify(NoticeSuspended);
          effect := Persist([WorkflowSuspended]);
        case Resume(message) => effect := Resume(s, message);
        case Fork(source, message) => effect := Fork(s, source, message, copied);
        case AgentConcluded(session, output) => effect := Concluded(s, session, output);
        case AgentFailed(session, error, recoverable) =>
          if s.session != Some(session) {
            return NoEffect;
          }
          if recoverable {
            Notify(NoticeSuspended);
            return Persist([WorkflowSuspended]);
          }
          Notify(NoticeFailed(AgentFailure(error)));
          return PersistAndStop([WorkflowFailed(AgentFailure(error), false)]);
        case AgentAsked(session, callId, question) =>
          if s.session != Some(session) {
            return NoEffect;
          }
          Notify(NoticeAwaiting(question));
          return Persist([WorkflowPaused(session, callId)]);
      }
    }

    method RecoveryComplete(s: State)
      requires currentChild == None
      modifies this
      ensures var (child, done) := OnRecovery(env, s);
              && currentChild == child && actions == old(actions) + done
              && notices == old(notices) && nextId == old(nextId)
    {
      if s.status != Running || s.agent.None? || s.session.None? {
        return;
      }
      var found := FindAgent(env.def.agents, s.agent.value);
      if found.None? {
        return;
      }
      var spawned := SpawnAgent(found.value, s.session.value);
      if spawned.Ok? {
        currentChild := Some(spawned.value);
      }
    }
  }
}
