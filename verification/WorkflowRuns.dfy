/**
  A workflow over all its incarnations: any commands and reports in any order, stale and
  duplicate ones among them, persists that fail, crashes and recoveries.
 */
module WorkflowRuns {
  import opened Common
  import opened Workflow

  /** An incarnation; `intact` while every persist it asked for succeeded. */
  datatype Incarnation = Incarnation(state: State, child: Option<Session>, intact: bool)

  /**
    `agents` are the sessions whose agent, spawned by this incarnation, is running; `done` is
    all that any incarnation did to its sessions, in order.
   */
  datatype Sys = Sys(
    log: seq<Event>,
    live: Option<Incarnation>,
    nextId: Session,
    agents: set<Session>,
    done: seq<Action>)

  /** An agent may depart with its report still under way, or without one. */
  datatype Step = Recover | Crash | Depart(session: Session) | Do(command: Command, persisted: bool, copied: bool)

  const BORN := Sys([], None, 0, {}, [])

  function Spawned(actions: seq<Action>): set<Session> {
    set a | a in actions && a.Spawn? :: a.session
  }

  /** An agent that concluded or failed has stopped by the time its report is taken. */
  function Stopped(c: Command): set<Session> {
    match c
    case AgentConcluded(session, _) => {session}
    case AgentFailed(session, _, _) => {session}
    case _ => {}
  }

  function EventsOf(e: Effect<Event>): seq<Event> {
    match e
    case Persist(events) => events
    case PersistAndSnapshot(events) => events
    case PersistAndStop(events) => events
    case _ => []
  }

  function FoldOnto(s: State, events: seq<Event>): State {
    if events == [] then s else ApplyEvent(FoldOnto(s, events[..|events| - 1]), events[|events| - 1])
  }

  function Obey(env: Env, sys: Sys, c: Command, persisted: bool, copied: bool): Sys
    requires sys.live.Some?
  {
    var me := sys.live.value;
    var r := Handle(env, me.child, me.state, c, sys.nextId, copied);
    var events := EventsOf(r.effect);
    Sys(
      if persisted then sys.log + events else sys.log,
      if r.effect.PersistAndStop? then None
      else Some(Incarnation(
                  if persisted then FoldOnto(me.state, events) else me.state,
                  r.child, me.intact && (persisted || events == []))),
      sys.nextId + r.drawn,
      sys.agents - Stopped(c) + Spawned(r.actions),
      sys.done + r.actions)
  }

  function Next(env: Env, sys: Sys, step: Step): Sys {
    match step
    case Recover =>
      if sys.live.Some? then sys
      else
        var (child, actions) := OnRecovery(env, Fold(sys.log));
        sys.(live := Some(Incarnation(Fold(sys.log), child, true)), agents := Spawned(actions),
             done := sys.done + actions)
    case Crash => sys.(live := None, agents := {})
    case Depart(session) => sys.(agents := sys.agents - {session})
    case Do(c, persisted, copied) => if sys.live.None? then sys else Obey(env, sys, c, persisted, copied)
  }

  function Exec(env: Env, steps: seq<Step>): Sys {
    if steps == [] then BORN else Next(env, Exec(env, steps[..|steps| - 1]), steps[|steps| - 1])
  }

  lemma {:induction false} FoldConcat(log: seq<Event>, events: seq<Event>)
    ensures Fold(log + events) == FoldOnto(Fold(log), events)
    decreases events
  {
    if events == [] {
      assert log + events == log;
    } else {
      var n := |log + events| - 1;
      assert (log + events)[..n] == log + events[..|events| - 1] && (log + events)[n] == events[|events| - 1];
      FoldConcat(log, events[..|events| - 1]);
    }
  }

  // ---- What each logged event rests on ------------------------------------------------------

  predicate Newer(before: State, session: Session) {
    before.session.None? || before.session.value < session
  }

  /** The agent is defined and its model has a provider. */
  predicate CanRun(env: Env, agent: string) {
    var def := FindAgent(env.def.agents, agent);
    def.Some? && def.value.model in env.providers
  }

  ghost predicate Justified(env: Env, log: seq<Event>, i: nat)
    requires i < |log|
  {
    var before := Fold(log[..i]);
    match log[i]
    case WorkflowStarted =>
      i + 1 < |log| && log[i + 1].AgentStarted? && log[i + 1].agent == env.def.start
    case AgentStarted(agent, session, input) =>
      && CanRun(env, agent)
      && (|| (0 < i && log[i - 1] == WorkflowStarted && agent == env.def.start && Newer(before, session))
          || (0 < i && log[i - 1].AgentTransitioned? && agent == log[i - 1].to && session == log[i - 1].toSession)
          || (before.status.Suspended? && before.agent == Some(agent) && Newer(before, session)))
    case AgentTransitioned(from, to, fromSession, toSession, condition) =>
      && before.agent == Some(from) && before.session == Some(fromSession) && fromSession < toSession
      && i + 1 < |log| && log[i + 1].AgentStarted? && log[i + 1].agent == to && log[i + 1].session == toSession
      && exists output ::
           && FindNextTransition(env, TransitionsOf(env, from), output) == Some(Transition(to, condition))
           && log[i + 1].input == env.asInput(output)
    case WorkflowPaused(session, _) => before.session == Some(session)
    case WorkflowFinished(_) => before.session.Some?
    case WorkflowFailed(_, _) => true
    case WorkflowSuspended => true
    case WorkflowResumed => false
  }

  ghost predicate AllJustified(env: Env, log: seq<Event>) {
    forall i: nat :: i < |log| ==> Justified(env, log, i)
  }

  lemma StillJustified(env: Env, log: seq<Event>, more: seq<Event>, i: nat)
    requires i < |log| && Justified(env, log, i)
    ensures Justified(env, log + more, i)
  {
    hide Fold, FindNextTransition, CanRun;
    assert (log + more)[..i] == log[..i];
    assert (log + more)[i] == log[i];
    assert i > 0 ==> (log + more)[i - 1] == log[i - 1];
    assert i + 1 < |log| ==> (log + more)[i + 1] == log[i + 1];
  }

  lemma OneMoreJustified(env: Env, log: seq<Event>, e: Event)
    requires AllJustified(env, log) && Justified(env, log + [e], |log|)
    ensures AllJustified(env, log + [e])
  {
    hide Justified;
    forall i: nat | i < |log + [e]| ensures Justified(env, log + [e], i) {
      if i < |log| {
        StillJustified(env, log, [e], i);
      }
    }
  }

  lemma TwoMoreJustified(env: Env, log: seq<Event>, a: Event, b: Event)
    requires AllJustified(env, log)
    requires Justified(env, log + [a, b], |log|) && Justified(env, log + [a, b], |log| + 1)
    ensures AllJustified(env, log + [a, b])
  {
    hide Justified;
    forall i: nat | i < |log + [a, b]| ensures Justified(env, log + [a, b], i) {
      if i < |log| {
        StillJustified(env, log, [a, b], i);
      }
    }
  }

  // ---- The invariant ---------------------------------------------------------------------------

  /** What the log says of the status at a command boundary. */
  ghost predicate StatusFits(log: seq<Event>) {
    var s := Fold(log);
    && (s.status.Running? || s.status.AwaitingUserInput? ==> s.agent.Some? && s.session.Some?)
    && (s.agent.Some? <==> s.session.Some?)
    && (s.status.AwaitingUserInput? <==> log != [] && log[|log| - 1].WorkflowPaused?)
    && (s.status.AwaitingUserInput? ==>
          log[|log| - 1] == WorkflowPaused(s.session.value, s.pending))
  }

  ghost predicate Sound(env: Env, sys: Sys) {
    && AllJustified(env, sys.log)
    && StatusFits(sys.log)
    && (Fold(sys.log).session.Some? ==> Fold(sys.log).session.value < sys.nextId)
    && (Fold(sys.log).agent.Some? ==> CanRun(env, Fold(sys.log).agent.value))
    && (sys.live.Some? ==>
          var me := sys.live.value;
          && me.state == Fold(sys.log)
          && (me.intact ==> me.child.None? || me.child == me.state.session))
  }

  lemma FoldOne(log: seq<Event>, e: Event)
    ensures Fold(log + [e]) == ApplyEvent(Fold(log), e)
    ensures (log + [e])[..|log|] == log && (log + [e])[|log|] == e
  {
    assert (log + [e])[..|log|] == log;
  }

  lemma FoldTwo(log: seq<Event>, a: Event, b: Event)
    ensures Fold(log + [a, b]) == ApplyEvent(ApplyEvent(Fold(log), a), b)
    ensures (log + [a, b])[..|log|] == log && (log + [a, b])[..|log| + 1] == log + [a]
    ensures Fold(log + [a]) == ApplyEvent(Fold(log), a)
  {
    hide Fold, ApplyEvent;
    assert [a, b] == [a] + [b];
    Assoc(log, [a], [b]);
    FoldOne(log, a);
    FoldOne(log + [a], b);
    assert (log + [a, b])[..|log|] == log;
  }

  /** One event appended that rests on the state before it. */
  lemma SimpleEventSound(env: Env, sys: Sys, e: Event)
    requires Sound(env, sys)
    requires match e
             case WorkflowPaused(session, _) => Fold(sys.log).session == Some(session)
             case WorkflowFinished(_) => Fold(sys.log).session.Some?
             case WorkflowFailed(_, _) => true
             case WorkflowSuspended => true
             case _ => false
    ensures AllJustified(env, sys.log + [e]) && StatusFits(sys.log + [e])
    ensures Fold(sys.log + [e]).session == Fold(sys.log).session && Fold(sys.log + [e]).agent == Fold(sys.log).agent
  {
    hide AllJustified, FindNextTransition, CanRun, Fold;
    FoldOne(sys.log, e);
    OneMoreJustified(env, sys.log, e);
  }

  /** A fork appends one start of the current agent in a new session. */
  lemma ForkSound(env: Env, sys: Sys, agent: string, session: Session, input: string)
    requires Sound(env, sys) && Fold(sys.log).status.Suspended? && Fold(sys.log).agent == Some(agent)
    requires CanRun(env, agent) && Newer(Fold(sys.log), session)
    ensures var e := AgentStarted(agent, session, input);
            AllJustified(env, sys.log + [e]) && StatusFits(sys.log + [e])
  {
    hide AllJustified, FindNextTransition, CanRun;
    var e := AgentStarted(agent, session, input);
    FoldOne(sys.log, e);
    OneMoreJustified(env, sys.log, e);
  }

  lemma StartSound(env: Env, sys: Sys, session: Session, input: string)
    requires Sound(env, sys) && CanRun(env, env.def.start) && Newer(Fold(sys.log), session)
    ensures var log := sys.log + [WorkflowStarted, AgentStarted(env.def.start, session, input)];
            AllJustified(env, log) && StatusFits(log)
  {
    hide AllJustified, FindNextTransition, CanRun;
    var e := AgentStarted(env.def.start, session, input);
    FoldTwo(sys.log, WorkflowStarted, e);
    TwoMoreJustified(env, sys.log, WorkflowStarted, e);
  }

  lemma HandOverSound(env: Env, sys: Sys, t: Transition, output: Json, newId: Session)
    requires Sound(env, sys) && Fold(sys.log).agent.Some? && Fold(sys.log).session.Some?
    requires FindNextTransition(env, TransitionsOf(env, Fold(sys.log).agent.value), output) == Some(t)
    requires CanRun(env, t.to) && Newer(Fold(sys.log), newId)
    ensures var s := Fold(sys.log);
            var log := sys.log + [AgentTransitioned(s.agent.value, t.to, s.session.value, newId, t.condition),
                                  AgentStarted(t.to, newId, env.asInput(output))];
            AllJustified(env, log) && StatusFits(log)
  {
    hide AllJustified, FindNextTransition, CanRun;
    var s := Fold(sys.log);
    var a := AgentTransitioned(s.agent.value, t.to, s.session.value, newId, t.condition);
    var b := AgentStarted(t.to, newId, env.asInput(output));
    FoldTwo(sys.log, a, b);
    var log := sys.log + [a, b];
    assert log[|sys.log|] == a && log[|sys.log| + 1] == b;
    TwoMoreJustified(env, sys.log, a, b);
  }

  /** The answer `r`, persisted, leaves a sound log, and the child at the current session. */
  ghost predicate GrowsWell(env: Env, sys: Sys, child: Option<Session>, r: Response) {
    var log := sys.log + EventsOf(r.effect);
    && AllJustified(env, log) && StatusFits(log)
    && (Fold(log).session.Some? ==> Fold(log).session.value < sys.nextId + r.drawn)
    && (Fold(log).agent.Some? ==> CanRun(env, Fold(log).agent.value))
    && (child.None? || child == Fold(sys.log).session ==>
          r.effect.PersistAndStop? || r.child.None? || r.child == Fold(log).session)
  }

  lemma QuietGrows(env: Env, sys: Sys, child: Option<Session>, r: Response)
    requires Sound(env, sys) && r.effect.NoEffect? && r.drawn == 0
    requires r.child == child || r.child == Fold(sys.log).session
    ensures GrowsWell(env, sys, child, r)
  {
    hide AllJustified, StatusFits, CanRun;
    assert sys.log + [] == sys.log;
  }

  lemma SimpleGrows(env: Env, sys: Sys, child: Option<Session>, r: Response, e: Event)
    requires Sound(env, sys) && r.effect in {Persist([e]), PersistAndStop([e])} && r.child == child
    requires match e
             case WorkflowPaused(session, _) => Fold(sys.log).session == Some(session)
             case WorkflowFinished(_) => Fold(sys.log).session.Some?
             case WorkflowFailed(_, _) => true
             case WorkflowSuspended => true
             case _ => false
    ensures GrowsWell(env, sys, child, r)
  {
    hide AllJustified, StatusFits, CanRun;
    SimpleEventSound(env, sys, e);
  }

  lemma StartGrows(env: Env, sys: Sys, child: Option<Session>, input: string)
    requires Sound(env, sys)
    ensures GrowsWell(env, sys, child, OnStart(env, child, input, sys.nextId))
  {
    hide GrowsWell, AllJustified, FindAgent;
    var r := OnStart(env, child, input, sys.nextId);
    if r.effect.Persist? {
      var e := AgentStarted(env.def.start, sys.nextId, input);
      StartSound(env, sys, sys.nextId, input);
      FoldTwo(sys.log, WorkflowStarted, e);
      NewSessionGrows(env, sys, child, r, env.def.start);
    } else {
      SimpleGrows(env, sys, child, r, r.effect.events[0]);
    }
  }

  /** An answer that moves to a fresh session of a runnable agent. */
  lemma NewSessionGrows(env: Env, sys: Sys, child: Option<Session>, r: Response, agent: string)
    requires CanRun(env, agent) && r.child == Some(sys.nextId) && r.drawn == 1
    requires var log := sys.log + EventsOf(r.effect);
             && AllJustified(env, log) && StatusFits(log)
             && Fold(log).session == Some(sys.nextId) && Fold(log).agent == Some(agent)
    ensures GrowsWell(env, sys, child, r)
  {
    hide AllJustified, StatusFits, CanRun;
  }

  lemma ConcludedGrows(env: Env, sys: Sys, child: Option<Session>, session: Session, output: Json)
    requires Sound(env, sys)
    ensures GrowsWell(env, sys, child, OnConcluded(env, child, Fold(sys.log), session, output, sys.nextId))
  {
    hide GrowsWell, AllJustified, StatusFits, FindAgent, FindNextTransition, TransitionsOf;
    var s := Fold(sys.log);
    var r := OnConcluded(env, child, s, session, output, sys.nextId);
    match r.effect {
      case NoEffect => QuietGrows(env, sys, child, r);
      case PersistAndStop(events) => SimpleGrows(env, sys, child, r, events[0]);
      case Persist(events) =>
        var t := FindNextTransition(env, TransitionsOf(env, s.agent.value), output).value;
        HandOverSound(env, sys, t, output, sys.nextId);
        FoldTwo(sys.log, events[0], events[1]);
        NewSessionGrows(env, sys, child, r, t.to);
    }
  }

  lemma ForkGrows(env: Env, sys: Sys, child: Option<Session>, source: Session, message: string, copied: bool)
    requires Sound(env, sys)
    ensures GrowsWell(env, sys, child, OnFork(env, child, Fold(sys.log), source, message, sys.nextId, copied))
  {
    hide GrowsWell, AllJustified, FindAgent;
    var s := Fold(sys.log);
    var r := OnFork(env, child, s, source, message, sys.nextId, copied);
    match r.effect {
      case NoEffect => QuietGrows(env, sys, child, r);
      case PersistAndStop(events) => SimpleGrows(env, sys, child, r, events[0]);
      case Persist(events) =>
        ForkSound(env, sys, s.agent.value, sys.nextId, message);
        FoldOne(sys.log, events[0]);
        NewSessionGrows(env, sys, child, r, s.agent.value);
    }
  }

  lemma ResumeGrows(env: Env, sys: Sys, child: Option<Session>, message: string)
    requires Sound(env, sys)
    ensures GrowsWell(env, sys, child, OnResume(env, child, Fold(sys.log), message))
  {
    hide GrowsWell, AllJustified, FindAgent;
    var r := OnResume(env, child, Fold(sys.log), message);
    assert r.effect.NoEffect?;
    QuietGrows(env, sys, child, r);
  }

  lemma AnswerGrows(env: Env, sys: Sys, child: Option<Session>, c: Command, copied: bool)
    requires Sound(env, sys)
    ensures GrowsWell(env, sys, child, Handle(env, child, Fold(sys.log), c, sys.nextId, copied))
  {
    hide GrowsWell, Sound, OnConcluded, OnStart, OnFork, OnResume;
    var s := Fold(sys.log);
    var r := Handle(env, child, s, c, sys.nextId, copied);
    match c {
      case Start(input) => StartGrows(env, sys, child, input);
      case Cancel => SimpleGrows(env, sys, child, r, WorkflowSuspended);
      case Resume(message) => ResumeGrows(env, sys, child, message);
      case Fork(source, message) => ForkGrows(env, sys, child, source, message, copied);
      case AgentConcluded(session, output) => ConcludedGrows(env, sys, child, session, output);
      case AgentAsked(session, callId, _) =>
        if IsCurrent(s, session) {
          SimpleGrows(env, sys, child, r, WorkflowPaused(session, callId));
        } else {
          QuietGrows(env, sys, child, r);
        }
      case AgentFailed(session, error, recoverable) =>
        if !IsCurrent(s, session) {
          QuietGrows(env, sys, child, r);
        } else {
          var failed := WorkflowFailed(AgentFailure(error), false);
          SimpleGrows(env, sys, child, r, if recoverable then WorkflowSuspended else failed);
        }
    }
  }

  /** An answer without events only concerns the child. */
  lemma UnpersistedChild(env: Env, sys: Sys, child: Option<Session>, c: Command, copied: bool)
    requires EventsOf(Handle(env, child, Fold(sys.log), c, sys.nextId, copied).effect) == []
    ensures var r := Handle(env, child, Fold(sys.log), c, sys.nextId, copied);
            r.effect.NoEffect? && (r.child == child || r.child == Fold(sys.log).session)
  {
    hide FindAgent, FindNextTransition, Fold;
  }

  lemma ObeySound(env: Env, sys: Sys, c: Command, persisted: bool, copied: bool)
    requires Sound(env, sys) && sys.live.Some?
    ensures Sound(env, Obey(env, sys, c, persisted, copied))
  {
    hide AllJustified, StatusFits, CanRun, Handle;
    var me := sys.live.value;
    var r := Handle(env, me.child, me.state, c, sys.nextId, copied);
    AnswerGrows(env, sys, me.child, c, copied);
    FoldConcat(sys.log, EventsOf(r.effect));
    if EventsOf(r.effect) == [] {
      UnpersistedChild(env, sys, me.child, c, copied);
      assert sys.log + [] == sys.log;
    }
  }

  lemma RecoverSound(env: Env, sys: Sys)
    requires Sound(env, sys)
    ensures Sound(env, Next(env, sys, Recover)) && Sound(env, Next(env, sys, Crash))
  {
    hide AllJustified, StatusFits, FindAgent;
  }

  lemma DepartSound(env: Env, sys: Sys, session: Session)
    requires Sound(env, sys)
    ensures Sound(env, Next(env, sys, Depart(session)))
  {
    hide AllJustified, StatusFits, CanRun;
  }

  /** The invariant of every reachable system. */
  lemma {:induction false} ReachableSound(env: Env, steps: seq<Step>)
    ensures Sound(env, Exec(env, steps))
  {
    hide Sound, Obey;
    if steps == [] {
      BornSound(env);
    } else {
      ReachableSound(env, steps[..|steps| - 1]);
      var sys := Exec(env, steps[..|steps| - 1]);
      match steps[|steps| - 1]
      case Recover => RecoverSound(env, sys);
      case Crash => RecoverSound(env, sys);
      case Depart(session) => DepartSound(env, sys, session);
      case Do(c, persisted, copied) =>
        if sys.live.Some? {
          ObeySound(env, sys, c, persisted, copied);
        }
    }
  }

  lemma BornSound(env: Env)
    ensures Sound(env, BORN)
  {
  }

  // ---- What is logged is done ----------------------------------------------------------------------

  /** The agent that the event says was started was spawned for its session, and told to run on its input. */
  ghost predicate IsTold(env: Env, done: seq<Action>, e: Event)
    requires e.AgentStarted?
  {
    && Tell(e.session, RunAgent(e.input)) in done
    && exists def :: def in env.def.agents && def.name == e.agent && Spawn(def, e.session) in done
  }

  ghost predicate AllTold(env: Env, log: seq<Event>, done: seq<Action>) {
    forall i: nat :: i < |log| && log[i].AgentStarted? ==> IsTold(env, done, log[i])
  }

  /** An answer that logs the start of an agent spawns it first and then tells it to run, and does nothing else. */
  lemma StartsAreTold(
      env: Env, child: Option<Session>, s: State, c: Command, newId: Session, copied: bool, e: Event)
    returns (def: AgentDef)
    requires e in EventsOf(Handle(env, child, s, c, newId, copied).effect) && e.AgentStarted?
    ensures def in env.def.agents && def.name == e.agent
    ensures Handle(env, child, s, c, newId, copied).actions ==
            [Spawn(def, e.session), Tell(e.session, RunAgent(e.input))]
  {
    hide FindNextTransition, TransitionsOf, FindAgent;
    def := FindAgent(env.def.agents, e.agent).value;
  }

  /**
    What is handed on is what was given: the first agent starts on the workflow's input, a
    forked one on its message, the next one on what the last concluded with; and what the
    workflow finishes with is what its last agent concluded with.
   */
  lemma InputsAreHandedOn(
      env: Env, child: Option<Session>, s: State, c: Command, newId: Session, copied: bool, e: Event)
    requires e in EventsOf(Handle(env, child, s, c, newId, copied).effect)
    ensures e.AgentStarted? ==>
              match c
              case Start(input) => e.input == input && e.agent == env.def.start && e.session == newId
              case Fork(_, message) => e.input == message && Some(e.agent) == s.agent && e.session == newId
              case AgentConcluded(session, output) =>
                e.input == env.asInput(output) && s.session == Some(session) && e.session == newId
              case _ => false
    ensures e.WorkflowFinished? ==>
              c.AgentConcluded? && e.output == c.output && s.session == Some(c.reporter)
  {
    hide FindAgent, FindNextTransition, TransitionsOf;
  }

  /**
    A fork starts an agent exactly if the workflow is suspended with an agent that can run and
    the source's snapshot was copied; if it could not be copied, it fails the workflow.
   */
  lemma ForksNeedTheirSnapshot(
      env: Env, child: Option<Session>, s: State, source: Session, message: string, newId: Session, copied: bool)
    ensures var events := EventsOf(Handle(env, child, s, Fork(source, message), newId, copied).effect);
            && ((exists e :: e in events && e.AgentStarted?) <==>
                  s.status.Suspended? && s.agent.Some? && CanRun(env, s.agent.value) && copied)
            && (WorkflowFailed(ForkFailed(source), false) in events <==>
                  && s.status.Suspended? && s.agent.Some? && !copied
                  && exists a :: a in env.def.agents && Some(a.name) == s.agent)
  {
    hide FindAgent;
    var events := EventsOf(Handle(env, child, s, Fork(source, message), newId, copied).effect);
    if s.status.Suspended? && s.agent.Some? && CanRun(env, s.agent.value) && copied {
      assert events[0] in events;
    }
  }

  lemma StillTold(env: Env, done: seq<Action>, more: seq<Action>, e: Event)
    requires e.AgentStarted? && IsTold(env, done, e)
    ensures IsTold(env, done + more, e)
  {
    var def :| def in env.def.agents && def.name == e.agent && Spawn(def, e.session) in done;
    assert Spawn(def, e.session) in done + more;
  }

  lemma ObeyTells(env: Env, sys: Sys, c: Command, persisted: bool, copied: bool)
    requires sys.live.Some? && AllTold(env, sys.log, sys.done)
    ensures var sys' := Obey(env, sys, c, persisted, copied); AllTold(env, sys'.log, sys'.done)
  {
    hide Handle, IsTold;
    var me := sys.live.value;
    var r := Handle(env, me.child, me.state, c, sys.nextId, copied);
    var log := if persisted then sys.log + EventsOf(r.effect) else sys.log;
    forall i: nat | i < |log| && log[i].AgentStarted? ensures IsTold(env, sys.done + r.actions, log[i]) {
      if i < |sys.log| {
        StillTold(env, sys.done, r.actions, sys.log[i]);
      } else {
        NewlyTold(env, sys, c, copied, log[i]);
      }
    }
  }

  lemma NewlyTold(env: Env, sys: Sys, c: Command, copied: bool, e: Event)
    requires sys.live.Some?
    requires var me := sys.live.value;
             e in EventsOf(Handle(env, me.child, me.state, c, sys.nextId, copied).effect) && e.AgentStarted?
    ensures var me := sys.live.value;
            IsTold(env, sys.done + Handle(env, me.child, me.state, c, sys.nextId, copied).actions, e)
  {
    hide Handle;
    var me := sys.live.value;
    var r := Handle(env, me.child, me.state, c, sys.nextId, copied);
    var def := StartsAreTold(env, me.child, me.state, c, sys.nextId, copied, e);
    assert r.actions[0] in sys.done + r.actions && r.actions[1] in sys.done + r.actions;
  }

  lemma MoreIsTold(env: Env, log: seq<Event>, done: seq<Action>, more: seq<Action>)
    requires AllTold(env, log, done)
    ensures AllTold(env, log, done + more)
  {
    hide IsTold;
    forall i: nat | i < |log| && log[i].AgentStarted? ensures IsTold(env, done + more, log[i]) {
      StillTold(env, done, more, log[i]);
    }
  }

  /** Every agent that the log says was started was spawned and told to run. */
  lemma {:induction false} ReachableTold(env: Env, steps: seq<Step>)
    ensures AllTold(env, Exec(env, steps).log, Exec(env, steps).done)
  {
    hide AllTold, Obey;
    if steps == [] {
      NoneTold(env);
    } else {
      ReachableTold(env, steps[..|steps| - 1]);
      var sys := Exec(env, steps[..|steps| - 1]);
      match steps[|steps| - 1]
      case Recover => MoreIsTold(env, sys.log, sys.done, OnRecovery(env, Fold(sys.log)).1);
      case Crash =>
      case Depart(_) =>
      case Do(c, persisted, copied) =>
        if sys.live.Some? {
          ObeyTells(env, sys, c, persisted, copied);
        }
    }
  }

  lemma NoneTold(env: Env)
    ensures AllTold(env, [], [])
  {
  }

  // ---- Exactly-once hand-over ---------------------------------------------------------------------

  /** The current session never goes back to an earlier one. */
  lemma {:induction false} SessionsGrow(env: Env, log: seq<Event>, i: nat, j: nat)
    requires AllJustified(env, log) && i <= j <= |log| && Fold(log[..i]).session.Some?
    ensures Fold(log[..j]).session.Some? && Fold(log[..i]).session.value <= Fold(log[..j]).session.value
    decreases j
  {
    hide AllJustified, FindNextTransition, CanRun;
    if i < j {
      SessionsGrow(env, log, i, j - 1);
      SessionStep(env, log, j - 1);
    }
  }

  lemma SessionStep(env: Env, log: seq<Event>, i: nat)
    requires AllJustified(env, log) && i < |log|
    ensures var before, now := Fold(log[..i]).session, Fold(log[..i + 1]).session;
            && (before.Some? ==> now.Some? && before.value <= now.value)
            && (log[i].AgentTransitioned? ==> before.Some? && before.value == log[i].fromSession < now.value)
            && Fold(log[..i + 1]) == ApplyEvent(Fold(log[..i]), log[i])
  {
    hide FindNextTransition, CanRun, Fold;
    assert log[..i + 1] == log[..i] + [log[i]];
    FoldOne(log[..i], log[i]);
    assert Justified(env, log, i);
    if log[i].AgentStarted? && 0 < i && log[i - 1].AgentTransitioned? && log[i].session == log[i - 1].toSession {
      assert log[..i] == log[..i - 1] + [log[i - 1]];
      FoldOne(log[..i - 1], log[i - 1]);
    }
  }

  /**
    In the log of any reachable system no two hand-overs leave the same session. Each leaves
    the session then current, along the first transition of the current agent that matches
    the session's output, and is followed by the start of the target on that output, which
    was spawned and told to run on it.
   */
  lemma HandOverExactlyOnce(env: Env, steps: seq<Step>, i: nat, j: nat)
    requires var log := Exec(env, steps).log;
             i < j < |log| && log[i].AgentTransitioned? && log[j].AgentTransitioned?
    ensures var log := Exec(env, steps).log;
            && log[i].fromSession != log[j].fromSession
            && Fold(log[..i]).session == Some(log[i].fromSession)
            && Fold(log[..i]).agent == Some(log[i].from)
            && i + 1 < |log| && log[i + 1].AgentStarted?
            && log[i + 1].agent == log[i].to && log[i + 1].session == log[i].toSession
            && IsTold(env, Exec(env, steps).done, log[i + 1])
            && exists output ::
                 && FindNextTransition(env, TransitionsOf(env, log[i].from), output) ==
                    Some(Transition(log[i].to, log[i].condition))
                 && log[i + 1].input == env.asInput(output)
  {
    hide Exec, Fold, FindNextTransition, CanRun, IsTold;
    ReachableSound(env, steps);
    ReachableTold(env, steps);
    var log := Exec(env, steps).log;
    SessionStep(env, log, i);
    SessionStep(env, log, j);
    SessionsGrow(env, log, i + 1, j);
    assert Justified(env, log, i);
  }

  /**
    Whatever session is started, its agent is defined and has a provider, and is the start
    agent, the target of the hand-over just logged, or, on a fork of a suspended workflow,
    the agent already current. The log never records a resumption.
   */
  lemma StartsAreJustified(env: Env, steps: seq<Step>, i: nat)
    requires var log := Exec(env, steps).log; i < |log|
    ensures var log := Exec(env, steps).log;
            && log[i] != WorkflowResumed
            && (log[i].AgentStarted? ==>
                  && CanRun(env, log[i].agent)
                  && IsTold(env, Exec(env, steps).done, log[i])
                  && (|| (0 < i && log[i - 1] == WorkflowStarted && log[i].agent == env.def.start)
                      || (0 < i && log[i - 1].AgentTransitioned? && log[i].agent == log[i - 1].to)
                      || (Fold(log[..i]).status.Suspended? && Fold(log[..i]).agent == Some(log[i].agent))))
  {
    hide Exec, Fold, FindNextTransition, CanRun, IsTold;
    ReachableSound(env, steps);
    ReachableTold(env, steps);
    assert Justified(env, Exec(env, steps).log, i);
  }

  // ---- What the state says ------------------------------------------------------------------------

  predicate Introduces(e: Event) {
    e.AgentStarted? || e.AgentTransitioned?
  }

  /** The current agent and session are those of the last event that introduced any. */
  lemma {:induction false} CurrentMeans(log: seq<Event>) returns (i: nat)
    ensures Fold(log).session.None? ==> Fold(log).agent.None? && forall k :: 0 <= k < |log| ==> !Introduces(log[k])
    ensures Fold(log).session.Some? ==>
              && i < |log| && (forall k :: i < k < |log| ==> !Introduces(log[k]))
              && match log[i]
                 case AgentStarted(agent, session, _) =>
                   Fold(log).agent == Some(agent) && Fold(log).session == Some(session)
                 case AgentTransitioned(_, to, _, toSession, _) =>
                   Fold(log).agent == Some(to) && Fold(log).session == Some(toSession)
                 case _ => false
  {
    i := 0;
    if log != [] {
      var n := |log| - 1;
      i := CurrentMeans(log[..n]);
      if Introduces(log[n]) {
        i := n;
      }
    }
  }

  // ---- The status ------------------------------------------------------------------------------------

  /**
    At every command boundary: a running or paused workflow has an agent and a session; it
    is paused exactly when the last event is a pause, and then of the current session and
    with the pending call; the live state is what recovery would rebuild; and as long as
    every persist of this incarnation succeeded, the child held is that of the current session.
   */
  lemma StatusInvariant(env: Env, steps: seq<Step>)
    ensures var sys := Exec(env, steps);
            var s := Fold(sys.log);
            && (s.status.Running? || s.status.AwaitingUserInput? ==> s.agent.Some? && s.session.Some?)
            && (s.status.AwaitingUserInput? <==> sys.log != [] && sys.log[|sys.log| - 1].WorkflowPaused?)
            && (s.status.AwaitingUserInput? ==>
                  sys.log[|sys.log| - 1] == WorkflowPaused(s.session.value, s.pending))
            && (sys.live.Some? ==>
                  && sys.live.value.state == s
                  && Next(env, Next(env, sys, Crash), Recover).live.value.state == s
                  && (sys.live.value.intact && sys.live.value.child.Some? ==> sys.live.value.child == s.session))
  {
    hide Exec, AllJustified, FindAgent;
    ReachableSound(env, steps);
  }

  /** What each event makes of the status, and nothing else does: it is always that of the last event. */
  lemma StatusIsTheLastEvents(log: seq<Event>)
    ensures var status := Fold(log).status;
            && (status.Pending? <==> log == [])
            && (log != [] ==>
                  var last := log[|log| - 1];
                  && (status.Running? <==>
                        last.WorkflowStarted? || last.AgentStarted? || last.AgentTransitioned? || last.WorkflowResumed?)
                  && (status.Suspended? <==> last.WorkflowSuspended?)
                  && (status.AwaitingUserInput? <==> last.WorkflowPaused?)
                  && (status.Finished? <==> last.WorkflowFinished?)
                  && (status.Failed? <==> last.WorkflowFailed?))
  {
  }

  /**
    What observers are told is what is logged: that the workflow finished, with its output, was
    suspended, or waits for an answer, exactly when it is logged so; and that it failed only if
    it is, and then why.
   */
  lemma NoticesTellTheLog(env: Env, child: Option<Session>, s: State, c: Command, newId: Session, copied: bool)
    ensures var r := Handle(env, child, s, c, newId, copied);
            var events := EventsOf(r.effect);
            && (forall output :: NoticeFinished(output) in r.notices <==> WorkflowFinished(output) in events)
            && (NoticeSuspended in r.notices <==> WorkflowSuspended in events)
            && (forall failure :: NoticeFailed(failure) in r.notices ==> WorkflowFailed(failure, false) in events)
            && (forall question :: NoticeAwaiting(question) in r.notices ==>
                  c.AgentAsked? && c.question == question && WorkflowPaused(c.reporter, c.callId) in events)
            && ((exists e :: e in events && e.WorkflowPaused?) ==>
                  c.AgentAsked? && NoticeAwaiting(c.question) in r.notices)
  {
    hide FindAgent, FindNextTransition, TransitionsOf;
  }

  /** Cancelling always suspends, and stops the run of the agent held. */
  lemma CancellingSuspends(env: Env, child: Option<Session>, s: State, newId: Session, copied: bool)
    ensures var r := Handle(env, child, s, Cancel, newId, copied);
            && EventsOf(r.effect) == [WorkflowSuspended] && !r.effect.PersistAndStop?
            && (forall session: Session :: Tell(session, CancelRun) in r.actions <==> child == Some(session))
  {
  }

  /**
    What becomes of the current session when it reports: a failure suspends the workflow if it
    can be recovered from and fails it with its reason if not, and a question pauses it.
   */
  lemma ReportsAreLogged(env: Env, child: Option<Session>, s: State, c: Command, newId: Session, copied: bool)
    requires (c.AgentFailed? || c.AgentAsked?) && s.session == Some(c.reporter)
    ensures EventsOf(Handle(env, child, s, c, newId, copied).effect) ==
            if c.AgentAsked? then [WorkflowPaused(c.reporter, c.callId)]
            else if c.recoverable then [WorkflowSuspended]
            else [WorkflowFailed(AgentFailure(c.error), false)]
  {
  }

  /**
    A recovered incarnation of a running workflow holds the agent of the current session,
    spawned anew and told nothing; any other holds none and spawns none.
   */
  lemma RecoveryRespawns(env: Env, steps: seq<Step>)
    requires Exec(env, steps).live.None?
    ensures var sys, sys' := Exec(env, steps), Next(env, Exec(env, steps), Recover);
            var s := Fold(sys.log);
            && sys'.log == sys.log && sys'.live.Some? && sys'.live.value.state == s && sys'.live.value.intact
            && if s.status.Running? then
                 && s.session.Some? && sys'.live.value.child == s.session && sys'.agents == {s.session.value}
                 && exists def :: def in env.def.agents && Some(def.name) == s.agent &&
                                  sys'.done == sys.done + [Spawn(def, s.session.value)]
               else sys'.live.value.child == None && sys'.agents == {} && sys'.done == sys.done
  {
    hide Exec, AllJustified, Fold;
    ReachableSound(env, steps);
    var sys := Exec(env, steps);
    var s := Fold(sys.log);
    assert sys.done + [] == sys.done;
    if s.status.Running? {
      var def := FindAgent(env.def.agents, s.agent.value).value;
      assert OnRecovery(env, s).1 == [Spawn(def, s.session.value)];
      assert [Spawn(def, s.session.value)][0] in [Spawn(def, s.session.value)];
    }
  }

  /** A report from a session that is not current changes nothing at all. */
  lemma StaleReportsChangeNothing(env: Env, steps: seq<Step>, c: Command, persisted: bool, copied: bool)
    requires c.AgentConcluded? || c.AgentAsked? || c.AgentFailed?
    requires Fold(Exec(env, steps).log).session != Some(c.reporter)
    ensures var sys := Exec(env, steps);
            && Next(env, sys, Do(c, persisted, copied)).log == sys.log
            && Next(env, sys, Do(c, persisted, copied)).nextId == sys.nextId
            && (sys.live.Some? ==>
                  && Next(env, sys, Do(c, persisted, copied)).live == sys.live
                  && Handle(env, sys.live.value.child, sys.live.value.state, c, sys.nextId, copied) ==
                     Quiet(sys.live.value.child))
  {
    hide Exec, AllJustified, FindAgent;
    ReachableSound(env, steps);
    var sys := Exec(env, steps);
    assert sys.log + [] == sys.log;
  }

  /**
    Cancelling and resuming are addressed to the agent of the current session, while every
    persist has succeeded; whether that agent is still there is another matter.
   */
  lemma CommandsAddressTheCurrentSession(env: Env, steps: seq<Step>, c: Command, copied: bool)
    requires c.Cancel? || c.Resume?
    requires var live := Exec(env, steps).live; live.Some? && live.value.intact
    ensures var sys := Exec(env, steps);
            var me := sys.live.value;
            forall a :: a in Handle(env, me.child, me.state, c, sys.nextId, copied).actions ==>
              Some(a.session) == Fold(sys.log).session
  {
    hide Exec, AllJustified, FindAgent;
    ReachableSound(env, steps);
  }

  // ---- Whether a resumption arrives ----------------------------------------------------------------------

  /** The status calls for a resumption and says where it goes. */
  predicate Resumable(s: State) {
    s.session.Some? && (s.status.Suspended? || (s.status.AwaitingUserInput? && s.pending.Some?))
  }

  function Resumption(s: State, message: string): AgentCommand {
    if s.status.AwaitingUserInput? && s.pending.Some? then InjectToolResult(s.pending.value, message)
    else RunAgent(message)
  }

  /** An agent of the session that is running, if need be spawned just before, gets the command. */
  predicate Delivered(sys: Sys, r: Response, session: Session, command: AgentCommand) {
    Tell(session, command) in r.actions && session in sys.agents + Spawned(r.actions)
  }

  /** The session's agent stops, and the workflow does not let go of it. */
  predicate Leaves(step: Step, session: Session) {
    match step
    case Depart(s) => s == session
    case Do(AgentFailed(s, _, recoverable), _, _) => s == session && recoverable
    case _ => false
  }

  /** At moment `i` the incarnation that is live at the end was live and held the session's agent. */
  ghost predicate HeldSince(env: Env, steps: seq<Step>, i: nat, session: Session) {
    && i <= |steps|
    && (forall j :: i <= j <= |steps| ==> Exec(env, steps[..j]).live.Some?)
    && Exec(env, steps[..i]).live.value.child == Some(session)
  }

  /** The session's agent stopped after this incarnation spawned it. */
  ghost predicate Lost(env: Env, steps: seq<Step>, session: Session) {
    exists i: nat :: i < |steps| && HeldSince(env, steps, i, session) && Leaves(steps[i], session)
  }

  /** What a command makes of the child: kept without a spawn, or replaced by a later session just spawned. */
  ghost predicate ChildMoves(sys: Sys, r: Response)
    requires sys.live.Some?
  {
    var child := sys.live.value.child;
    if r.child == child then Spawned(r.actions) == {}
    else r.child.Some? && Spawned(r.actions) == {r.child.value} && (child.Some? ==> child.value < r.child.value)
  }

  lemma AnswerMovesChild(env: Env, sys: Sys, c: Command, copied: bool)
    requires Sound(env, sys) && sys.live.Some? && sys.live.value.intact
    ensures var me := sys.live.value;
            ChildMoves(sys, Handle(env, me.child, me.state, c, sys.nextId, copied))
  {
    hide FindAgent, FindNextTransition, TransitionsOf, AllJustified, StatusFits, CanRun, Fold;
  }

  /** The held agent is gone after a command only by a recoverable failure, if the incarnation goes on intact. */
  lemma StoppedOnlyByFailure(env: Env, sys: Sys, c: Command, persisted: bool, copied: bool)
    requires Sound(env, sys) && sys.live.Some? && sys.live.value.intact && sys.live.value.child.Some?
    requires var live := Obey(env, sys, c, persisted, copied).live;
             live.Some? && live.value.child == sys.live.value.child
    ensures sys.live.value.child.value in Stopped(c) <==> Leaves(Do(c, persisted, copied), sys.live.value.child.value)
  {
    hide FindAgent, FindNextTransition, TransitionsOf, AllJustified, StatusFits, CanRun, Fold;
  }

  /** One step of an incarnation that goes on intact. */
  lemma StepHolds(env: Env, sys: Sys, step: Step)
    requires Sound(env, sys) && sys.live.Some?
    requires var sys' := Next(env, sys, step); sys'.live.Some? && sys'.live.value.intact
    ensures var child, sys' := sys.live.value.child, Next(env, sys, step);
            var child' := sys'.live.value.child;
            && sys.live.value.intact
            && (child.Some? ==> child'.Some? && child.value <= child'.value)
            && (child.Some? && child' == child ==>
                  (child.value in sys'.agents <==> child.value in sys.agents && !Leaves(step, child.value)))
            && (child'.Some? && child' != child ==> child'.value in sys'.agents)
  {
    hide Handle, Sound, Fold, Leaves, Spawned, Stopped;
    match step {
      case Do(c, persisted, copied) =>
        AnswerMovesChild(env, sys, c, copied);
        var child' := Obey(env, sys, c, persisted, copied).live.value.child;
        if sys.live.value.child.Some? && child' == sys.live.value.child {
          StoppedOnlyByFailure(env, sys, c, persisted, copied);
        }
      case _ => NothingLeaves(step);
    }
  }

  lemma NothingLeaves(step: Step)
    ensures !step.Do? && !step.Depart? ==> forall session :: !Leaves(step, session)
    ensures step.Depart? ==> forall session :: Leaves(step, session) <==> session == step.session
  {
  }

  /** Within an incarnation the child held never goes back to an earlier one. */
  lemma {:induction false} NeverBack(env: Env, steps: seq<Step>, i: nat, session: Session)
    requires HeldSince(env, steps, i, session)
    requires Exec(env, steps).live.Some? && Exec(env, steps).live.value.intact
    ensures var child := Exec(env, steps).live.value.child; child.Some? && session <= child.value
  {
    hide Sound, Next;
    if i == |steps| {
      assert steps[..i] == steps;
    } else {
      var n := |steps| - 1;
      var front := steps[..n];
      ReachableSound(env, front);
      assert steps == front + [steps[n]] && Exec(env, steps[..n]).live.Some?;
      StepHolds(env, Exec(env, front), steps[n]);
      HeldBefore(env, front, steps[n], i, session);
      NeverBack(env, front, i, session);
    }
  }

  lemma HeldBefore(env: Env, front: seq<Step>, step: Step, i: nat, session: Session)
    requires i <= |front|
    ensures HeldSince(env, front + [step], i, session) <==>
            HeldSince(env, front, i, session) && Exec(env, front + [step]).live.Some?
  {
    hide Exec;
    var steps := front + [step];
    assert forall j :: 0 <= j <= |front| ==> steps[..j] == front[..j];
    assert steps[..|steps|] == steps;
    if HeldSince(env, steps, i, session) {
      assert Exec(env, steps[..|steps|]).live.Some?;
      forall j | i <= j <= |front| ensures Exec(env, front[..j]).live.Some? {
        assert Exec(env, steps[..j]).live.Some?;
      }
    }
    if HeldSince(env, front, i, session) && Exec(env, steps).live.Some? {
      forall j | i <= j <= |steps| ensures Exec(env, steps[..j]).live.Some? {
        if j <= |front| {
          assert Exec(env, front[..j]).live.Some?;
        }
      }
    }
  }

  /** One more step: the agent was lost before, or leaves now. */
  lemma LostOneMore(env: Env, front: seq<Step>, step: Step, session: Session)
    requires Exec(env, front + [step]).live.Some?
    ensures Lost(env, front + [step], session) <==>
            || Lost(env, front, session)
            || (Leaves(step, session) && HeldSince(env, front, |front|, session))
  {
    hide HeldSince, Leaves, Exec;
    var steps := front + [step];
    forall i: nat | i <= |front|
      ensures HeldSince(env, steps, i, session) <==> HeldSince(env, front, i, session)
    {
      HeldBefore(env, front, step, i, session);
    }
    if Lost(env, front, session) {
      var i: nat :| i < |front| && HeldSince(env, front, i, session) && Leaves(front[i], session);
      assert steps[i] == front[i] && HeldSince(env, steps, i, session);
    }
    if Leaves(step, session) && HeldSince(env, front, |front|, session) {
      var i := |front|;
      assert steps[i] == step && HeldSince(env, steps, i, session);
    }
    if Lost(env, steps, session) {
      var i: nat :| i < |steps| && HeldSince(env, steps, i, session) && Leaves(steps[i], session);
      if i < |front| {
        assert steps[i] == front[i];
      }
    }
  }

  /** The agent held is running exactly when it was not lost. */
  lemma {:induction false} RunningIffNotLost(env: Env, steps: seq<Step>)
    requires var live := Exec(env, steps).live; live.Some? && live.value.intact && live.value.child.Some?
    ensures var sys := Exec(env, steps);
            sys.live.value.child.value in sys.agents <==> !Lost(env, steps, sys.live.value.child.value)
  {
    hide Sound, Leaves, Next, HeldSince, Lost;
    if steps != [] {
      var n := |steps| - 1;
      var front, step := steps[..n], steps[n];
      var before, sys := Exec(env, front), Exec(env, steps);
      assert steps == front + [step] && front[..n] == front;
      var session := sys.live.value.child.value;
      LostOneMore(env, front, step, session);
      if before.live.None? {
        RecoveredRuns(env, before, step);
        NotLostWhileDead(env, front, session);
      } else {
        ReachableSound(env, front);
        StepHolds(env, before, step);
        if before.live.value.child == Some(session) {
          HeldNow(env, front, session);
          RunningIffNotLost(env, front);
        } else {
          NotLostBefore(env, front, session);
        }
      }
    }
  }

  lemma HeldNow(env: Env, steps: seq<Step>, session: Session)
    ensures HeldSince(env, steps, |steps|, session) <==>
            var live := Exec(env, steps).live; live.Some? && live.value.child == Some(session)
  {
    assert steps[..|steps|] == steps;
  }

  lemma RecoveredRuns(env: Env, sys: Sys, step: Step)
    requires sys.live.None? && Next(env, sys, step).live.Some?
    ensures var sys' := Next(env, sys, step);
            sys'.live.value.child.Some? ==> sys'.live.value.child.value in sys'.agents
  {
    hide FindAgent, Fold;
  }

  lemma NotLostWhileDead(env: Env, steps: seq<Step>, session: Session)
    requires Exec(env, steps).live.None?
    ensures !Lost(env, steps, session) && !HeldSince(env, steps, |steps|, session)
  {
    hide Exec, Leaves;
    assert steps[..|steps|] == steps;
    var n := |steps|;
    forall i: nat | i <= n ensures !HeldSince(env, steps, i, session) {
      assert Exec(env, steps[..n]).live.None?;
    }
  }

  /** A session that is about to be spawned was never held by this incarnation. */
  lemma NotLostBefore(env: Env, steps: seq<Step>, session: Session)
    requires var live := Exec(env, steps).live;
             live.Some? && live.value.intact && (live.value.child.Some? ==> live.value.child.value < session)
    ensures !Lost(env, steps, session) && !HeldSince(env, steps, |steps|, session)
  {
    hide Exec, Leaves, HeldSince;
    forall i: nat | i <= |steps| ensures !HeldSince(env, steps, i, session) {
      if HeldSince(env, steps, i, session) {
        NeverBack(env, steps, i, session);
      }
    }
  }

  /** What resuming does, told by the status and the child held. */
  lemma ResumeTells(env: Env, sys: Sys, message: string)
    requires Sound(env, sys) && sys.live.Some? && sys.live.value.intact
    ensures var s, child := Fold(sys.log), sys.live.value.child;
            var r := OnResume(env, child, sys.live.value.state, message);
            if !Resumable(s) then r.actions == []
            else
              && (child.Some? ==> child == s.session)
              && Tell(s.session.value, Resumption(s, message)) in r.actions
              && Spawned(r.actions) == if child.Some? then {} else {s.session.value}
  {
    hide AllJustified, FindAgent, Fold;
  }

  /**
    In every reachable incarnation whose persists have all succeeded, a resumption reaches a
    running agent of the current session exactly when the status calls for one and that
    agent has not left since this incarnation spawned it: neither was a recoverable failure
    of the session reported, nor has the agent stopped with its report still under way.
   */
  lemma ResumptionArrivesIff(env: Env, steps: seq<Step>, message: string)
    requires var live := Exec(env, steps).live; live.Some? && live.value.intact
    ensures var sys := Exec(env, steps);
            var s, me := Fold(sys.log), sys.live.value;
            (s.session.Some? &&
             Delivered(sys, OnResume(env, me.child, me.state, message), s.session.value, Resumption(s, message))) <==>
            Resumable(s) && !Lost(env, steps, s.session.value)
  {
    hide Exec, Sound, Lost, OnResume, Fold, Resumption;
    ReachableSound(env, steps);
    var sys := Exec(env, steps);
    ResumeTells(env, sys, message);
    if Resumable(Fold(sys.log)) {
      if sys.live.value.child.Some? {
        RunningIffNotLost(env, steps);
      } else {
        NoneHeldNoneLost(env, steps);
      }
    }
  }

  lemma NoneHeldNoneLost(env: Env, steps: seq<Step>)
    requires var live := Exec(env, steps).live; live.Some? && live.value.intact && live.value.child.None?
    ensures forall session: Session :: !Lost(env, steps, session)
  {
    hide Exec, Lost;
    forall session: Session ensures !Lost(env, steps, session) {
      NotLostBefore(env, steps, session);
    }
  }

  /** Once its agent left, no resumption of a session arrives in this incarnation, whatever else happens in it. */
  lemma LostUntilRestart(env: Env, steps: seq<Step>, more: seq<Step>, session: Session, message: string)
    requires Lost(env, steps, session)
    requires forall j :: |steps| <= j <= |steps + more| ==> Exec(env, (steps + more)[..j]).live.Some?
    requires Exec(env, steps + more).live.Some? && Exec(env, steps + more).live.value.intact
    ensures var sys := Exec(env, steps + more);
            var s, me := Fold(sys.log), sys.live.value;
            s.session == Some(session) ==>
              !Delivered(sys, OnResume(env, me.child, me.state, message), session, Resumption(s, message))
  {
    hide Exec, Leaves, OnResume, Fold, Resumable, Resumption, Delivered;
    var all := steps + more;
    var i: nat :| i < |steps| && HeldSince(env, steps, i, session) && Leaves(steps[i], session);
    forall j | i <= j <= |all| ensures Exec(env, all[..j]).live.Some? {
      if j <= |steps| {
        assert all[..j] == steps[..j];
      }
    }
    assert all[..i] == steps[..i] && all[i] == steps[i];
    assert HeldSince(env, all, i, session);
    ResumptionArrivesIff(env, all, message);
  }

  // ---- Terminal statuses -------------------------------------------------------------------------------

  predicate Terminal(s: State) {
    s.status.Finished? || s.status.Failed?
  }

  /** A terminal event is only ever logged together with stopping. */
  lemma TerminalStops(env: Env, child: Option<Session>, s: State, c: Command, newId: Session, copied: bool)
    ensures var r := Handle(env, child, s, c, newId, copied);
            forall e ::
              e in EventsOf(r.effect) && (e.WorkflowFinished? || e.WorkflowFailed?) ==> r.effect.PersistAndStop?
  {
    hide FindAgent, FindNextTransition;
  }

  lemma {:induction false} NotTerminal(s: State, events: seq<Event>)
    requires !Terminal(s)
    requires forall e :: e in events ==> !e.WorkflowFinished? && !e.WorkflowFailed?
    ensures !Terminal(FoldOnto(s, events))
  {
    if events != [] {
      NotTerminal(s, events[..|events| - 1]);
      assert events[|events| - 1] in events;
    }
  }

  /** An incarnation that logs a terminal event is over: nothing it is sent changes the log. */
  lemma TerminalEndsTheIncarnation(env: Env, sys: Sys, c: Command, persisted: bool, copied: bool, later: Command)
    requires sys.live.Some? && Sound(env, sys) && !Terminal(Fold(sys.log))
    ensures var sys' := Next(env, sys, Do(c, persisted, copied));
            Terminal(Fold(sys'.log)) ==> sys'.live.None? && Next(env, sys', Do(later, persisted, copied)) == sys'
  {
    hide Handle, Fold, AllJustified, StatusFits, CanRun, Terminal;
    var me := sys.live.value;
    var r := Handle(env, me.child, me.state, c, sys.nextId, copied);
    TerminalStops(env, me.child, me.state, c, sys.nextId, copied);
    FoldConcat(sys.log, EventsOf(r.effect));
    if !r.effect.PersistAndStop? {
      NotTerminal(me.state, EventsOf(r.effect));
    }
  }

  /** Where a command leads: the agent it would start, if it is to start one. */
  function Destination(env: Env, s: State, c: Command): Option<string> {
    match c
    case Start(_) => Some(env.def.start)
    case AgentConcluded(session, output) =>
      if !IsCurrent(s, session) || s.agent.None? then None
      else
        (match FindNextTransition(env, TransitionsOf(env, s.agent.value), output)
         case None => None
         case Some(t) => Some(t.to))
    case _ => None
  }

  /** The commands that leave a terminal workflow terminal. */
  predicate Keeps(env: Env, s: State, c: Command) {
    match c
    case Resume(_) => true
    case Fork(_, _) => true
    case Cancel => false
    case Start(_) => !CanRun(env, env.def.start)
    case AgentAsked(session, _, _) => !IsCurrent(s, session)
    case AgentFailed(session, _, recoverable) => !IsCurrent(s, session) || !recoverable
    case AgentConcluded(session, _) =>
      || !IsCurrent(s, session)
      || Destination(env, s, c).None?
      || !CanRun(env, Destination(env, s, c).value)
  }

  lemma FoldOntoOne(s: State, e: Event)
    ensures FoldOnto(s, [e]) == ApplyEvent(s, e)
  {
    assert [e][..0] == [];
  }

  lemma FoldOntoTwo(s: State, a: Event, b: Event)
    ensures FoldOnto(s, [a, b]) == ApplyEvent(ApplyEvent(s, a), b)
  {
    assert [a, b][..1] == [a];
    FoldOntoOne(s, a);
  }

  lemma FoldOntoFew(s: State, events: seq<Event>)
    requires |events| <= 2
    ensures FoldOnto(s, events) ==
            if |events| == 0 then s
            else if |events| == 1 then ApplyEvent(s, events[0])
            else ApplyEvent(ApplyEvent(s, events[0]), events[1])
  {
    if |events| == 1 {
      assert events == [events[0]];
      FoldOntoOne(s, events[0]);
    } else if |events| == 2 {
      assert events == [events[0], events[1]];
      FoldOntoTwo(s, events[0], events[1]);
    }
  }

  /** What the answer to a command makes of a terminal state. */
  lemma AnswerKeepsTerminalIff(env: Env, child: Option<Session>, s: State, c: Command, newId: Session, copied: bool)
    requires Terminal(s)
    ensures var events := EventsOf(Handle(env, child, s, c, newId, copied).effect);
            Terminal(FoldOnto(s, events)) <==> Keeps(env, s, c)
  {
    hide FindAgent, FindNextTransition, TransitionsOf, FoldOnto;
    FoldOntoFew(s, EventsOf(Handle(env, child, s, c, newId, copied).effect));
  }

  /**
    A later incarnation of a finished or failed workflow leaves it terminal exactly when the
    answer is not persisted or the command is one that keeps it: a resumption, a fork, a
    report that is stale, a failure beyond recovery, or a start or a conclusion that leads to
    no agent that can run. Everything else reopens it.
   */
  lemma TerminalStaysIff(env: Env, steps: seq<Step>, c: Command, persisted: bool, copied: bool)
    requires Exec(env, steps).live.Some? && Terminal(Fold(Exec(env, steps).log))
    ensures var sys := Exec(env, steps);
            Terminal(Fold(Next(env, sys, Do(c, persisted, copied)).log)) <==>
            !persisted || Keeps(env, Fold(sys.log), c)
  {
    hide Exec, Handle, Keeps, Terminal, AllJustified, StatusFits, CanRun;
    ReachableSound(env, steps);
    var sys := Exec(env, steps);
    var me := sys.live.value;
    AnswerKeepsTerminalIff(env, me.child, me.state, c, sys.nextId, copied);
    FoldConcat(sys.log, EventsOf(Handle(env, me.child, me.state, c, sys.nextId, copied).effect));
  }

  lemma ExecOneMore(env: Env, steps: seq<Step>, step: Step)
    ensures Exec(env, steps + [step]) == Next(env, Exec(env, steps), step)
  {
    assert (steps + [step])[..|steps|] == steps;
  }

  /** A workflow of one agent that has nowhere to go on to. */
  function Lone(holds: (string, Json) -> bool, asInput: Json -> string): Env {
    Env(Definition("a", [AgentDef("a", "m", None)]), {"m"}, holds, asInput)
  }

  const STARTED := [Recover, Do(Start("go"), true, false)]

  /** Run to its conclusion. */
  const CONCLUDED := STARTED + [Do(AgentConcluded(0, JNull), true, false)]

  const BEGUN := [WorkflowStarted, AgentStarted("a", 0, "go")]

  lemma LoneStarts(env: Env, holds: (string, Json) -> bool, asInput: Json -> string)
    requires env == Lone(holds, asInput)
    ensures var s := State(Running, Some("a"), Some(0), None);
            && Exec(env, STARTED) ==
               Sys(BEGUN, Some(Incarnation(s, Some(0), true)), 1, {0},
                   [Spawn(env.def.agents[0], 0), Tell(0, RunAgent("go"))])
            && Fold(BEGUN) == s
  {
    hide Spawned;
    var log: seq<Event> := [];
    assert STARTED == [Recover] + [STARTED[1]] && [Recover] == [] + [Recover];
    ExecOneMore(env, [], Recover);
    ExecOneMore(env, [Recover], STARTED[1]);
    SpawnedOne(env.def.agents[0], 0, RunAgent("go"));
    FoldOntoTwo(INITIAL, BEGUN[0], BEGUN[1]);
    FoldTwo(log, BEGUN[0], BEGUN[1]);
    assert log + BEGUN == BEGUN;
    assert {} - {} + {0} == {0};
  }

  lemma SpawnedOne(def: AgentDef, session: Session, command: AgentCommand)
    ensures Spawned([Spawn(def, session), Tell(session, command)]) == {session}
    ensures Spawned([]) == {}
  {
    var actions := [Spawn(def, session), Tell(session, command)];
    assert actions[0] in actions;
  }

  lemma LoneConcludes(env: Env, holds: (string, Json) -> bool, asInput: Json -> string)
    requires env == Lone(holds, asInput)
    ensures var sys := Exec(env, CONCLUDED);
            sys.live.None? && Fold(sys.log) == State(Finished, Some("a"), Some(0), None)
  {
    hide Exec, Fold, Spawned;
    LoneStarts(env, holds, asInput);
    ExecOneMore(env, STARTED, CONCLUDED[2]);
    FoldOne(BEGUN, WorkflowFinished(JNull));
  }

  /** Started, then failed in a way that can be resumed. */
  const FAILED := STARTED + [Do(AgentFailed(0, "overloaded", true), true, false)]

  lemma LoneFails(env: Env, holds: (string, Json) -> bool, asInput: Json -> string)
    requires env == Lone(holds, asInput)
    ensures var sys := Exec(env, FAILED);
            && sys.live == Some(Incarnation(State(Suspended, Some("a"), Some(0), None), Some(0), true))
            && sys.agents == {} && Fold(sys.log) == sys.live.value.state
  {
    hide Exec, Fold, Spawned;
    LoneStarts(env, holds, asInput);
    ExecOneMore(env, STARTED, FAILED[2]);
    FoldOntoOne(Exec(env, STARTED).live.value.state, WorkflowSuspended);
    FoldOne(BEGUN, WorkflowSuspended);
    SpawnedOne(env.def.agents[0], 0, CancelRun);
    assert {0} - {0} + {} == {};
  }

  /**
    The smallest history that loses a resumption: the agent's provider failed past its
    retries, so the agent reported a recoverable failure and stopped, and the message goes to
    the mailbox it left behind. After a restart the same message arrives.
   */
  lemma ResumptionIsLost(holds: (string, Json) -> bool, asInput: Json -> string, message: string)
    ensures var env := Lone(holds, asInput);
            var sys, restarted := Exec(env, FAILED), Exec(env, FAILED + [Crash] + [Recover]);
            var s := Fold(sys.log);
            && sys.live.Some? && sys.live.value.intact && s.status.Suspended? && s.session == Some(0)
            && OnResume(env, sys.live.value.child, s, message) ==
               Response(NoEffect, Some(0), [Tell(0, RunAgent(message))], [], 0)
            && !Delivered(sys, OnResume(env, sys.live.value.child, s, message), 0, RunAgent(message))
            && restarted.live.Some? && Fold(restarted.log) == s
            && Delivered(restarted, OnResume(env, restarted.live.value.child, s, message), 0, RunAgent(message))
  {
    hide Exec, Fold;
    var env := Lone(holds, asInput);
    LoneFails(env, holds, asInput);
    ExecOneMore(env, FAILED, Crash);
    ExecOneMore(env, FAILED + [Crash], Recover);
    var sys, restarted := Exec(env, FAILED), Exec(env, FAILED + [Crash] + [Recover]);
    assert OnRecovery(env, Fold(sys.log)) == (None, []);
    var r := OnResume(env, None, Fold(sys.log), message);
    assert r.actions == [Spawn(env.def.agents[0], 0), Tell(0, RunAgent(message))];
    assert r.actions[0] in r.actions && r.actions[1] in r.actions;
  }

  /** The smallest history of a finished workflow that is reopened: recovered, then cancelled. */
  lemma FinishedIsNotForever(holds: (string, Json) -> bool, asInput: Json -> string)
    ensures var env := Lone(holds, asInput);
            && Fold(Exec(env, CONCLUDED).log).status.Finished?
            && Fold(Exec(env, CONCLUDED + [Recover] + [Do(Cancel, true, false)]).log).status.Suspended?
  {
    hide Exec;
    var env := Lone(holds, asInput);
    LoneConcludes(env, holds, asInput);
    ExecOneMore(env, CONCLUDED, Recover);
    ExecOneMore(env, CONCLUDED + [Recover], Do(Cancel, true, false));
    FoldOne(Exec(env, CONCLUDED).log, WorkflowSuspended);
  }
}
