/** The actors of the system run on the runtime: what it recovers is what their own folds say. */
module Sessions {
  import opened Common
  import R = Runtime
  import C = Conversation
  import A = AgentEvents
  import W = Workflow
  import S = Supervision

  ghost predicate IsAgentSession(a: R.Actor<seq<C.Message>, A.DomainEvent>) {
    R.RoundTrips(a) && a.initial == [] && forall ms, e :: a.apply(ms, e) == A.ApplyEvent(ms, e)
  }

  ghost predicate IsWorkflow(a: R.Actor<W.State, W.Event>) {
    R.RoundTrips(a) && a.initial == W.INITIAL && forall s, e :: a.apply(s, e) == W.ApplyEvent(s, e)
  }

  ghost predicate IsSupervisor(a: R.Actor<S.Registry, S.RegistryEvent>) {
    R.RoundTrips(a) && a.initial == map[] && forall jobs, e :: a.apply(jobs, e) == S.ApplyEvent(jobs, e)
  }

  lemma {:induction false} LastApplied<T(!new), E(!new)>(a: R.Actor<T, E>, s: T, events: seq<E>)
    requires events != []
    ensures R.Fold(a, s, events) == a.apply(R.Fold(a, s, events[..|events| - 1]), events[|events| - 1])
  {
    var n := |events| - 1;
    assert events == events[..n] + [events[n]];
    R.FoldConcat(a, s, events[..n], [events[n]]);
    assert [events[n]][1..] == [];
  }

  lemma {:induction false} SessionFold(a: R.Actor<seq<C.Message>, A.DomainEvent>, events: seq<A.DomainEvent>)
    requires IsAgentSession(a)
    ensures R.Fold(a, a.initial, events) == A.Produced(events)
  {
    if events != [] {
      LastApplied(a, a.initial, events);
      SessionFold(a, events[..|events| - 1]);
    }
  }

  lemma {:induction false} WorkflowFold(a: R.Actor<W.State, W.Event>, events: seq<W.Event>)
    requires IsWorkflow(a)
    ensures R.Fold(a, a.initial, events) == W.Fold(events)
  {
    if events != [] {
      LastApplied(a, a.initial, events);
      WorkflowFold(a, events[..|events| - 1]);
    }
  }

  lemma {:induction false} SupervisorFold(a: R.Actor<S.Registry, S.RegistryEvent>, events: seq<S.RegistryEvent>)
    requires IsSupervisor(a)
    ensures R.Fold(a, a.initial, events) == S.Fold(events)
  {
    if events != [] {
      LastApplied(a, a.initial, events);
      SupervisorFold(a, events[..|events| - 1]);
    }
  }

  /** Over either journal, after any lives and crashes, a session recovers the conversation its durable events tell. */
  lemma SessionRecovers(
      a: R.Actor<seq<C.Message>, A.DomainEvent>, s: R.Store, lives: seq<R.Life<A.DomainEvent>>)
    requires IsAgentSession(a) && (s == R.NEW_MEM || s == R.NEW_FILE)
    ensures var (last, durable) := R.Lives(a, s, lives);
            R.RecoverFrom(a, last) == Ok(R.Live(A.Produced(durable), |durable|))
  {
    hide R.Lives, R.RecoverFrom;
    R.CrashSafety(a, s, lives);
    SessionFold(a, R.Lives(a, s, lives).1);
  }

  lemma WorkflowRecovers(a: R.Actor<W.State, W.Event>, s: R.Store, lives: seq<R.Life<W.Event>>)
    requires IsWorkflow(a) && (s == R.NEW_MEM || s == R.NEW_FILE)
    ensures var (last, durable) := R.Lives(a, s, lives);
            R.RecoverFrom(a, last) == Ok(R.Live(W.Fold(durable), |durable|))
  {
    hide R.Lives, R.RecoverFrom;
    R.CrashSafety(a, s, lives);
    WorkflowFold(a, R.Lives(a, s, lives).1);
  }

  lemma SupervisorRecovers(a: R.Actor<S.Registry, S.RegistryEvent>, s: R.Store, lives: seq<R.Life<S.RegistryEvent>>)
    requires IsSupervisor(a) && (s == R.NEW_MEM || s == R.NEW_FILE)
    ensures var (last, durable) := R.Lives(a, s, lives);
            R.RecoverFrom(a, last) == Ok(R.Live(S.Fold(durable), |durable|))
  {
    hide R.Lives, R.RecoverFrom;
    R.CrashSafety(a, s, lives);
    SupervisorFold(a, R.Lives(a, s, lives).1);
  }
}
