/** The executor's runtimes, and the health check that restarts them. */
module Registry {
  import opened Common

  type Handle = nat

  datatype RuntimeState = Creating | Running | Failed | Stopping | Stopped

  datatype Entry = Entry(state: RuntimeState, config: string, restartCount: nat, handle: Option<Handle>)

  type Entries = map<string, Entry>

  datatype RegistryError =
    | AlreadyExists(id: string)
    | NotFound(id: string)
    | InvalidTransition(from: RuntimeState)
    | CreationFailed(id: string)

  datatype Op =
    | BeginCreate(id: string, config: string)
    | CompleteCreate(id: string, handle: Handle)
    | MarkFailed(id: string)
    | BeginStop(id: string)
    | CompleteStop(id: string)
    | BeginRestart(id: string)

  /** What an operation returns: a handle to clean up, if any, or an error. */
  type Returned = Result<Option<Handle>, RegistryError>

  predicate CanLeave(s: RuntimeState) {
    s.Running? || s.Failed?
  }

  function Perform(es: Entries, op: Op): (Returned, Entries) {
    match op
    case BeginCreate(id, config) =>
      if id in es then (Err(AlreadyExists(id)), es)
      else (Ok(None), es[id := Entry(Creating, config, 0, None)])
    case CompleteCreate(id, handle) =>
      if id !in es then (Err(NotFound(id)), es)
      else (Ok(None), es[id := es[id].(state := Running, handle := Some(handle))])
    case MarkFailed(id) =>
      if id !in es then (Err(NotFound(id)), es)
      else (Ok(None), es[id := es[id].(state := Failed, handle := None)])
    case BeginStop(id) =>
      if id !in es then (Err(NotFound(id)), es)
      else if !CanLeave(es[id].state) then (Err(InvalidTransition(es[id].state)), es)
      else (Ok(es[id].handle), es[id := es[id].(state := Stopping, handle := None)])
    case CompleteStop(id) =>
      if id !in es then (Err(NotFound(id)), es) else (Ok(None), es - {id})
    case BeginRestart(id) =>
      if id !in es then (Err(NotFound(id)), es)
      else if !CanLeave(es[id].state) then (Err(InvalidTransition(es[id].state)), es)
      else (Ok(es[id].handle),
            es[id := es[id].(state := Creating, restartCount := es[id].restartCount + 1, handle := None)])
  }

  /** A handle is held exactly while running. */
  predicate HandledIffRunning(es: Entries) {
    forall id :: id in es ==> (es[id].handle.Some? <==> es[id].state.Running?)
  }

  function RunningHandles(es: Entries): map<string, Handle> {
    map id | id in es && es[id].state.Running? && es[id].handle.Some? :: es[id].handle.value
  }

  /** The registry under its lock: each method is one critical section. */
  class RuntimeRegistry {
    var entries: Entries

    constructor ()
      ensures entries == map[]
    {
      entries := map[];
    }

    method Begin(id: string, config: string) returns (r: Returned)
      modifies this
      ensures (r, entries) == Perform(old(entries), BeginCreate(id, config))
    {
      if id in entries {
        return Err(AlreadyExists(id));
      }
      entries := entries[id := Entry(Creating, config, 0, None)];
      return Ok(None);
    }

    method Complete(id: string, handle: Handle) returns (r: Returned)
      modifies this
      ensures (r, entries) == Perform(old(entries), CompleteCreate(id, handle))
    {
      if id !in entries {
        return Err(NotFound(id));
      }
      entries := entries[id := entries[id].(state := Running, handle := Some(handle))];
      return Ok(None);
    }

    method Fail(id: string) returns (r: Returned)
      modifies this
      ensures (r, entries) == Perform(old(entries), MarkFailed(id))
    {
      if id !in entries {
        return Err(NotFound(id));
      }
      entries := entries[id := entries[id].(state := Failed, handle := None)];
      return Ok(None);
    }

    method Stop(id: string) returns (r: Returned)
      modifies this
      ensures (r, entries) == Perform(old(entries), BeginStop(id))
    {
      if id !in entries {
        return Err(NotFound(id));
      }
      match entries[id].state {
        case Running => r := Ok(entries[id].handle);
        case Failed => r := Ok(entries[id].handle);
        case other => return Err(InvalidTransition(other));
      }
      entries := entries[id := entries[id].(state := Stopping, handle := None)];
    }

    method Forget(id: string) returns (r: Returned)
      modifies this
      ensures (r, entries) == Perform(old(entries), CompleteStop(id))
    {
      if id !in entries {
        return Err(NotFound(id));
      }
      entries := entries - {id};
      return Ok(None);
    }

    method Restart(id: string) returns (r: Returned)
      modifies this
      ensures (r, entries) == Perform(old(entries), BeginRestart(id))
    {
      if id !in entries {
        return Err(NotFound(id));
      }
      match entries[id].state {
        case Running => r := Ok(entries[id].handle);
        case Failed => r := Ok(entries[id].handle);
        case other => return Err(InvalidTransition(other));
      }
      var count := entries[id].restartCount;
      entries := entries[id := entries[id].(state := Creating, restartCount := count + 1, handle := None)];
    }
  }

  // ---- The executor's commands, undisturbed ---------------------------------------------------

  /** `made` is the handle the provider creates, if it succeeds. */
  method CreateCore(registry: RuntimeRegistry, id: string, config: string, made: Option<Handle>)
    returns (r: Result<(), RegistryError>)
    modifies registry
    ensures if id in old(registry.entries) then r == Err(AlreadyExists(id)) && registry.entries == old(registry.entries)
            else registry.entries == old(registry.entries)[id :=
                   Entry(if made.Some? then Running else Failed, config, 0, made)]
                 && r == if made.Some? then Ok(()) else Err(CreationFailed(id))
  {
    var begun := registry.Begin(id, config);
    if begun.Err? {
      return Err(begun.error);
    }
    if made.None? {
      var _ := registry.Fail(id);
      return Err(CreationFailed(id));
    }
    var done := registry.Complete(id, made.value);
    return Ok(());
  }

  /** A restart in place: same configuration, one more restart counted. */
  method DoRestart(registry: RuntimeRegistry, id: string, made: Option<Handle>)
    returns (stopped: Option<Handle>, r: Result<(), RegistryError>)
    modifies registry
    ensures var es := old(registry.entries);
            if id !in es then r == Err(NotFound(id)) && registry.entries == es && stopped == None
            else if !CanLeave(es[id].state) then
              r == Err(InvalidTransition(es[id].state)) && registry.entries == es && stopped == None
            else
              && stopped == es[id].handle
              && registry.entries == es[id :=
                   Entry(if made.Some? then Running else Failed, es[id].config, es[id].restartCount + 1, made)]
              && r == if made.Some? then Ok(()) else Err(CreationFailed(id))
  {
    stopped := None;
    if id !in registry.entries {
      return None, Err(NotFound(id));
    }
    var begun := registry.Restart(id);
    if begun.Err? {
      return None, Err(begun.error);
    }
    stopped := begun.value;
    if made.None? {
      var _ := registry.Fail(id);
      return stopped, Err(CreationFailed(id));
    }
    var done := registry.Complete(id, made.value);
    return stopped, Ok(());
  }

  method DoDestroy(registry: RuntimeRegistry, id: string)
    returns (stopped: Option<Handle>, r: Result<(), RegistryError>)
    modifies registry
    ensures var es := old(registry.entries);
            if id !in es then r == Err(NotFound(id)) && registry.entries == es && stopped == None
            else if !CanLeave(es[id].state) then
              r == Err(InvalidTransition(es[id].state)) && registry.entries == es && stopped == None
            else stopped == es[id].handle && registry.entries == es - {id} && r == Ok(())
  {
    stopped := None;
    var begun := registry.Stop(id);
    if begun.Err? {
      return None, Err(begun.error);
    }
    stopped := begun.value;
    var done := registry.Forget(id);
    return stopped, Ok(());
  }

  /** What an undisturbed health check makes of an entry. */
  function Checked(e: Entry, healthy: bool, made: Option<Handle>, maxRestarts: nat): Entry {
    if !e.state.Running? || e.handle.None? || healthy then e
    else if e.restartCount >= maxRestarts then e.(state := Failed, handle := None)
    else Entry(if made.Some? then Running else Failed, e.config, e.restartCount + 1, made)
  }

  /**
    What becomes of an entry that is checked: one that is not running, or is healthy, stays as
    it is; one that is unhealthy is restarted, on its own configuration and with one more
    restart counted, exactly when it was restarted fewer times than allowed, and runs again
    exactly when the provider could make it; otherwise it has failed.
   */
  lemma CheckedMeans(e: Entry, healthy: bool, made: Option<Handle>, maxRestarts: nat)
    requires e.handle.Some? <==> e.state.Running?
    ensures var c := Checked(e, healthy, made, maxRestarts);
            && c.config == e.config
            && (!e.state.Running? || healthy ==> c == e)
            && (e.state.Running? && !healthy ==>
                  && c.restartCount == e.restartCount + (if e.restartCount < maxRestarts then 1 else 0)
                  && (c.state.Running? <==> e.restartCount < maxRestarts && made.Some?)
                  && (c.state.Running? ==> c.handle == made)
                  && (!c.state.Running? ==> c.state.Failed? && c.handle == None))
  {
  }

  /**
    What an operation that succeeds does: to its own entry and to no other, and whether it can
    succeed. A handle is given back exactly by what takes one away from a runtime that has one.
   */
  lemma OperationsMean(es: Entries, op: Op)
    ensures var (r, es') := Perform(es, op);
            && (r.Err? ==> es' == es)
            && (forall id :: id != op.id ==> (id in es' <==> id in es) && (id in es ==> es'[id] == es[id]))
            && (r.Ok? <==>
                  if op.BeginCreate? then op.id !in es
                  else op.id in es && (op.BeginStop? || op.BeginRestart? ==>
                                         es[op.id].state.Running? || es[op.id].state.Failed?))
            && (r.Ok? ==>
                  && (op.id in es' <==> !op.CompleteStop?)
                  && r.value == (if op.BeginStop? || op.BeginRestart? then es[op.id].handle else None)
                  && (op.BeginCreate? ==> es'[op.id] == Entry(Creating, op.config, 0, None))
                  && (op.id in es && op.id in es' ==> es'[op.id].config == es[op.id].config)
                  && (op.CompleteCreate? ==> es'[op.id].state.Running? && es'[op.id].handle == Some(op.handle))
                  && (op.MarkFailed? ==> es'[op.id].state.Failed? && es'[op.id].handle == None)
                  && (op.BeginStop? ==> es'[op.id].state.Stopping? && es'[op.id].handle == None)
                  && (op.BeginRestart? ==> es'[op.id].state.Creating? && es'[op.id].handle == None)
                  && (op.id in es && op.id in es' ==>
                        es'[op.id].restartCount == es[op.id].restartCount + (if op.BeginRestart? then 1 else 0)))
  {
  }

  /** What is done about one runtime whose probe failed. */
  method CheckUnhealthy(registry: RuntimeRegistry, id: string, maxRestarts: nat, made: Option<Handle>)
    requires id in registry.entries && registry.entries[id].state.Running? && registry.entries[id].handle.Some?
    modifies registry
    ensures registry.entries ==
            old(registry.entries)[id := Checked(old(registry.entries)[id], false, made, maxRestarts)]
  {
    var _ := registry.Fail(id);
    if registry.entries[id].restartCount < maxRestarts {
      var _, _ := DoRestart(registry, id, made);
    }
  }

  /** Checks every running runtime once; `healthy` and `made` are what the probes and the provider say. */
  method RunHealthCheck(
      registry: RuntimeRegistry, maxRestarts: nat, healthy: string -> bool, made: string -> Option<Handle>)
    modifies registry
    ensures registry.entries.Keys == old(registry.entries).Keys
    ensures forall id :: id in old(registry.entries) ==>
              registry.entries[id] == Checked(old(registry.entries)[id], healthy(id), made(id), maxRestarts)
  {
    hide Checked;
    ghost var es := registry.entries;
    var handles := RunningHandles(registry.entries);
    var todo := handles.Keys;
    while todo != {}
      invariant todo <= handles.Keys && registry.entries.Keys == es.Keys
      invariant forall id :: id in es && id !in handles ==> registry.entries[id] == es[id]
      invariant forall id :: id in todo ==> registry.entries[id] == es[id]
      invariant forall id :: id in handles && id !in todo ==>
                  registry.entries[id] == Checked(es[id], healthy(id), made(id), maxRestarts)
      decreases |todo|
    {
      var id :| id in todo;
      if healthy(id) {
        Untouched(es[id], made(id), maxRestarts);
      } else {
        CheckUnhealthy(registry, id, maxRestarts, made(id));
      }
      todo := todo - {id};
    }
    forall id | id in es && id !in handles ensures Checked(es[id], healthy(id), made(id), maxRestarts) == es[id] {
      NotProbed(es[id], healthy(id), made(id), maxRestarts);
    }
  }

  lemma Untouched(e: Entry, made: Option<Handle>, maxRestarts: nat)
    ensures Checked(e, true, made, maxRestarts) == e
  {
  }

  lemma NotProbed(e: Entry, healthy: bool, made: Option<Handle>, maxRestarts: nat)
    requires !e.state.Running? || e.handle.None?
    ensures Checked(e, healthy, made, maxRestarts) == e
  {
  }
}
