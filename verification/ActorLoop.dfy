/** The runtime's own loops, over either journal, proved against the functions of `Runtime`. */
module ActorLoop {
  import opened Common
  import opened Journal
  import opened Runtime
  import FileJournal

  /** A journal behind its interface. */
  datatype Backend = MemBackend(mem: InMemoryJournal) | FileBackend(file: FileJournal.FileJournal)

  ghost function Objects(b: Backend): set<object> {
    match b
    case MemBackend(mem) => {mem}
    case FileBackend(file) => {file}
  }

  ghost function StoreOf(b: Backend, pid: PersistenceId): Store
    reads Objects(b)
  {
    match b
    case MemBackend(mem) => Mem(mem.EntryOf(pid))
    case FileBackend(file) => File(file.Content(pid))
  }

  /** Makes one journal call, or lets it fail without effect when `ok` is false. */
  method CallPersist(b: Backend, pid: PersistenceId, blobs: seq<Bytes>, ok: bool)
    modifies Objects(b)
    ensures StoreOf(b, pid) == if ok then StorePersist(old(StoreOf(b, pid)), blobs) else old(StoreOf(b, pid))
  {
    if ok {
      match b {
        case MemBackend(mem) => mem.Persist(pid, blobs);
        case FileBackend(file) => file.Persist(pid, blobs);
      }
    }
  }

  method CallSave(b: Backend, pid: PersistenceId, state: Bytes, seqNr: nat, ok: bool)
    modifies Objects(b)
    ensures StoreOf(b, pid) == if ok then StoreSave(old(StoreOf(b, pid)), state, seqNr) else old(StoreOf(b, pid))
  {
    if ok && b.MemBackend? {
      b.mem.SaveSnapshot(pid, state, seqNr);
    }
  }

  method CallDelete(b: Backend, pid: PersistenceId, seqNr: nat, ok: bool)
    modifies Objects(b)
    ensures StoreOf(b, pid) == if ok then StoreDelete(old(StoreOf(b, pid)), seqNr) else old(StoreOf(b, pid))
  {
    if ok && b.MemBackend? {
      b.mem.DeleteEventsBefore(pid, seqNr);
    }
  }

  method CallReplay(b: Backend, pid: PersistenceId, seqNr: nat) returns (items: seq<Bytes>)
    ensures items == StoreReplay(StoreOf(b, pid), seqNr)
  {
    match b {
      case MemBackend(mem) => items := mem.Replay(pid, seqNr);
      case FileBackend(file) => items := file.Replay(pid, seqNr);
    }
  }

  method Recover<S, E>(a: Actor<S, E>, b: Backend, pid: PersistenceId) returns (r: Result<Live<S>, JournalError>)
    ensures r == RecoverFrom(a, StoreOf(b, pid))
  {
    var snapshot := None;
    if b.MemBackend? {
      snapshot := b.mem.LatestSnapshot(pid);
    }
    var live := Live(a.initial, 0);
    if snapshot.Some? {
      var state := a.decodeState(snapshot.value.0);
      if state.None? {
        return Err(Serialization("snapshot"));
      }
      live := Live(state.value, snapshot.value.1);
    }
    var items := CallReplay(b, pid, live.seqNr);
    for i := 0 to |items|
      invariant Refold(a, live, items[i..]) == RecoverFrom(a, StoreOf(b, pid))
    {
      var event := a.decodeEvent(items[i]);
      if event.None? {
        return Err(Serialization("event"));
      }
      assert items[i..][1..] == items[i + 1..];
      live := Live(a.apply(live.state, event.value), live.seqNr + 1);
    }
    r := Ok(live);
  }

  lemma {:induction false} EncodeSnoc<S, E>(a: Actor<S, E>, events: seq<E>, e: E)
    ensures EncodeAll(a, events + [e]) ==
            if EncodeAll(a, events).None? || a.encodeEvent(e).None? then None
            else Some(EncodeAll(a, events).value + [a.encodeEvent(e).value])
  {
    if events == [] {
      assert events + [e] == [e] && [e][1..] == [];
      if a.encodeEvent(e).Some? {
        assert [a.encodeEvent(e).value] + [] == [] + [a.encodeEvent(e).value];
      }
    } else {
      assert (events + [e])[1..] == events[1..] + [e];
      EncodeSnoc(a, events[1..], e);
      if EncodeAll(a, events).Some? && a.encodeEvent(e).Some? {
        Assoc([a.encodeEvent(events[0]).value], EncodeAll(a, events[1..]).value, [a.encodeEvent(e).value]);
      }
    }
  }

  lemma {:induction false} EncodeFails<S, E>(a: Actor<S, E>, events: seq<E>, i: nat)
    requires i < |events| && a.encodeEvent(events[i]).None?
    ensures EncodeAll(a, events).None?
  {
    if i > 0 {
      EncodeFails(a, events[1..], i - 1);
    }
  }

  /** Encodes the events one by one; the first that fails abandons the batch. */
  method EncodeEvents<S, E>(a: Actor<S, E>, events: seq<E>) returns (r: Option<seq<Bytes>>)
    ensures r == EncodeAll(a, events)
  {
    var encoded: seq<Bytes> := [];
    for i := 0 to |events|
      invariant EncodeAll(a, events[..i]) == Some(encoded)
    {
      assert events[..i + 1] == events[..i] + [events[i]];
      EncodeSnoc(a, events[..i], events[i]);
      var blob := a.encodeEvent(events[i]);
      if blob.None? {
        EncodeFails(a, events, i);
        return None;
      }
      encoded := encoded + [blob.value];
    }
    assert events[..|events|] == events;
    r := Some(encoded);
  }

  method PersistEvents<S, E>(
      a: Actor<S, E>, b: Backend, pid: PersistenceId, events: seq<E>, live: Live<S>, ok: bool)
    returns (live': Live<S>)
    modifies Objects(b)
    ensures live' == PersistStep(a, live, events, ok).0
    ensures StoreOf(b, pid) == PerformAll(old(StoreOf(b, pid)), PersistStep(a, live, events, ok).1)
  {
    var encoded := EncodeEvents(a, events);
    if encoded.None? {
      return live;
    }
    PerformOne(StoreOf(b, pid), PersistCall(events, encoded.value, ok));
    CallPersist(b, pid, encoded.value, ok);
    if !ok {
      return live;
    }
    live' := live;
    for i := 0 to |events|
      invariant Fold(a, live'.state, events[i..]) == Fold(a, live.state, events)
      invariant live'.seqNr == live.seqNr + i
      invariant StoreOf(b, pid) == StorePersist(old(StoreOf(b, pid)), encoded.value)
    {
      assert events[i..][1..] == events[i + 1..];
      live' := Live(a.apply(live'.state, events[i]), live'.seqNr + 1);
    }
  }

  lemma PerformOne<E>(s: Store, c: Call<E>)
    ensures PerformAll(s, [c]) == Perform(s, c)
  {
    assert [c][1..] == [];
  }

  method SnapshotState<S, E>(
      a: Actor<S, E>, b: Backend, pid: PersistenceId, live: Live<S>, saveOk: bool, deleteOk: bool)
    modifies Objects(b)
    ensures StoreOf(b, pid) == PerformAll(old(StoreOf(b, pid)), SnapshotStep(a, live, saveOk, deleteOk))
  {
    var blob := a.encodeState(live.state);
    if blob.None? {
      return;
    }
    var save: Call<E> := SaveCall(blob.value, live.seqNr, saveOk);
    PerformOne(StoreOf(b, pid), save);
    CallSave(b, pid, blob.value, live.seqNr, saveOk);
    if !saveOk {
      return;
    }
    var delete: Call<E> := DeleteCall(live.seqNr, deleteOk);
    PerformConcat(old(StoreOf(b, pid)), [save], [delete]);
    PerformOne(StoreOf(b, pid), delete);
    assert [save] + [delete] == [save, delete];
    CallDelete(b, pid, live.seqNr, deleteOk);
  }

  /** The journal calls of one handled command. */
  method HandleTurn<S, E>(a: Actor<S, E>, b: Backend, pid: PersistenceId, live: Live<S>, t: Turn<E>)
    returns (live': Live<S>)
    modifies Objects(b)
    ensures live' == TurnStep(a, live, t).0
    ensures StoreOf(b, pid) == PerformAll(old(StoreOf(b, pid)), TurnStep(a, live, t).1)
  {
    live' := live;
    match t.effect {
      case NoEffect =>
      case Stop =>
      case Persist(events) => live' := PersistEvents(a, b, pid, events, live, t.persistOk);
      case PersistAndStop(events) => live' := PersistEvents(a, b, pid, events, live, t.persistOk);
      case Snapshot => SnapshotState(a, b, pid, live, t.saveOk, t.deleteOk);
      case PersistAndSnapshot(events) =>
        ghost var x := PersistStep(a, live, events, t.persistOk).1;
        live' := PersistEvents(a, b, pid, events, live, t.persistOk);
        PerformConcat(old(StoreOf(b, pid)), x, SnapshotStep(a, live', t.saveOk, t.deleteOk));
        SnapshotState(a, b, pid, live', t.saveOk, t.deleteOk);
    }
  }

  /**
    An actor's lifecycle: recover, then handle commands until one stops it. `turns` are the
    effects its handler returns, with the outcome of the journal calls each leads to.
   */
  method RunActor<S, E>(a: Actor<S, E>, b: Backend, pid: PersistenceId, turns: seq<Turn<E>>)
    returns (ended: Result<Live<S>, JournalError>)
    modifies Objects(b)
    ensures match RecoverFrom(a, old(StoreOf(b, pid)))
            case Err(e) => ended == Err(e) && StoreOf(b, pid) == old(StoreOf(b, pid))
            case Ok(start) =>
              && ended == Ok(Turns(a, start, turns).0)
              && StoreOf(b, pid) == PerformAll(old(StoreOf(b, pid)), Turns(a, start, turns).1)
  {
    var recovered := Recover(a, b, pid);
    if recovered.Err? {
      return recovered;
    }
    var live := recovered.value;
    ghost var made: seq<Call<E>> := [];
    assert turns[0..] == turns;
    assert made + Turns(a, live, turns).1 == Turns(a, live, turns).1;
    for i := 0 to |turns|
      invariant Turns(a, recovered.value, turns) ==
                (Turns(a, live, turns[i..]).0, made + Turns(a, live, turns[i..]).1)
      invariant StoreOf(b, pid) == PerformAll(old(StoreOf(b, pid)), made)
    {
      assert turns[i..][1..] == turns[i + 1..];
      ghost var calls := TurnStep(a, live, turns[i]).1;
      PerformConcat(old(StoreOf(b, pid)), made, calls);
      if !Stops(turns[i]) {
        Assoc(made, calls, Turns(a, TurnStep(a, live, turns[i]).0, turns[i + 1..]).1);
      }
      live := HandleTurn(a, b, pid, live, turns[i]);
      made := made + calls;
      if Stops(turns[i]) {
        return Ok(live);
      }
    }
    assert made + [] == made;
    ended := Ok(live);
  }
}
