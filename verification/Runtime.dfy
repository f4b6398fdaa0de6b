/**
  The actor runtime over either journal: recovery, persistence, snapshots, and what a
  crash between any two journal calls leaves behind.

  Serialization is a codec that decodes what it encodes. A journal call may fail; a failed
  call changes nothing. Each effect an actor returns is a `Turn` that carries the outcome
  of the journal calls made for it.
 */
module Runtime {
  import opened Common
  import opened Framing
  import opened Journal

  /** An event-sourced actor: the pure fold, and the codec of its events and states. */
  datatype Actor<!S, !E> = Actor(
    initial: S,
    apply: (S, E) -> S,
    encodeEvent: E -> Option<Bytes>,
    decodeEvent: Bytes -> Option<E>,
    encodeState: S -> Option<Bytes>,
    decodeState: Bytes -> Option<S>)

  ghost predicate RoundTrips<S(!new), E(!new)>(a: Actor<S, E>) {
    && (forall e :: a.encodeEvent(e).Some? ==> a.decodeEvent(a.encodeEvent(e).value) == Some(e))
    && (forall s :: a.encodeState(s).Some? ==> a.decodeState(a.encodeState(s).value) == Some(s))
  }

  function Fold<S, E>(a: Actor<S, E>, s: S, events: seq<E>): S {
    if events == [] then s else Fold(a, a.apply(s, events[0]), events[1..])
  }

  function EncodeAll<S, E>(a: Actor<S, E>, events: seq<E>): (r: Option<seq<Bytes>>)
    ensures r.Some? ==> |r.value| == |events|
  {
    if events == [] then Some([])
    else
      var first, rest := a.encodeEvent(events[0]), EncodeAll(a, events[1..]);
      if first.None? || rest.None? then None else Some([first.value] + rest.value)
  }

  // ---- One log, in either journal ----------------------------------------------

  datatype Store = Mem(entry: Entry) | File(content: Bytes)

  function StorePersist(s: Store, blobs: seq<Bytes>): Store {
    match s
    case Mem(entry) => Mem(Appended(entry, blobs))
    case File(content) => File(content + if blobs == [] then [] else Line(blobs))
  }

  function StoreSave(s: Store, state: Bytes, n: nat): Store {
    match s
    case Mem(entry) => Mem(Snapshotted(entry, state, n))
    case File(_) => s
  }

  function StoreDelete(s: Store, n: nat): Store {
    match s
    case Mem(entry) => Mem(Compacted(entry, n))
    case File(_) => s
  }

  function StoreSnapshot(s: Store): Option<(Bytes, nat)> {
    match s
    case Mem(entry) => entry.snapshot
    case File(_) => None
  }

  function StoreReplay(s: Store, n: nat): seq<Bytes> {
    match s
    case Mem(entry) => Blobs(Newer(entry.events, n))
    case File(content) => After(Recovered(content), n)
  }

  // ---- Recovery ------------------------------------------------------------------

  datatype Live<S> = Live(state: S, seqNr: nat)

  function Refold<S, E>(a: Actor<S, E>, live: Live<S>, blobs: seq<Bytes>): Result<Live<S>, JournalError>
    decreases blobs
  {
    if blobs == [] then Ok(live)
    else
      match a.decodeEvent(blobs[0])
      case None => Err(Serialization("event"))
      case Some(e) => Refold(a, Live(a.apply(live.state, e), live.seqNr + 1), blobs[1..])
  }

  function RecoverFrom<S, E>(a: Actor<S, E>, s: Store): Result<Live<S>, JournalError> {
    match StoreSnapshot(s)
    case None => Refold(a, Live(a.initial, 0), StoreReplay(s, 0))
    case Some((blob, n)) =>
      match a.decodeState(blob)
      case None => Err(Serialization("snapshot"))
      case Some(state) => Refold(a, Live(state, n), StoreReplay(s, n))
  }

  lemma {:induction false} RefoldFailsIff<S, E>(a: Actor<S, E>, live: Live<S>, blobs: seq<Bytes>)
    ensures Refold(a, live, blobs).Err? <==> exists i :: 0 <= i < |blobs| && a.decodeEvent(blobs[i]).None?
    decreases blobs
  {
    if blobs != [] {
      var rest := blobs[1..];
      assert forall i :: 0 < i < |blobs| ==> blobs[i] == rest[i - 1];
      match a.decodeEvent(blobs[0])
      case None =>
      case Some(e) =>
        RefoldFailsIff(a, Live(a.apply(live.state, e), live.seqNr + 1), rest);
        assert forall i :: 0 <= i < |rest| ==> rest[i] == blobs[i + 1];
    }
  }

  /** Recovery fails exactly when the snapshot, or an event to be replayed after it, does not decode. */
  lemma RecoveryFailsIff<S, E>(a: Actor<S, E>, s: Store)
    ensures var snapshot := StoreSnapshot(s);
            var blobs := StoreReplay(s, if snapshot.None? then 0 else snapshot.value.1);
            RecoverFrom(a, s).Err? <==>
              || (snapshot.Some? && a.decodeState(snapshot.value.0).None?)
              || exists i :: 0 <= i < |blobs| && a.decodeEvent(blobs[i]).None?
  {
    hide Refold, StoreReplay, StoreSnapshot;
    match StoreSnapshot(s)
    case None => RefoldFailsIff(a, Live(a.initial, 0), StoreReplay(s, 0));
    case Some((blob, n)) =>
      if a.decodeState(blob).Some? {
        RefoldFailsIff(a, Live(a.decodeState(blob).value, n), StoreReplay(s, n));
      }
  }

  // ---- Turns and the journal calls they make ---------------------------------------

  /** One handled command's effect, and how the journal answers each call made for it. */
  datatype Turn<E> = Turn(effect: Effect<E>, persistOk: bool, saveOk: bool, deleteOk: bool)

  datatype Call<E> =
    | PersistCall(events: seq<E>, blobs: seq<Bytes>, ok: bool)
    | SaveCall(state: Bytes, seqNr: nat, ok: bool)
    | DeleteCall(seqNr: nat, ok: bool)

  function PersistStep<S, E>(a: Actor<S, E>, live: Live<S>, events: seq<E>, ok: bool): (Live<S>, seq<Call<E>>) {
    match EncodeAll(a, events)
    case None => (live, [])
    case Some(blobs) =>
      (if ok then Live(Fold(a, live.state, events), live.seqNr + |events|) else live,
       [PersistCall(events, blobs, ok)])
  }

  function SnapshotStep<S, E>(a: Actor<S, E>, live: Live<S>, saveOk: bool, deleteOk: bool): seq<Call<E>> {
    match a.encodeState(live.state)
    case None => []
    case Some(blob) =>
      if saveOk then [SaveCall(blob, live.seqNr, true), DeleteCall(live.seqNr, deleteOk)]
      else [SaveCall(blob, live.seqNr, false)]
  }

  function TurnStep<S, E>(a: Actor<S, E>, live: Live<S>, t: Turn<E>): (Live<S>, seq<Call<E>>) {
    match t.effect
    case Persist(events) => PersistStep(a, live, events, t.persistOk)
    case PersistAndSnapshot(events) =>
      var (live', calls) := PersistStep(a, live, events, t.persistOk);
      (live', calls + SnapshotStep(a, live', t.saveOk, t.deleteOk))
    case Snapshot => (live, SnapshotStep(a, live, t.saveOk, t.deleteOk))
    case NoEffect => (live, [])
    case Stop => (live, [])
    case PersistAndStop(events) => PersistStep(a, live, events, t.persistOk)
  }

  predicate Stops<E>(t: Turn<E>) {
    t.effect.Stop? || t.effect.PersistAndStop?
  }

  /** A whole life of an actor: the journal calls it makes and where it ends. */
  function Turns<S, E>(a: Actor<S, E>, live: Live<S>, turns: seq<Turn<E>>): (Live<S>, seq<Call<E>>)
    decreases turns
  {
    if turns == [] then (live, [])
    else
      var (live', calls) := TurnStep(a, live, turns[0]);
      if Stops(turns[0]) then (live', calls)
      else
        var (last, more) := Turns(a, live', turns[1..]);
        (last, calls + more)
  }

  function Perform<E>(s: Store, c: Call<E>): Store {
    match c
    case PersistCall(_, blobs, ok) => if ok then StorePersist(s, blobs) else s
    case SaveCall(state, n, ok) => if ok then StoreSave(s, state, n) else s
    case DeleteCall(n, ok) => if ok then StoreDelete(s, n) else s
  }

  function PerformAll<E>(s: Store, calls: seq<Call<E>>): (r: Store)
    ensures s.File? ==> r.File?
    decreases calls
  {
    if calls == [] then s else PerformAll(Perform(s, calls[0]), calls[1..])
  }

  function MadeDurable<E>(c: Call<E>): seq<E> {
    if c.PersistCall? && c.ok then c.events else []
  }

  /** The events of the persist calls that succeeded, in order: what is durable. */
  function Durable<E>(calls: seq<Call<E>>): seq<E> {
    if calls == [] then [] else MadeDurable(calls[0]) + Durable(calls[1..])
  }

  // ---- What a log holds -------------------------------------------------------------

  ghost predicate WholeLines(content: Bytes, blobs: seq<Bytes>) {
    exists batches :: content == Lines(batches) && Flatten(batches) == blobs
  }

  /** An in-memory log of `hist`, whose encoding is `blobs`; the oldest events may live only in the snapshot. */
  ghost predicate EntryHolds<S, E>(a: Actor<S, E>, entry: Entry, hist: seq<E>, blobs: seq<Bytes>) {
    && entry.lastSeq == |hist| == |blobs|
    && |entry.events| <= |hist|
    && (var cut := |hist| - |entry.events|;
        && entry.events == Numbered(cut, blobs[cut..])
        && match entry.snapshot
           case None => cut == 0
           case Some((blob, n)) =>
             cut <= n <= |hist| && a.decodeState(blob) == Some(Fold(a, a.initial, hist[..n])))
  }

  /** The log `s` holds exactly the events `hist`. */
  ghost predicate Holds<S, E>(a: Actor<S, E>, s: Store, hist: seq<E>) {
    var blobs := EncodeAll(a, hist);
    && blobs.Some?
    && match s
       case File(content) => WholeLines(content, blobs.value)
       case Mem(entry) => EntryHolds(a, entry, hist, blobs.value)
  }

  ghost predicate Agrees<S, E>(a: Actor<S, E>, live: Live<S>, hist: seq<E>) {
    live == Live(Fold(a, a.initial, hist), |hist|)
  }

  lemma {:induction false} FoldConcat<S, E>(a: Actor<S, E>, s: S, x: seq<E>, y: seq<E>)
    ensures Fold(a, s, x + y) == Fold(a, Fold(a, s, x), y)
    decreases x
  {
    if x == [] {
      assert x + y == y;
    } else {
      assert (x + y)[1..] == x[1..] + y;
      FoldConcat(a, a.apply(s, x[0]), x[1..], y);
    }
  }

  lemma {:induction false} EncodeConcat<S, E>(a: Actor<S, E>, x: seq<E>, y: seq<E>)
    requires EncodeAll(a, x).Some? && EncodeAll(a, y).Some?
    ensures EncodeAll(a, x + y) == Some(EncodeAll(a, x).value + EncodeAll(a, y).value)
    decreases x
  {
    if x == [] {
      assert x + y == y;
      assert [] + EncodeAll(a, y).value == EncodeAll(a, y).value;
    } else {
      assert (x + y)[1..] == x[1..] + y;
      EncodeConcat(a, x[1..], y);
      assert EncodeAll(a, x).value + EncodeAll(a, y).value
          == [a.encodeEvent(x[0]).value] + (EncodeAll(a, x[1..]).value + EncodeAll(a, y).value);
    }
  }

  lemma {:induction false} EncodeDrop<S, E>(a: Actor<S, E>, events: seq<E>, n: nat)
    requires EncodeAll(a, events).Some? && n <= |events|
    ensures EncodeAll(a, events[n..]) == Some(EncodeAll(a, events).value[n..])
  {
    if n == 0 {
      assert events[0..] == events;
    } else {
      EncodeDrop(a, events[1..], n - 1);
      assert events[1..][n - 1..] == events[n..];
      assert EncodeAll(a, events).value[n..] == EncodeAll(a, events[1..]).value[n - 1..];
    }
  }

  lemma {:induction false} RefoldEncoded<S(!new), E(!new)>(a: Actor<S, E>, live: Live<S>, events: seq<E>)
    requires RoundTrips(a) && EncodeAll(a, events).Some?
    ensures Refold(a, live, EncodeAll(a, events).value) ==
            Ok(Live(Fold(a, live.state, events), live.seqNr + |events|))
    decreases events
  {
    if events != [] {
      RefoldEncoded(a, Live(a.apply(live.state, events[0]), live.seqNr + 1), events[1..]);
    }
  }

  lemma ReplayHolds<S, E>(a: Actor<S, E>, s: Store, hist: seq<E>)
    requires Holds(a, s, hist)
    ensures var n := if StoreSnapshot(s).None? then 0 else StoreSnapshot(s).value.1;
            n <= |hist| && StoreReplay(s, n) == EncodeAll(a, hist).value[n..]
  {
    var blobs := EncodeAll(a, hist).value;
    match s
    case File(content) =>
      var batches :| content == Lines(batches) && Flatten(batches) == blobs;
      ReadBack(batches);
    case Mem(entry) =>
      var n := if entry.snapshot.None? then 0 else entry.snapshot.value.1;
      var cut := |hist| - |entry.events|;
      NewerNumbered(cut, blobs[cut..], n);
      assert blobs[cut..][n - cut..] == blobs[n..];
  }

  /** Applying what lies after the first `n` events to the fold of those gives the fold of all. */
  lemma RefoldRest<S(!new), E(!new)>(a: Actor<S, E>, hist: seq<E>, n: nat)
    requires RoundTrips(a) && EncodeAll(a, hist).Some? && n <= |hist|
    ensures n <= |EncodeAll(a, hist).value|
    ensures Refold(a, Live(Fold(a, a.initial, hist[..n]), n), EncodeAll(a, hist).value[n..]) ==
            Ok(Live(Fold(a, a.initial, hist), |hist|))
  {
    hide Refold, EncodeAll, Fold, RoundTrips;
    EncodeDrop(a, hist, n);
    RefoldEncoded(a, Live(Fold(a, a.initial, hist[..n]), n), hist[n..]);
    FoldConcat(a, a.initial, hist[..n], hist[n..]);
    assert hist[..n] + hist[n..] == hist;
  }

  lemma SnapshotHolds<S, E>(a: Actor<S, E>, s: Store, hist: seq<E>)
    requires Holds(a, s, hist)
    ensures EncodeAll(a, hist).Some?
    ensures var snapshot := StoreSnapshot(s);
            && (snapshot.None? ==> hist[..0] == [] && Fold(a, a.initial, hist[..0]) == a.initial)
            && (snapshot.Some? ==>
                  && snapshot.value.1 <= |hist|
                  && a.decodeState(snapshot.value.0) == Some(Fold(a, a.initial, hist[..snapshot.value.1])))
  {
    hide EncodeAll, WholeLines;
  }

  /** Recovery rebuilds the fold of everything the log holds, and its count. */
  lemma RecoveryIsExact<S(!new), E(!new)>(a: Actor<S, E>, s: Store, hist: seq<E>)
    requires RoundTrips(a) && Holds(a, s, hist)
    ensures RecoverFrom(a, s) == Ok(Live(Fold(a, a.initial, hist), |hist|))
  {
    hide Refold, EncodeAll, Fold, Holds, RoundTrips, StoreReplay, StoreSnapshot;
    SnapshotHolds(a, s, hist);
    ReplayHolds(a, s, hist);
    RefoldRest(a, hist, if StoreSnapshot(s).None? then 0 else StoreSnapshot(s).value.1);
  }

  lemma AppendKeepsWholeLines(content: Bytes, blobs: seq<Bytes>, more: seq<Bytes>)
    requires WholeLines(content, blobs)
    ensures WholeLines(content + if more == [] then [] else Line(more), blobs + more)
  {
    var batches :| content == Lines(batches) && Flatten(batches) == blobs;
    if more == [] {
      assert content + [] == content && blobs + [] == blobs;
    } else {
      LinesConcat(batches, [more]);
      assert Lines([more]) == Line(more) + [] == Line(more);
      FlattenSnoc(batches, more);
      assert content + Line(more) == Lines(batches + [more]);
    }
  }

  lemma AppendKeepsEntry<S, E>(
      a: Actor<S, E>, entry: Entry, hist: seq<E>, blobs: seq<Bytes>, events: seq<E>, more: seq<Bytes>)
    requires EntryHolds(a, entry, hist, blobs) && |events| == |more|
    ensures EntryHolds(a, Appended(entry, more), hist + events, blobs + more)
  {
    var cut := |hist| - |entry.events|;
    assert (blobs + more)[cut..] == blobs[cut..] + more;
    assert Numbered(cut, blobs[cut..]) + Numbered(|hist|, more) == Numbered(cut, blobs[cut..] + more);
    if entry.snapshot.Some? {
      assert (hist + events)[..entry.snapshot.value.1] == hist[..entry.snapshot.value.1];
    }
  }

  lemma PersistKeeps<S, E>(a: Actor<S, E>, s: Store, hist: seq<E>, events: seq<E>)
    requires Holds(a, s, hist) && EncodeAll(a, events).Some?
    ensures Holds(a, StorePersist(s, EncodeAll(a, events).value), hist + events)
  {
    var before, more := EncodeAll(a, hist).value, EncodeAll(a, events).value;
    EncodeConcat(a, hist, events);
    match s
    case File(content) => AppendKeepsWholeLines(content, before, more);
    case Mem(entry) => AppendKeepsEntry(a, entry, hist, before, events, more);
  }

  lemma SaveKeeps<S(!new), E(!new)>(a: Actor<S, E>, s: Store, hist: seq<E>, blob: Bytes)
    requires RoundTrips(a) && Holds(a, s, hist)
    requires a.encodeState(Fold(a, a.initial, hist)) == Some(blob)
    ensures Holds(a, StoreSave(s, blob, |hist|), hist)
  {
    assert hist[..|hist|] == hist;
  }

  lemma DeleteKeeps<S(!new), E(!new)>(a: Actor<S, E>, s: Store, hist: seq<E>, blob: Bytes)
    requires RoundTrips(a) && Holds(a, s, hist)
    requires a.encodeState(Fold(a, a.initial, hist)) == Some(blob)
    ensures Holds(a, StoreDelete(StoreSave(s, blob, |hist|), |hist|), hist)
  {
    SaveKeeps(a, s, hist, blob);
    match s
    case File(_) =>
    case Mem(entry) =>
      var blobs := EncodeAll(a, hist).value;
      var cut := |hist| - |entry.events|;
      NewerNumbered(cut, blobs[cut..], |hist|);
      assert blobs[cut..][|hist| - cut..] == blobs[|hist|..] == [];
  }

  // ---- Crash safety -------------------------------------------------------------------

  lemma {:induction false} PerformConcat<E>(s: Store, x: seq<Call<E>>, y: seq<Call<E>>)
    ensures PerformAll(s, x + y) == PerformAll(PerformAll(s, x), y)
    decreases x
  {
    if x == [] {
      assert x + y == y;
    } else {
      assert (x + y)[1..] == x[1..] + y;
      PerformConcat(Perform(s, x[0]), x[1..], y);
    }
  }

  lemma {:induction false} DurableConcat<E>(x: seq<Call<E>>, y: seq<Call<E>>)
    ensures Durable(x + y) == Durable(x) + Durable(y)
  {
    hide MadeDurable;
    if x == [] {
      assert x + y == y;
      assert [] + Durable(y) == Durable(y);
    } else {
      assert (x + y)[0] == x[0] && (x + y)[1..] == x[1..] + y;
      DurableConcat(x[1..], y);
      Assoc(MadeDurable(x[0]), Durable(x[1..]), Durable(y));
    }
  }

  /** After the first `k` of `calls`, the log holds `hist` and what they made durable. */
  ghost predicate HoldsAfter<S, E>(a: Actor<S, E>, s: Store, hist: seq<E>, calls: seq<Call<E>>, k: nat)
    requires k <= |calls|
  {
    Holds(a, PerformAll(s, calls[..k]), hist + Durable(calls[..k]))
  }

  /** Gluing two call lists: every cut of the whole is a cut of one of them. */
  lemma HoldsAcross<S, E>(a: Actor<S, E>, s: Store, hist: seq<E>, x: seq<Call<E>>, y: seq<Call<E>>)
    requires forall k :: 0 <= k <= |x| ==> HoldsAfter(a, s, hist, x, k)
    requires forall k :: 0 <= k <= |y| ==> HoldsAfter(a, PerformAll(s, x), hist + Durable(x), y, k)
    ensures forall k :: 0 <= k <= |x + y| ==> HoldsAfter(a, s, hist, x + y, k)
  {
    forall k | 0 <= k <= |x + y|
      ensures HoldsAfter(a, s, hist, x + y, k)
    {
      if k <= |x| {
        assert (x + y)[..k] == x[..k];
        assert HoldsAfter(a, s, hist, x, k);
      } else {
        var j := k - |x|;
        assert (x + y)[..k] == x + y[..j];
        PerformConcat(s, x, y[..j]);
        DurableConcat(x, y[..j]);
        assert HoldsAfter(a, PerformAll(s, x), hist + Durable(x), y, j);
        Assoc(hist, Durable(x), Durable(y[..j]));
      }
    }
  }

  /** A life split in two: safety and agreement of the parts give those of the whole. */
  lemma SafeAcross<S, E>(
      a: Actor<S, E>, s: Store, hist: seq<E>, x: seq<Call<E>>, y: seq<Call<E>>, last: Live<S>)
    requires forall k :: 0 <= k <= |x| ==> HoldsAfter(a, s, hist, x, k)
    requires forall k :: 0 <= k <= |y| ==> HoldsAfter(a, PerformAll(s, x), hist + Durable(x), y, k)
    requires Agrees(a, last, hist + Durable(x) + Durable(y))
    ensures forall k :: 0 <= k <= |x + y| ==> HoldsAfter(a, s, hist, x + y, k)
    ensures Agrees(a, last, hist + Durable(x + y))
  {
    HoldsAcross(a, s, hist, x, y);
    DurableConcat(x, y);
    Assoc(hist, Durable(x), Durable(y));
  }

  lemma HoldsAtEnd<S, E>(a: Actor<S, E>, s: Store, hist: seq<E>, calls: seq<Call<E>>)
    requires HoldsAfter(a, s, hist, calls, |calls|)
    ensures Holds(a, PerformAll(s, calls), hist + Durable(calls))
  {
    assert calls[..|calls|] == calls;
  }

  lemma HoldsNow<S, E>(a: Actor<S, E>, s: Store, hist: seq<E>, calls: seq<Call<E>>)
    requires Holds(a, s, hist)
    ensures HoldsAfter(a, s, hist, calls, 0)
  {
    assert calls[..0] == [];
    assert hist + [] == hist;
  }

  lemma NothingDurable<E>()
    ensures Durable<E>([]) == []
  {
  }

  lemma PersistStepSafe<S, E>(a: Actor<S, E>, s: Store, hist: seq<E>, live: Live<S>, events: seq<E>, ok: bool)
    requires Holds(a, s, hist) && Agrees(a, live, hist)
    ensures var (live', calls) := PersistStep(a, live, events, ok);
            && (forall k :: 0 <= k <= |calls| ==> HoldsAfter(a, s, hist, calls, k))
            && Agrees(a, live', hist + Durable(calls))
  {
    hide Holds, HoldsAfter, Durable, Fold, StorePersist;
    var (live', calls) := PersistStep(a, live, events, ok);
    HoldsNow(a, s, hist, calls);
    NothingDurable<E>();
    assert hist + [] == hist;
    if calls != [] {
      if ok {
        PersistKeeps(a, s, hist, events);
        FoldConcat(a, a.initial, hist, events);
      }
      SolePersist(a, s, hist, calls);
    }
  }

  lemma SolePersist<S, E>(a: Actor<S, E>, s: Store, hist: seq<E>, calls: seq<Call<E>>)
    requires |calls| == 1 && calls[0].PersistCall?
    requires Holds(a, Perform(s, calls[0]), hist + if calls[0].ok then calls[0].events else [])
    ensures HoldsAfter(a, s, hist, calls, 1)
    ensures Durable(calls) == if calls[0].ok then calls[0].events else []
  {
    hide Holds, Perform;
    var told := MadeDurable(calls[0]);
    assert calls[..1] == calls && calls[1..] == [];
    assert PerformAll(s, calls) == PerformAll(Perform(s, calls[0]), calls[1..]);
    assert Durable(calls) == told + Durable(calls[1..]);
    assert told + [] == told;
  }

  /** A call that makes nothing durable, as the first of `calls`. */
  lemma FirstQuietCall<S, E>(a: Actor<S, E>, s: Store, hist: seq<E>, calls: seq<Call<E>>)
    requires calls != [] && !calls[0].PersistCall? && Holds(a, Perform(s, calls[0]), hist)
    ensures HoldsAfter(a, s, hist, calls, 1) && Durable(calls[..1]) == []
  {
    hide Holds, Perform;
    var one := calls[..1];
    assert one[0] == calls[0] && one[1..] == [];
    assert PerformAll(s, one) == PerformAll(Perform(s, one[0]), one[1..]);
    assert Durable(one) == [] + Durable(one[1..]);
    assert hist + [] == hist;
  }

  lemma SecondQuietCall<S, E>(a: Actor<S, E>, s: Store, hist: seq<E>, calls: seq<Call<E>>)
    requires |calls| == 2 && !calls[0].PersistCall? && !calls[1].PersistCall?
    requires Holds(a, Perform(Perform(s, calls[0]), calls[1]), hist)
    ensures HoldsAfter(a, s, hist, calls, 2) && Durable(calls) == []
  {
    hide Holds, Perform;
    var rest := calls[1..];
    assert calls[..2] == calls && rest[0] == calls[1] && rest[1..] == [];
    assert PerformAll(s, calls) == PerformAll(Perform(s, calls[0]), rest);
    assert PerformAll(Perform(s, calls[0]), rest) == PerformAll(Perform(Perform(s, calls[0]), rest[0]), rest[1..]);
    assert Durable(rest) == [] + Durable(rest[1..]) && Durable(calls) == [] + Durable(rest);
    assert hist + [] == hist;
  }

  lemma SnapshotStepSafe<S(!new), E(!new)>(
      a: Actor<S, E>, s: Store, hist: seq<E>, live: Live<S>, saveOk: bool, deleteOk: bool)
    requires RoundTrips(a) && Holds(a, s, hist) && Agrees(a, live, hist)
    ensures var calls := SnapshotStep(a, live, saveOk, deleteOk);
            && (forall k :: 0 <= k <= |calls| ==> HoldsAfter(a, s, hist, calls, k))
            && Durable(calls) == []
  {
    hide Holds, HoldsAfter, Durable, StoreSave, StoreDelete;
    var calls := SnapshotStep(a, live, saveOk, deleteOk);
    HoldsNow(a, s, hist, calls);
    if calls == [] {
      NothingDurable<E>();
    } else {
      if saveOk {
        SaveKeeps(a, s, hist, calls[0].state);
        DeleteKeeps(a, s, hist, calls[0].state);
        SecondQuietCall(a, s, hist, calls);
      } else {
        assert calls[..1] == calls;
      }
      FirstQuietCall(a, s, hist, calls);
    }
  }

  lemma TurnStepSafe<S(!new), E(!new)>(a: Actor<S, E>, s: Store, hist: seq<E>, live: Live<S>, t: Turn<E>)
    requires RoundTrips(a) && Holds(a, s, hist) && Agrees(a, live, hist)
    ensures var (live', calls) := TurnStep(a, live, t);
            && (forall k :: 0 <= k <= |calls| ==> HoldsAfter(a, s, hist, calls, k))
            && Agrees(a, live', hist + Durable(calls))
  {
    hide Holds, HoldsAfter, Durable, PersistStep, SnapshotStep, Fold;
    HoldsNow(a, s, hist, []);
    NothingDurable<E>();
    assert hist + [] == hist;
    match t.effect
    case Persist(events) => PersistStepSafe(a, s, hist, live, events, t.persistOk);
    case PersistAndStop(events) => PersistStepSafe(a, s, hist, live, events, t.persistOk);
    case Snapshot => SnapshotStepSafe(a, s, hist, live, t.saveOk, t.deleteOk);
    case NoEffect =>
    case Stop =>
    case PersistAndSnapshot(events) =>
      PersistStepSafe(a, s, hist, live, events, t.persistOk);
      var (live', x) := PersistStep(a, live, events, t.persistOk);
      var y := SnapshotStep(a, live', t.saveOk, t.deleteOk);
      HoldsAtEnd(a, s, hist, x);
      SnapshotStepSafe(a, PerformAll(s, x), hist + Durable(x), live', t.saveOk, t.deleteOk);
      assert hist + Durable(x) + [] == hist + Durable(x);
      SafeAcross(a, s, hist, x, y, live');
  }

  /**
    Every cut of a life's journal calls leaves a log that holds exactly the durable events,
    and at the end of the life the live state and count agree with it.
   */
  lemma {:induction false} LifeIsSafe<S(!new), E(!new)>(
      a: Actor<S, E>, s: Store, hist: seq<E>, live: Live<S>, turns: seq<Turn<E>>)
    requires RoundTrips(a) && Holds(a, s, hist) && Agrees(a, live, hist)
    ensures var (last, calls) := Turns(a, live, turns);
            && (forall k :: 0 <= k <= |calls| ==> HoldsAfter(a, s, hist, calls, k))
            && Agrees(a, last, hist + Durable(calls))
    decreases turns
  {
    if turns == [] {
      HoldsNow(a, s, hist, []);
      assert hist + [] == hist;
    } else {
      TurnStepSafe(a, s, hist, live, turns[0]);
      if !Stops(turns[0]) {
        var (live', x) := TurnStep(a, live, turns[0]);
        var (last, y) := Turns(a, live', turns[1..]);
        HoldsAtEnd(a, s, hist, x);
        LifeIsSafe(a, PerformAll(s, x), hist + Durable(x), live', turns[1..]);
        SafeAcross(a, s, hist, x, y, last);
      }
    }
  }

  // ---- What is asked for is made durable ------------------------------------------------------

  /** The events a turn asks to persist, if their persist is possible and succeeds. */
  function Due<S, E>(a: Actor<S, E>, t: Turn<E>): seq<E> {
    if (t.effect.Persist? || t.effect.PersistAndSnapshot? || t.effect.PersistAndStop?)
       && t.persistOk && EncodeAll(a, t.effect.events).Some? then t.effect.events
    else []
  }

  function AllDue<S, E>(a: Actor<S, E>, turns: seq<Turn<E>>): seq<E> {
    if turns == [] then [] else Due(a, turns[0]) + AllDue(a, turns[1..])
  }

  /** The turns that are taken: those up to the first that stops the actor. */
  function Taken<E>(turns: seq<Turn<E>>): seq<Turn<E>> {
    if turns == [] then []
    else [turns[0]] + if turns[0].effect.Stop? || turns[0].effect.PersistAndStop? then [] else Taken(turns[1..])
  }

  lemma {:induction false} TakenMeans<E>(turns: seq<Turn<E>>)
    ensures Taken(turns) <= turns
    ensures forall i :: 0 <= i < |Taken(turns)| - 1 ==> !turns[i].effect.Stop? && !turns[i].effect.PersistAndStop?
    ensures |Taken(turns)| < |turns| ==>
              var n := |Taken(turns)|; n > 0 && (turns[n - 1].effect.Stop? || turns[n - 1].effect.PersistAndStop?)
  {
    if turns != [] {
      TakenMeans(turns[1..]);
      var rest := Taken(turns[1..]);
      assert forall i :: 0 < i < |turns| ==> turns[i] == turns[1..][i - 1];
    }
  }

  /** Every effect that carries events makes them durable, and nothing else is. */
  lemma TurnMakesDurable<S, E>(a: Actor<S, E>, live: Live<S>, t: Turn<E>)
    ensures Durable(TurnStep(a, live, t).1) == Due(a, t)
  {
    hide EncodeAll, Fold;
    NothingDurable<E>();
    if t.effect.Persist? || t.effect.PersistAndSnapshot? || t.effect.PersistAndStop? {
      PersistMakesDurable(a, live, t.effect.events, t.persistOk);
    }
    if t.effect.Snapshot? {
      SnapshotMakesNothingDurable(a, live, t.saveOk, t.deleteOk);
    }
    if t.effect.PersistAndSnapshot? {
      var (live', calls) := PersistStep(a, live, t.effect.events, t.persistOk);
      SnapshotMakesNothingDurable(a, live', t.saveOk, t.deleteOk);
      DurableConcat(calls, SnapshotStep(a, live', t.saveOk, t.deleteOk));
      assert Durable(calls) + [] == Durable(calls);
    }
  }

  lemma PersistMakesDurable<S, E>(a: Actor<S, E>, live: Live<S>, events: seq<E>, ok: bool)
    ensures Durable(PersistStep(a, live, events, ok).1) == if ok && EncodeAll(a, events).Some? then events else []
  {
    hide EncodeAll, Fold;
    var calls := PersistStep(a, live, events, ok).1;
    if calls != [] {
      assert calls[1..] == [] && events + [] == events;
    }
  }

  lemma SnapshotMakesNothingDurable<S, E>(a: Actor<S, E>, live: Live<S>, saveOk: bool, deleteOk: bool)
    ensures Durable<E>(SnapshotStep(a, live, saveOk, deleteOk)) == []
  {
    var calls: seq<Call<E>> := SnapshotStep(a, live, saveOk, deleteOk);
    if |calls| == 2 {
      assert calls == [calls[0]] + [calls[1]];
      NoneDurable([calls[0]]);
      NoneDurable([calls[1]]);
      DurableConcat([calls[0]], [calls[1]]);
    } else if |calls| == 1 {
      NoneDurable(calls);
    }
  }

  lemma NoneDurable<E>(calls: seq<Call<E>>)
    requires |calls| == 1 && !calls[0].PersistCall?
    ensures Durable(calls) == []
  {
    assert calls[1..] == [] && Durable(calls[1..]) == [];
  }

  /** An uncut life makes durable exactly what the turns it takes ask for, as far as their persists succeed. */
  lemma {:induction false} LifeMakesDurable<S, E>(a: Actor<S, E>, live: Live<S>, turns: seq<Turn<E>>)
    ensures Durable(Turns(a, live, turns).1) == AllDue(a, Taken(turns))
    decreases turns
  {
    hide TurnStep, Due, Durable;
    NothingDurable<E>();
    if turns != [] {
      var t := turns[0];
      var (live', calls) := TurnStep(a, live, t);
      TurnMakesDurable(a, live, t);
      if Stops(t) {
        assert [t][1..] == [] && AllDue<S, E>(a, []) == [];
        assert Due(a, t) + [] == Due(a, t);
      } else {
        LifeMakesDurable(a, live', turns[1..]);
        DurableConcat(calls, Turns(a, live', turns[1..]).1);
        var rest := Taken(turns[1..]);
        assert ([t] + rest)[0] == t && ([t] + rest)[1..] == rest;
      }
    }
  }

  /**
    Nothing that was asked for and could be persisted is lost: after an uncut life recovery
    gives what was there and then the events of the turns taken, up to the one that stops.
   */
  lemma UncutLifeIsKept<S(!new), E(!new)>(a: Actor<S, E>, s: Store, hist: seq<E>, turns: seq<Turn<E>>)
    requires RoundTrips(a) && Holds(a, s, hist)
    ensures RecoverFrom(a, s).Ok?
    ensures var calls := Turns(a, RecoverFrom(a, s).value, turns).1;
            var all := hist + AllDue(a, Taken(turns));
            RecoverFrom(a, PerformAll(s, calls)) == Ok(Live(Fold(a, a.initial, all), |all|))
  {
    hide Holds, RecoverFrom, Fold, Turns, PerformAll, Durable, AllDue, Taken;
    RecoveryIsExact(a, s, hist);
    var live := RecoverFrom(a, s).value;
    var calls := Turns(a, live, turns).1;
    LifeIsSafe(a, s, hist, live, turns);
    LifeMakesDurable(a, live, turns);
    var k := |calls|;
    assert calls[..k] == calls && HoldsAfter(a, s, hist, calls, k);
    RecoveryIsExact(a, PerformAll(s, calls), hist + AllDue(a, Taken(turns)));
  }

  lemma NothingPerformed<E>(s: Store)
    ensures PerformAll<E>(s, []) == s
  {
  }

  lemma OneCall<E>(s: Store, c: Call<E>)
    ensures PerformAll(s, [c]) == Perform(s, c)
  {
    assert [c][1..] == [];
  }

  lemma PersistLeavesSnapshot<S, E>(a: Actor<S, E>, entry: Entry, live: Live<S>, events: seq<E>, ok: bool)
    ensures var s' := PerformAll(Mem(entry), PersistStep(a, live, events, ok).1);
            s'.Mem? && s'.entry.snapshot == entry.snapshot
  {
    hide EncodeAll, Fold, Numbered;
    var calls := PersistStep(a, live, events, ok).1;
    assert calls != [] ==> calls[1..] == [];
  }

  lemma SnapshotIsTaken<S, E>(
      a: Actor<S, E>, entry: Entry, hist: seq<E>, live: Live<S>, saveOk: bool, deleteOk: bool)
    requires Holds(a, Mem(entry), hist) && Agrees(a, live, hist)
    ensures var s' := PerformAll<E>(Mem(entry), SnapshotStep(a, live, saveOk, deleteOk));
            var blob := a.encodeState(live.state);
            && s'.Mem?
            && (if blob.Some? && saveOk then
                  && s'.entry.snapshot == Some((blob.value, live.seqNr))
                  && (deleteOk ==> s'.entry.events == [])
                else s'.entry.snapshot == entry.snapshot)
  {
    hide EncodeAll, Fold;
    var calls: seq<Call<E>> := SnapshotStep(a, live, saveOk, deleteOk);
    if |calls| == 1 {
      OneCall(Mem(entry), calls[0]);
      assert calls == [calls[0]];
    } else if |calls| == 2 {
      assert calls == [calls[0]] + [calls[1]];
      PerformConcat(Mem(entry), [calls[0]], [calls[1]]);
      OneCall(Mem(entry), calls[0]);
      OneCall(Perform(Mem(entry), calls[0]), calls[1]);
      var blobs, cut := EncodeAll(a, hist).value, |hist| - |entry.events|;
      NewerNumbered(cut, blobs[cut..], |hist|);
      assert blobs[cut..][|hist| - cut..] == [];
    }
  }

  /**
    A snapshot that a turn asks for, of a state that can be encoded, is there afterwards if it
    could be saved, at the number then reached; and if its log could be compacted no event is
    left in it. A turn that asks for none leaves the old one.
   */
  lemma SnapshotsAreTaken<S(!new), E(!new)>(a: Actor<S, E>, entry: Entry, hist: seq<E>, live: Live<S>, t: Turn<E>)
    requires RoundTrips(a) && Holds(a, Mem(entry), hist) && Agrees(a, live, hist)
    ensures var (live', calls) := TurnStep(a, live, t);
            var s', blob := PerformAll(Mem(entry), calls), a.encodeState(live'.state);
            && s'.Mem?
            && (if (t.effect.Snapshot? || t.effect.PersistAndSnapshot?) && blob.Some? && t.saveOk then
                  && s'.entry.snapshot == Some((blob.value, live'.seqNr))
                  && (t.deleteOk ==> s'.entry.events == [])
                else s'.entry.snapshot == entry.snapshot)
  {
    hide Holds, PersistStep, SnapshotStep, PerformAll, Agrees;
    match t.effect
    case Persist(events) => PersistLeavesSnapshot(a, entry, live, events, t.persistOk);
    case PersistAndStop(events) => PersistLeavesSnapshot(a, entry, live, events, t.persistOk);
    case Snapshot => SnapshotIsTaken(a, entry, hist, live, t.saveOk, t.deleteOk);
    case NoEffect => NothingPerformed<E>(Mem(entry));
    case Stop => NothingPerformed<E>(Mem(entry));
    case PersistAndSnapshot(events) =>
      var (live', x) := PersistStep(a, live, events, t.persistOk);
      PersistLeavesSnapshot(a, entry, live, events, t.persistOk);
      PersistStepSafe(a, Mem(entry), hist, live, events, t.persistOk);
      HoldsAtEnd(a, Mem(entry), hist, x);
      SnapshotIsTaken(a, PerformAll(Mem(entry), x).entry, hist + Durable(x), live', t.saveOk, t.deleteOk);
      PerformConcat(Mem(entry), x, SnapshotStep(a, live', t.saveOk, t.deleteOk));
  }

  /** One process lifetime: the turns it takes, and after how many journal calls it is killed. */
  datatype Life<E> = Life(turns: seq<Turn<E>>, killedAfter: nat)

  function Survived<E>(calls: seq<Call<E>>, life: Life<E>): seq<Call<E>> {
    if life.killedAfter <= |calls| then calls[..life.killedAfter] else calls
  }

  /** Life after life over one log, each recovering first; the second component is what became durable. */
  function Lives<S, E>(a: Actor<S, E>, s: Store, lives: seq<Life<E>>): (Store, seq<E>)
    decreases lives
  {
    if lives == [] then (s, [])
    else
      match RecoverFrom(a, s)
      case Err(_) => Lives(a, s, lives[1..])
      case Ok(live) =>
        var calls := Survived(Turns(a, live, lives[0].turns).1, lives[0]);
        var (last, durable) := Lives(a, PerformAll(s, calls), lives[1..]);
        (last, Durable(calls) + durable)
  }

  /** One life from a log that holds `hist`: recovery succeeds and the cut leaves the log exact. */
  lemma OneLifeHolds<S(!new), E(!new)>(a: Actor<S, E>, s: Store, hist: seq<E>, life: Life<E>)
    requires RoundTrips(a) && Holds(a, s, hist)
    ensures RecoverFrom(a, s) == Ok(Live(Fold(a, a.initial, hist), |hist|))
    ensures var calls := Survived(Turns(a, RecoverFrom(a, s).value, life.turns).1, life);
            Holds(a, PerformAll(s, calls), hist + Durable(calls))
  {
    hide Holds, RecoverFrom, Fold, Turns, PerformAll, Durable;
    RecoveryIsExact(a, s, hist);
    var live := RecoverFrom(a, s).value;
    LifeIsSafe(a, s, hist, live, life.turns);
    var all := Turns(a, live, life.turns).1;
    var k := |Survived(all, life)|;
    assert Survived(all, life) == all[..k];
    assert HoldsAfter(a, s, hist, all, k);
  }

  lemma FirstLife<S(!new), E(!new)>(a: Actor<S, E>, s: Store, hist: seq<E>, lives: seq<Life<E>>)
    returns (next: Store, durable: seq<E>)
    requires RoundTrips(a) && Holds(a, s, hist) && lives != []
    ensures Holds(a, next, hist + durable)
    ensures Lives(a, s, lives) == (Lives(a, next, lives[1..]).0, durable + Lives(a, next, lives[1..]).1)
  {
    OneLifeHolds(a, s, hist, lives[0]);
    var calls := Survived(Turns(a, RecoverFrom(a, s).value, lives[0].turns).1, lives[0]);
    next, durable := PerformAll(s, calls), Durable(calls);
  }

  lemma {:induction false} LivesHold<S(!new), E(!new)>(a: Actor<S, E>, s: Store, hist: seq<E>, lives: seq<Life<E>>)
    requires RoundTrips(a) && Holds(a, s, hist)
    ensures Holds(a, Lives(a, s, lives).0, hist + Lives(a, s, lives).1)
    decreases lives
  {
    if lives == [] {
      assert hist + [] == hist;
    } else {
      var next, durable := FirstLife(a, s, hist, lives);
      LivesHold(a, next, hist + durable, lives[1..]);
      Assoc(hist, durable, Lives(a, next, lives[1..]).1);
    }
  }

  const NEW_MEM := Mem(EMPTY_ENTRY)
  const NEW_FILE := File([])

  lemma NewLogsHoldNothing<S, E>(a: Actor<S, E>)
    ensures Holds(a, NEW_MEM, []) && Holds(a, NEW_FILE, [])
  {
    assert Numbered(0, []) == [];
    assert Lines([]) == [] && Flatten<Bytes>([]) == [];
  }

  /**
    Crash safety: whatever was commanded, whichever journal calls failed, and between
    whichever two calls each life was killed, recovery yields exactly the fold of the
    durable events and their number.
   */
  lemma CrashSafety<S(!new), E(!new)>(a: Actor<S, E>, s: Store, lives: seq<Life<E>>)
    requires RoundTrips(a) && (s == NEW_MEM || s == NEW_FILE)
    ensures var (last, durable) := Lives(a, s, lives);
            RecoverFrom(a, last) == Ok(Live(Fold(a, a.initial, durable), |durable|))
  {
    NewLogsHoldNothing(a);
    LivesHold(a, s, [], lives);
    var (last, durable) := Lives(a, s, lives);
    assert [] + durable == durable;
    RecoveryIsExact(a, last, durable);
  }

  /** At every command boundary the live state and count are what recovery would give. */
  lemma LiveEqualsRecovered<S(!new), E(!new)>(
      a: Actor<S, E>, s: Store, hist: seq<E>, live: Live<S>, turns: seq<Turn<E>>)
    requires RoundTrips(a) && Holds(a, s, hist) && Agrees(a, live, hist)
    ensures var (last, calls) := Turns(a, live, turns); RecoverFrom(a, PerformAll(s, calls)) == Ok(last)
  {
    LifeIsSafe(a, s, hist, live, turns);
    var (last, calls) := Turns(a, live, turns);
    assert calls[..|calls|] == calls && HoldsAfter(a, s, hist, calls, |calls|);
    RecoveryIsExact(a, PerformAll(s, calls), hist + Durable(calls));
  }

  /** The same lives over both journals make the same events durable. */
  lemma {:induction false} SameDurable<S(!new), E(!new)>(
      a: Actor<S, E>, x: Store, y: Store, hist: seq<E>, lives: seq<Life<E>>)
    requires RoundTrips(a) && Holds(a, x, hist) && Holds(a, y, hist)
    ensures Lives(a, x, lives).1 == Lives(a, y, lives).1
    decreases lives
  {
    if lives != [] {
      OneLifeHolds(a, x, hist, lives[0]);
      OneLifeHolds(a, y, hist, lives[0]);
      var calls := Survived(Turns(a, RecoverFrom(a, x).value, lives[0].turns).1, lives[0]);
      SameDurable(a, PerformAll(x, calls), PerformAll(y, calls), hist + Durable(calls), lives[1..]);
    }
  }

  /**
    Snapshots and compaction are only an optimisation: the snapshotting in-memory journal
    and the full-replay file journal recover the same state at the same sequence number.
   */
  lemma SnapshotsOnlyOptimise<S(!new), E(!new)>(a: Actor<S, E>, lives: seq<Life<E>>)
    requires RoundTrips(a)
    ensures RecoverFrom(a, Lives(a, NEW_MEM, lives).0) == RecoverFrom(a, Lives(a, NEW_FILE, lives).0)
  {
    NewLogsHoldNothing(a);
    SameDurable(a, NEW_MEM, NEW_FILE, [], lives);
    CrashSafety(a, NEW_MEM, lives);
    CrashSafety(a, NEW_FILE, lives);
  }

  /** A process killed inside a file append, at any byte, recovers as if it had not begun it. */
  lemma TornAppendRecovers<S(!new), E(!new)>(a: Actor<S, E>, lives: seq<Life<E>>, blobs: seq<Bytes>, cut: nat)
    requires RoundTrips(a) && cut < |Line(blobs)|
    ensures var (last, durable) := Lives(a, NEW_FILE, lives);
            && last.File?
            && RecoverFrom(a, File(last.content + Line(blobs)[..cut])) ==
               Ok(Live(Fold(a, a.initial, durable), |durable|))
  {
    hide Lives, Fold, EncodeAll, Refold, Lines, Line, Recovered;
    NewLogsHoldNothing(a);
    LivesHold(a, NEW_FILE, [], lives);
    StaysFile(a, NEW_FILE, lives);
    var (last, durable) := Lives(a, NEW_FILE, lives);
    assert [] + durable == durable;
    var batches :| last.content == Lines(batches) && Flatten(batches) == EncodeAll(a, durable).value;
    TornWrite(batches, blobs, cut, 0);
    RefoldEncoded(a, Live(a.initial, 0), durable);
  }

  lemma {:induction false} PerformStaysFile<E>(s: Store, calls: seq<Call<E>>)
    requires s.File?
    ensures PerformAll(s, calls).File?
    decreases calls
  {
    if calls != [] {
      PerformStaysFile(Perform(s, calls[0]), calls[1..]);
    }
  }

  lemma {:induction false} StaysFile<S, E>(a: Actor<S, E>, s: Store, lives: seq<Life<E>>)
    requires s.File?
    ensures Lives(a, s, lives).0.File?
    decreases lives
  {
    if lives != [] {
      match RecoverFrom(a, s)
      case Err(_) => StaysFile(a, s, lives[1..]);
      case Ok(live) =>
        var calls := Survived(Turns(a, live, lives[0].turns).1, lives[0]);
        PerformStaysFile(s, calls);
        StaysFile(a, PerformAll(s, calls), lives[1..]);
    }
  }

  /**
    A fork: the copied snapshot makes the target log hold exactly the source's events up
    to that snapshot, so all of the above applies to the fork as well.
   */
  lemma ForkHoldsSnapshottedPrefix<S(!new), E(!new)>(a: Actor<S, E>, source: Entry, hist: seq<E>)
    requires RoundTrips(a) && Holds(a, Mem(source), hist) && source.snapshot.Some?
    ensures var n := source.snapshot.value.1;
            && n <= |hist|
            && Holds(a, Mem(Seeded(source)), hist[..n])
            && RecoverFrom(a, Mem(Seeded(source))) == Ok(Live(Fold(a, a.initial, hist[..n]), n))
  {
    var n := source.snapshot.value.1;
    var prefix := hist[..n];
    EncodePrefix(a, hist, n);
    assert prefix[..n] == prefix;
    assert EncodeAll(a, prefix).value[n..] == [];
    assert Numbered(n, []) == [];
    RecoveryIsExact(a, Mem(Seeded(source)), prefix);
  }

  lemma {:induction false} EncodePrefix<S, E>(a: Actor<S, E>, events: seq<E>, n: nat)
    requires EncodeAll(a, events).Some? && n <= |events|
    ensures EncodeAll(a, events[..n]).Some?
  {
    if n > 0 {
      EncodePrefix(a, events[1..], n - 1);
      assert events[..n][1..] == events[1..][..n - 1];
    }
  }
}
