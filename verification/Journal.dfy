/** The event journal: the in-memory implementation with snapshots and compaction. */
module Journal {
  import opened Common

  /** The identity of one actor's log: the actor kind and the instance. */
  datatype PersistenceId = PersistenceId(kind: string, id: string)

  datatype JournalError = Backend(what: string) | Serialization(what: string)

  /** One log. Sequence numbers are 1-based and survive compaction. */
  datatype Entry = Entry(events: seq<(nat, Bytes)>, lastSeq: nat, snapshot: Option<(Bytes, nat)>)

  const EMPTY_ENTRY := Entry([], 0, None)

  function Numbered(before: nat, blobs: seq<Bytes>): (r: seq<(nat, Bytes)>)
    ensures |r| == |blobs|
    ensures forall i :: 0 <= i < |r| ==> r[i] == (before + 1 + i, blobs[i])
  {
    seq(|blobs|, i requires 0 <= i < |blobs| => (before + 1 + i, blobs[i]))
  }

  /** The events numbered above `n`, in order. */
  function Newer(events: seq<(nat, Bytes)>, n: nat): seq<(nat, Bytes)> {
    if events == [] then []
    else if events[0].0 > n then [events[0]] + Newer(events[1..], n)
    else Newer(events[1..], n)
  }

  function Blobs(events: seq<(nat, Bytes)>): (r: seq<Bytes>)
    ensures |r| == |events|
    ensures forall i :: 0 <= i < |r| ==> r[i] == events[i].1
  {
    seq(|events|, i requires 0 <= i < |events| => events[i].1)
  }

  function Appended(e: Entry, blobs: seq<Bytes>): Entry {
    Entry(e.events + Numbered(e.lastSeq, blobs), e.lastSeq + |blobs|, e.snapshot)
  }

  function Snapshotted(e: Entry, state: Bytes, n: nat): Entry {
    Entry(e.events, if e.lastSeq < n then n else e.lastSeq, Some((state, n)))
  }

  function Compacted(e: Entry, n: nat): Entry {
    e.(events := Newer(e.events, n))
  }

  lemma {:induction false} NewerSnoc(events: seq<(nat, Bytes)>, e: (nat, Bytes), n: nat)
    ensures Newer(events + [e], n) == Newer(events, n) + if e.0 > n then [e] else []
  {
    if events == [] {
      assert events + [e] == [e];
    } else {
      assert (events + [e])[1..] == events[1..] + [e];
      NewerSnoc(events[1..], e, n);
    }
  }

  lemma {:induction false} NewerNumbered(before: nat, blobs: seq<Bytes>, n: nat)
    requires before <= n <= before + |blobs|
    ensures Newer(Numbered(before, blobs), n) == Numbered(n, blobs[n - before..])
    decreases |blobs|
  {
    if n == before {
      AllNewer(before, blobs, n);
      assert blobs[0..] == blobs;
    } else {
      FirstNumbered(before, blobs);
      NewerNumbered(before + 1, blobs[1..], n);
      assert blobs[1..][n - (before + 1)..] == blobs[n - before..];
    }
  }

  lemma FirstNumbered(before: nat, blobs: seq<Bytes>)
    requires blobs != []
    ensures Numbered(before, blobs)[0].0 == before + 1
    ensures Numbered(before, blobs)[1..] == Numbered(before + 1, blobs[1..])
  {
  }

  lemma {:induction false} AllNewer(before: nat, blobs: seq<Bytes>, n: nat)
    requires n <= before
    ensures Newer(Numbered(before, blobs), n) == Numbered(before, blobs)
    decreases |blobs|
  {
    if blobs != [] {
      assert Numbered(before, blobs)[1..] == Numbered(before + 1, blobs[1..]);
      AllNewer(before + 1, blobs[1..], n);
    }
  }

  /** Compaction and replay keep exactly the events numbered above the given number. */
  lemma {:induction false} NewerKeepsExactly(events: seq<(nat, Bytes)>, n: nat, e: (nat, Bytes))
    ensures e in Newer(events, n) <==> e in events && e.0 > n
  {
    if events != [] {
      NewerKeepsExactly(events[1..], n, e);
      assert events == [events[0]] + events[1..];
    }
  }

  /**
    What the three writes do to a log: appended events are numbered on from the last number,
    a snapshot replaces the one before and raises the last number at most, and a compaction
    touches neither.
   */
  lemma WritesMean(e: Entry, blobs: seq<Bytes>, state: Bytes, n: nat)
    ensures var a := Appended(e, blobs);
            && a.lastSeq == e.lastSeq + |blobs| && a.snapshot == e.snapshot && e.events <= a.events
            && |a.events| == |e.events| + |blobs|
            && forall i :: 0 <= i < |blobs| ==> a.events[|e.events| + i] == (e.lastSeq + 1 + i, blobs[i])
    ensures var s := Snapshotted(e, state, n);
            && s.snapshot == Some((state, n)) && s.events == e.events
            && s.lastSeq >= e.lastSeq && s.lastSeq >= n && s.lastSeq in {e.lastSeq, n}
    ensures Compacted(e, n).lastSeq == e.lastSeq && Compacted(e, n).snapshot == e.snapshot
  {
    hide Newer;
    var more := Numbered(e.lastSeq, blobs);
    assert Appended(e, blobs).events == e.events + more;
    forall i | 0 <= i < |blobs| ensures (e.events + more)[|e.events| + i] == (e.lastSeq + 1 + i, blobs[i]) {
      assert (e.events + more)[|e.events| + i] == more[i];
    }
  }

  class InMemoryJournal {
    var inner: map<PersistenceId, Entry>

    /** A log that was never written reads as an empty one. */
    ghost function EntryOf(pid: PersistenceId): Entry
      reads this
    {
      if pid in inner then inner[pid] else EMPTY_ENTRY
    }

    /** Nothing but `pid`'s log may have changed. */
    twostate predicate OthersUnchanged(pid: PersistenceId)
      reads this
    {
      forall other :: other != pid ==>
        (other in inner <==> other in old(inner)) && EntryOf(other) == old(EntryOf(other))
    }

    constructor ()
      ensures inner == map[]
    {
      inner := map[];
    }

    method Persist(pid: PersistenceId, events: seq<Bytes>)
      modifies this
      ensures EntryOf(pid) == Appended(old(EntryOf(pid)), events)
      ensures OthersUnchanged(pid)
    {
      var entry := if pid in inner then inner[pid] else EMPTY_ENTRY;
      for i := 0 to |events|
        invariant entry.events == old(EntryOf(pid)).events + Numbered(old(EntryOf(pid)).lastSeq, events[..i])
        invariant entry.lastSeq == old(EntryOf(pid)).lastSeq + i
        invariant entry.snapshot == old(EntryOf(pid)).snapshot
      {
        var next := entry.lastSeq + 1;
        entry := entry.(lastSeq := next, events := entry.events + [(next, events[i])]);
      }
      assert events[..|events|] == events;
      inner := inner[pid := entry];
    }

    method Replay(pid: PersistenceId, afterSeq: nat) returns (items: seq<Bytes>)
      ensures items == Blobs(Newer(EntryOf(pid).events, afterSeq))
    {
      items := [];
      if pid in inner {
        var events := inner[pid].events;
        for i := 0 to |events|
          invariant items == Blobs(Newer(events[..i], afterSeq))
        {
          NewerSnoc(events[..i], events[i], afterSeq);
          assert events[..i + 1] == events[..i] + [events[i]];
          if events[i].0 > afterSeq {
            items := items + [events[i].1];
          }
        }
        assert events[..|events|] == events;
      }
    }

    method SaveSnapshot(pid: PersistenceId, state: Bytes, seqNr: nat)
      modifies this
      ensures EntryOf(pid) == Snapshotted(old(EntryOf(pid)), state, seqNr)
      ensures OthersUnchanged(pid)
    {
      var entry := if pid in inner then inner[pid] else EMPTY_ENTRY;
      var last := if entry.lastSeq < seqNr then seqNr else entry.lastSeq;
      inner := inner[pid := entry.(lastSeq := last, snapshot := Some((state, seqNr)))];
    }

    method LatestSnapshot(pid: PersistenceId) returns (r: Option<(Bytes, nat)>)
      ensures r == EntryOf(pid).snapshot
    {
      r := if pid in inner then inner[pid].snapshot else None;
    }

    method DeleteEventsBefore(pid: PersistenceId, seqNr: nat)
      modifies this
      ensures EntryOf(pid) == Compacted(old(EntryOf(pid)), seqNr)
      ensures OthersUnchanged(pid)
    {
      if pid in inner {
        var entry := inner[pid];
        var events, kept := entry.events, [];
        for i := 0 to |events|
          invariant inner == old(inner)
          invariant kept == Newer(events[..i], seqNr)
        {
          NewerSnoc(events[..i], events[i], seqNr);
          assert events[..i + 1] == events[..i] + [events[i]];
          if events[i].0 > seqNr {
            kept := kept + [events[i]];
          }
        }
        assert events[..|events|] == events;
        inner := inner[pid := entry.(events := kept)];
      }
    }

    /** Seeds `to` with `from`'s snapshot: no events, numbering continues from the snapshot. */
    method CopySnapshot(from: PersistenceId, to: PersistenceId) returns (r: Result<(), JournalError>)
      modifies this
      ensures r.Ok? <==> old(EntryOf(from)).snapshot.Some?
      ensures r.Ok? ==> EntryOf(to) == Seeded(old(EntryOf(from))) && OthersUnchanged(to)
      ensures r.Err? ==> inner == old(inner)
    {
      if from !in inner || inner[from].snapshot.None? {
        return Err(Backend("no snapshot for '" + from.kind + "/" + from.id + "'"));
      }
      var snapshot := inner[from].snapshot;
      inner := inner[to := Entry([], snapshot.value.1, snapshot)];
      r := Ok(());
    }

    method Clear(pid: PersistenceId)
      modifies this
      ensures EntryOf(pid) == EMPTY_ENTRY && OthersUnchanged(pid)
    {
      inner := inner - {pid};
    }
  }

  /** The log a fork starts from. */
  function Seeded(source: Entry): Entry
    requires source.snapshot.Some?
  {
    Entry([], source.snapshot.value.1, source.snapshot)
  }
}
