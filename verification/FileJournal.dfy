/** The file-backed journal: every batch appended as one line, recovery by full replay. */
module FileJournal {
  import opened Common
  import opened Base64
  import opened Framing
  import opened Journal

  lemma {:induction false} DecodeEachConcat(a: seq<Bytes>, b: seq<Bytes>)
    requires DecodeEach(a).intact
    ensures DecodeEach(a + b) == LineContent(DecodeEach(a).events + DecodeEach(b).events, DecodeEach(b).intact)
  {
    hide Decode;
    if a == [] {
      assert a + b == b;
    } else {
      assert (a + b)[0] == a[0] && (a + b)[1..] == a[1..] + b;
      DecodeEachConcat(a[1..], b);
      Assoc([Decode(a[0]).value], DecodeEach(a[1..]).events, DecodeEach(b).events);
    }
  }

  /** The decoded events of one line, appended to `done`; `out` keeps those numbered above `afterSeq`. */
  method DecodeBatch(batch: seq<Bytes>, afterSeq: nat, seqNr: nat, out: seq<Bytes>, ghost done: seq<Bytes>)
    returns (seqNr': nat, out': seq<Bytes>, intact: bool)
    requires seqNr == |done| && out == After(done, afterSeq)
    ensures intact == DecodeEach(batch).intact
    ensures seqNr' == |done + DecodeEach(batch).events|
    ensures out' == After(done + DecodeEach(batch).events, afterSeq)
  {
    hide Decode;
    seqNr', out' := seqNr, out;
    for i := 0 to |batch|
      invariant DecodeEach(batch[..i]).intact
      invariant seqNr' == |done + DecodeEach(batch[..i]).events|
      invariant out' == After(done + DecodeEach(batch[..i]).events, afterSeq)
    {
      assert batch[..i + 1] == batch[..i] + [batch[i]];
      assert batch == batch[..i] + batch[i..];
      var decoded := Decode(batch[i]);
      if decoded.None? {
        DecodeEachConcat(batch[..i], batch[i..]);
        return seqNr', out', false;
      }
      DecodeEachConcat(batch[..i], [batch[i]]);
      assert DecodeEach([batch[i]]) == LineContent([decoded.value], true);
      assert done + DecodeEach(batch[..i + 1]).events == done + DecodeEach(batch[..i]).events + [decoded.value];
      seqNr' := seqNr' + 1;
      if seqNr' > afterSeq {
        out' := out' + [decoded.value];
      }
    }
    assert batch[..|batch|] == batch;
    intact := true;
  }

  /** One complete line: its events as far as they decode, and whether replay may go on. */
  method ReadLine(line: Bytes, afterSeq: nat, seqNr: nat, out: seq<Bytes>, ghost done: seq<Bytes>)
    returns (seqNr': nat, out': seq<Bytes>, intact: bool)
    requires seqNr == |done| && out == After(done, afterSeq)
    ensures intact == DecodeLine(line).intact
    ensures seqNr' == |done + DecodeLine(line).events|
    ensures out' == After(done + DecodeLine(line).events, afterSeq)
  {
    assert done + [] == done;
    seqNr', out', intact := seqNr, out, false;
    if line == [] {
      return;
    }
    var json := Decode(line);
    if json.None? {
      return;
    }
    var batch := ParseStrings(json.value);
    if batch.None? {
      return;
    }
    seqNr', out', intact := DecodeBatch(batch.value, afterSeq, seqNr, out, done);
  }

  lemma DecodeLinesStep(done: seq<Bytes>, lines: seq<Bytes>, i: nat)
    requires i < |lines|
    ensures done + DecodeLines(lines[i..]) ==
            done + DecodeLine(lines[i]).events +
            if DecodeLine(lines[i]).intact then DecodeLines(lines[i + 1..]) else []
  {
    assert lines[i..][1..] == lines[i + 1..];
  }

  /** The events of a journal file numbered above `afterSeq`. */
  method DecodeAfter(content: Bytes, afterSeq: nat) returns (out: seq<Bytes>)
    ensures out == After(Recovered(content), afterSeq)
  {
    var complete := CompleteLines(content);
    out := [];
    var seqNr: nat := 0;
    ghost var done: seq<Bytes> := [];
    for i := 0 to |complete|
      invariant seqNr == |done| && out == After(done, afterSeq)
      invariant Recovered(content) == done + DecodeLines(complete[i..])
    {
      DecodeLinesStep(done, complete, i);
      var intact;
      seqNr, out, intact := ReadLine(complete[i], afterSeq, seqNr, out, done);
      done := done + DecodeLine(complete[i]).events;
      if !intact {
        assert done + [] == done;
        return;
      }
    }
    assert done + [] == done;
  }

  class FileJournal {
    /** The contents of the journal files that exist. */
    var files: map<PersistenceId, Bytes>

    ghost function Content(pid: PersistenceId): Bytes
      reads this
    {
      if pid in files then files[pid] else []
    }

    constructor ()
      ensures files == map[]
    {
      files := map[];
    }

    method Persist(pid: PersistenceId, events: seq<Bytes>)
      modifies this
      ensures Content(pid) == old(Content(pid)) + if events == [] then [] else Line(events)
      ensures forall other :: other != pid ==> Content(other) == old(Content(other))
    {
      if events == [] {
        return;
      }
      var line := Encode(PrintStrings(EncodeEach(events))) + [NEWLINE];
      files := files[pid := (if pid in files then files[pid] else []) + line];
    }

    method Replay(pid: PersistenceId, afterSeq: nat) returns (items: seq<Bytes>)
      ensures items == After(Recovered(Content(pid)), afterSeq)
    {
      if pid !in files {
        return [];
      }
      items := DecodeAfter(files[pid], afterSeq);
    }

    method Clear(pid: PersistenceId)
      modifies this
      ensures Content(pid) == []
      ensures forall other :: other != pid ==> Content(other) == old(Content(other))
    {
      files := files - {pid};
    }
  }
}
