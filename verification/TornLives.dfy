/**
  Lives over the file journal that may also be killed in the middle of an append: what of
  all that was ever made durable the next recovery still reads.
 */
module TornLives {
  import opened Common
  import opened Framing
  import opened Runtime

  /** A process lifetime that may die `tear` bytes into the append after `killedAfter` calls. */
  datatype TornLife<E> = TornLife(turns: seq<Turn<E>>, killedAfter: nat, tear: nat)

  /** What happened to the file, append by append. */
  datatype Mark<E> = Wrote(events: seq<E>) | Tore

  /** What an append leaves of its line when it is killed after `tear` bytes, before the newline at the latest. */
  function Piece(blobs: seq<Bytes>, tear: nat): Bytes {
    if blobs == [] then []
    else if tear <= |LineBody(blobs)| then LineBody(blobs)[..tear]
    else LineBody(blobs)
  }

  /** The bytes left by the call a life was killed in. */
  function Fragment<E>(calls: seq<Call<E>>, life: TornLife<E>): Bytes {
    if life.killedAfter < |calls| && calls[life.killedAfter].PersistCall? then
      Piece(calls[life.killedAfter].blobs, life.tear)
    else []
  }

  function Finished<E>(calls: seq<Call<E>>, life: TornLife<E>): seq<Call<E>> {
    if life.killedAfter <= |calls| then calls[..life.killedAfter] else calls
  }

  function MarkOf<E>(c: Call<E>): seq<Mark<E>> {
    if c.PersistCall? && c.ok && c.events != [] then [Wrote(c.events)] else []
  }

  function Marks<E>(calls: seq<Call<E>>): seq<Mark<E>> {
    if calls == [] then [] else MarkOf(calls[0]) + Marks(calls[1..])
  }

  function TearMark<E>(fragment: Bytes): seq<Mark<E>> {
    if fragment == [] then [] else [Tore]
  }

  /** Life after life over one file, each recovering first: the file, and what happened to it. */
  function Lives<S, E>(a: Actor<S, E>, content: Bytes, lives: seq<TornLife<E>>): (Bytes, seq<Mark<E>>)
    decreases lives
  {
    if lives == [] then (content, [])
    else
      match RecoverFrom(a, File(content))
      case Err(_) => Lives(a, content, lives[1..])
      case Ok(live) =>
        var calls := Turns(a, live, lives[0].turns).1;
        var done, fragment := Finished(calls, lives[0]), Fragment(calls, lives[0]);
        var (last, more) := Lives(a, PerformAll(File(content), done).content + fragment, lives[1..]);
        (last, Marks(done) + TearMark(fragment) + more)
  }

  // ---- Reading the marks --------------------------------------------------------------------

  /** Every event whose append completed. */
  function Told<E>(marks: seq<Mark<E>>): seq<E> {
    if marks == [] then []
    else (if marks[0].Wrote? then marks[0].events else []) + Told(marks[1..])
  }

  /** Those whose append completed before any append was torn. */
  function BeforeTear<E>(marks: seq<Mark<E>>): seq<E> {
    if marks == [] || marks[0].Tore? then [] else marks[0].events + BeforeTear(marks[1..])
  }

  /** No append completed after one was torn. */
  predicate NothingAfterTear<E>(marks: seq<Mark<E>>) {
    forall i, j :: 0 <= i < j < |marks| && marks[i].Tore? ==> !marks[j].Wrote?
  }

  predicate AllTell<E>(marks: seq<Mark<E>>) {
    forall i :: 0 <= i < |marks| && marks[i].Wrote? ==> marks[i].events != []
  }

  datatype Damage = Intact | Torn | Lost

  function Hurt<E>(d: Damage, m: Mark<E>): Damage {
    match m
    case Tore => if d.Intact? then Torn else d
    case Wrote(_) => if d.Intact? then d else Lost
  }

  function DamageFrom<E>(d: Damage, marks: seq<Mark<E>>): Damage
    decreases marks
  {
    if marks == [] then d else DamageFrom(Hurt(d, marks[0]), marks[1..])
  }

  /** What is still read, when reading started with `d`. */
  function ReadFrom<E>(d: Damage, marks: seq<Mark<E>>): seq<E>
    decreases marks
  {
    if marks == [] then []
    else (if d.Intact? && marks[0].Wrote? then marks[0].events else []) + ReadFrom(Hurt(d, marks[0]), marks[1..])
  }

  lemma {:induction false} NothingReadOnceHurt<E>(d: Damage, marks: seq<Mark<E>>)
    requires !d.Intact?
    ensures ReadFrom(d, marks) == []
    decreases marks
  {
    if marks != [] {
      NothingReadOnceHurt(Hurt(d, marks[0]), marks[1..]);
    }
  }

  lemma {:induction false} ReadIsBeforeTear<E>(marks: seq<Mark<E>>)
    ensures ReadFrom(Intact, marks) == BeforeTear(marks)
  {
    if marks != [] {
      if marks[0].Tore? {
        NothingReadOnceHurt(Torn, marks[1..]);
      } else {
        ReadIsBeforeTear(marks[1..]);
      }
    }
  }

  lemma {:induction false} NothingToldIff<E>(marks: seq<Mark<E>>)
    requires AllTell(marks)
    ensures Told(marks) == [] <==> forall i :: 0 <= i < |marks| ==> !marks[i].Wrote?
  {
    if marks != [] {
      assert forall i :: 0 <= i < |marks[1..]| ==> marks[1..][i] == marks[i + 1];
      NothingToldIff(marks[1..]);
    }
  }

  /** Everything told is still read exactly when nothing was appended after a tear. */
  lemma {:induction false} AllReadIff<E>(marks: seq<Mark<E>>)
    requires AllTell(marks)
    ensures BeforeTear(marks) == Told(marks) <==> NothingAfterTear(marks)
    ensures |BeforeTear(marks)| == |Told(marks)| <==> NothingAfterTear(marks)
  {
    if marks != [] {
      var rest := marks[1..];
      assert forall i :: 0 <= i < |rest| ==> rest[i] == marks[i + 1];
      if marks[0].Tore? {
        NothingToldIff(rest);
        assert Told(marks) == [] + Told(rest);
        if NothingAfterTear(marks) {
          forall i | 0 <= i < |rest| ensures !rest[i].Wrote? {
            assert !marks[i + 1].Wrote?;
          }
        }
      } else {
        AllReadIff(rest);
        SameFront(marks[0].events, BeforeTear(rest), Told(rest));
        NothingAfterFirst(marks);
      }
    }
  }

  lemma SameFront<T>(front: seq<T>, x: seq<T>, y: seq<T>)
    ensures front + x == front + y <==> x == y
  {
    if front + x == front + y {
      assert x == (front + x)[|front|..] == (front + y)[|front|..] == y;
    }
  }

  lemma NothingAfterFirst<E>(marks: seq<Mark<E>>)
    requires marks != [] && marks[0].Wrote?
    ensures NothingAfterTear(marks) <==> NothingAfterTear(marks[1..])
  {
    var rest := marks[1..];
    if NothingAfterTear(rest) {
      forall i, j | 0 <= i < j < |marks| && marks[i].Tore? ensures !marks[j].Wrote? {
        assert rest[i - 1] == marks[i] && rest[j - 1] == marks[j];
      }
    }
    if NothingAfterTear(marks) {
      forall i, j | 0 <= i < j < |rest| && rest[i].Tore? ensures !rest[j].Wrote? {
        assert marks[i + 1] == rest[i] && marks[j + 1] == rest[j];
      }
    }
  }

  lemma {:induction false} MarksConcat<E>(d: Damage, x: seq<Mark<E>>, y: seq<Mark<E>>)
    ensures DamageFrom(d, x + y) == DamageFrom(DamageFrom(d, x), y)
    ensures ReadFrom(d, x + y) == ReadFrom(d, x) + ReadFrom(DamageFrom(d, x), y)
    decreases x
  {
    hide Hurt;
    if x == [] {
      assert x + y == y;
      assert [] + ReadFrom(d, y) == ReadFrom(d, y);
    } else {
      assert (x + y)[0] == x[0] && (x + y)[1..] == x[1..] + y;
      MarksConcat(Hurt(d, x[0]), x[1..], y);
      Assoc(if d.Intact? && x[0].Wrote? then x[0].events else [],
            ReadFrom(Hurt(d, x[0]), x[1..]), ReadFrom(DamageFrom(d, x), y));
    }
  }

  // ---- What the file holds ----------------------------------------------------------------------

  /** Whole lines of `blobs`, then a torn tail. */
  ghost predicate TailHolds(content: Bytes, blobs: seq<Bytes>) {
    exists batches, tail :: content == Lines(batches) + tail && Flatten(batches) == blobs && TornTail(tail)
  }

  /** Whole lines of `blobs`, then a line that cannot be read, then anything. */
  ghost predicate LostHolds(content: Bytes, blobs: seq<Bytes>) {
    exists batches, bad, rest ::
      && content == Lines(batches) + (bad + [NEWLINE] + rest) && Flatten(batches) == blobs
      && NoNewline(bad) && DecodeLine(bad) == LineContent([], false)
  }

  ghost predicate Bears(content: Bytes, blobs: seq<Bytes>, d: Damage) {
    match d
    case Intact => WholeLines(content, blobs)
    case Torn => TailHolds(content, blobs)
    case Lost => LostHolds(content, blobs)
  }

  lemma Reads(content: Bytes, blobs: seq<Bytes>, d: Damage)
    requires Bears(content, blobs, d)
    ensures Recovered(content) == blobs
  {
    hide Lines, Recovered, NoNewline, DecodeLine;
    match d
    case Intact =>
      var batches :| content == Lines(batches) && Flatten(batches) == blobs;
      ReadBack(batches);
    case Torn =>
      var batches, tail :| content == Lines(batches) + tail && Flatten(batches) == blobs && TornTail(tail);
      TailIsUnread(batches, tail);
    case Lost =>
      var batches, bad, rest :|
        && content == Lines(batches) + (bad + [NEWLINE] + rest) && Flatten(batches) == blobs
        && NoNewline(bad) && DecodeLine(bad) == LineContent([], false);
      BadLineEndsReading(batches, bad, rest);
  }

  lemma TailIsUnread(batches: seq<seq<Bytes>>, tail: Bytes)
    requires NoNewline(tail)
    ensures Recovered(Lines(batches) + tail) == Flatten(batches)
  {
    hide Lines, SplitFrom;
    SplitTail(tail, []);
    RecoverAfterBatches(batches, tail);
    assert Flatten(batches) + [] == Flatten(batches);
  }

  lemma WroteOnTail(content: Bytes, blobs: seq<Bytes>, more: seq<Bytes>)
    requires TailHolds(content, blobs) && more != []
    ensures LostHolds(content + Line(more), blobs)
  {
    hide Lines, LineBody, DecodeLine, NoNewline;
    var batches, tail :| content == Lines(batches) + tail && Flatten(batches) == blobs && TornTail(tail);
    var bad := tail + LineBody(more);
    MergedTailIsUnreadable(tail, more);
    BodyHasNoNewline(more);
    NoNewlineJoins(tail, |tail|, LineBody(more));
    assert tail[..|tail|] == tail;
    Assoc(Lines(batches), tail, Line(more));
    Assoc(tail, LineBody(more), [NEWLINE]);
    assert bad + [NEWLINE] + [] == bad + [NEWLINE];
  }

  lemma MoreOnLost(content: Bytes, blobs: seq<Bytes>, more: Bytes)
    requires LostHolds(content, blobs)
    ensures LostHolds(content + more, blobs)
  {
    hide Lines, DecodeLine, NoNewline;
    var batches, bad, rest :|
      && content == Lines(batches) + (bad + [NEWLINE] + rest) && Flatten(batches) == blobs
      && NoNewline(bad) && DecodeLine(bad) == LineContent([], false);
    Assoc(Lines(batches), bad + [NEWLINE] + rest, more);
    Assoc(bad + [NEWLINE], rest, more);
  }

  /** A completed append of something. */
  lemma WroteBears(content: Bytes, blobs: seq<Bytes>, d: Damage, more: seq<Bytes>)
    requires Bears(content, blobs, d) && more != []
    ensures Bears(content + Line(more), if d.Intact? then blobs + more else blobs, if d.Intact? then d else Lost)
  {
    hide Line, WholeLines, TailHolds, LostHolds;
    match d
    case Intact => AppendKeepsWholeLines(content, blobs, more);
    case Torn => WroteOnTail(content, blobs, more);
    case Lost => MoreOnLost(content, blobs, Line(more));
  }

  lemma PieceIsTail(more: seq<Bytes>, tear: nat)
    requires Piece(more, tear) != []
    ensures TornTail(Piece(more, tear))
  {
    hide LineBody;
    var body := LineBody(more);
    TornIsTail(more, if tear <= |body| then tear else |body|);
    assert body[..|body|] == body;
  }

  /** An append torn after some bytes. */
  lemma ToreBears(content: Bytes, blobs: seq<Bytes>, d: Damage, piece: Bytes)
    requires Bears(content, blobs, d) && TornTail(piece)
    ensures Bears(content + piece, blobs, if d.Intact? then Torn else d)
  {
    hide LostHolds, Lines;
    match d
    case Intact =>
      var batches :| content == Lines(batches) && Flatten(batches) == blobs;
      assert content + piece == Lines(batches) + piece;
    case Torn =>
      var batches, tail :| content == Lines(batches) + tail && Flatten(batches) == blobs && TornTail(tail);
      Assoc(Lines(batches), tail, piece);
      assert TornTail(tail + piece);
      assert content + piece == Lines(batches) + (tail + piece);
    case Lost => MoreOnLost(content, blobs, piece);
  }

  // ---- Lives ------------------------------------------------------------------------------------------

  /** The calls persist what their events encode to. */
  predicate Encoded<S, E>(a: Actor<S, E>, c: Call<E>) {
    c.PersistCall? ==> EncodeAll(a, c.events) == Some(c.blobs)
  }

  predicate AllEncoded<S, E>(a: Actor<S, E>, calls: seq<Call<E>>) {
    forall i :: 0 <= i < |calls| ==> Encoded(a, calls[i])
  }

  lemma {:induction false} TurnsEncode<S, E>(a: Actor<S, E>, live: Live<S>, turns: seq<Turn<E>>)
    ensures AllEncoded(a, Turns(a, live, turns).1)
    decreases turns
  {
    hide EncodeAll, Fold;
    if turns != [] {
      TurnsEncode(a, TurnStep(a, live, turns[0]).0, turns[1..]);
    }
  }

  /** The file holds what was told as far as it can still be read. */
  ghost predicate Tells<S, E>(a: Actor<S, E>, content: Bytes, hist: seq<E>, d: Damage) {
    EncodeAll(a, hist).Some? && Bears(content, EncodeAll(a, hist).value, d)
  }

  lemma CallTells<S, E>(a: Actor<S, E>, content: Bytes, hist: seq<E>, d: Damage, c: Call<E>)
    requires Tells(a, content, hist, d) && Encoded(a, c)
    ensures var s, m := Perform(File(content), c), MarkOf(c);
            s.File? && Tells(a, s.content, hist + ReadFrom(d, m), DamageFrom(d, m))
  {
    hide Bears, Line, EncodeAll;
    var m := MarkOf(c);
    assert hist + [] == hist && content + [] == content;
    assert DamageFrom<E>(d, []) == d && ReadFrom<E>(d, []) == [];
    if m != [] {
      var more := c.blobs;
      assert m == [Wrote(c.events)] && m[1..] == [];
      assert ReadFrom(d, m) == (if d.Intact? then c.events else []) + [];
      assert DamageFrom(d, m) == Hurt(d, m[0]) && c.events + [] == c.events;
      EncodedSomething(a, c.events);
      WroteBears(content, EncodeAll(a, hist).value, d, more);
      if d.Intact? {
        EncodeConcat(a, hist, c.events);
      }
    } else if c.PersistCall? && c.ok {
      EncodedSomething(a, c.events);
    }
  }

  lemma EncodedSomething<S, E>(a: Actor<S, E>, events: seq<E>)
    requires EncodeAll(a, events).Some?
    ensures EncodeAll(a, events).value == [] <==> events == []
  {
  }

  lemma {:induction false} CallsTell<S, E>(
      a: Actor<S, E>, content: Bytes, hist: seq<E>, d: Damage, calls: seq<Call<E>>)
    requires Tells(a, content, hist, d) && AllEncoded(a, calls)
    ensures var marks := Marks(calls);
            Tells(a, PerformAll(File(content), calls).content, hist + ReadFrom(d, marks), DamageFrom(d, marks))
    decreases calls
  {
    hide Tells, Encoded, Perform, MarkOf;
    if calls == [] {
      assert hist + [] == hist;
    } else {
      var c, m := calls[0], MarkOf(calls[0]);
      CallTells(a, content, hist, d, c);
      CallsTell(a, Perform(File(content), c).content, hist + ReadFrom(d, m), DamageFrom(d, m), calls[1..]);
      MarksConcat(d, m, Marks(calls[1..]));
      Assoc(hist, ReadFrom(d, m), ReadFrom(DamageFrom(d, m), Marks(calls[1..])));
    }
  }

  lemma FragmentTells<S, E>(
      a: Actor<S, E>, content: Bytes, hist: seq<E>, d: Damage, calls: seq<Call<E>>, life: TornLife<E>)
    requires Tells(a, content, hist, d)
    ensures var piece := Fragment(calls, life);
            var m: seq<Mark<E>> := TearMark(piece);
            Tells(a, content + piece, hist + ReadFrom(d, m), DamageFrom(d, m))
  {
    hide Bears, EncodeAll, Piece, TornTail;
    var piece := Fragment(calls, life);
    var m: seq<Mark<E>> := TearMark(piece);
    assert hist + [] == hist && content + [] == content;
    if piece != [] {
      assert m == [Tore] && m[1..] == [];
      assert ReadFrom(d, m) == [] + [];
      PieceIsTail(calls[life.killedAfter].blobs, life.tear);
      ToreBears(content, EncodeAll(a, hist).value, d, piece);
    }
  }

  lemma TellsRecovers<S(!new), E(!new)>(a: Actor<S, E>, content: Bytes, hist: seq<E>, d: Damage)
    requires RoundTrips(a) && Tells(a, content, hist, d)
    ensures RecoverFrom(a, File(content)) == Ok(Live(Fold(a, a.initial, hist), |hist|))
  {
    hide Bears, EncodeAll, Fold, Refold;
    Reads(content, EncodeAll(a, hist).value, d);
    RefoldEncoded(a, Live(a.initial, 0), hist);
    var blobs := EncodeAll(a, hist).value;
    assert blobs[0..] == blobs;
  }

  /** One life, from a file that holds `hist` as far as `d` lets it be read. */
  lemma OneLifeTells<S(!new), E(!new)>(a: Actor<S, E>, content: Bytes, hist: seq<E>, d: Damage, life: TornLife<E>)
    returns (content': Bytes, marks: seq<Mark<E>>)
    requires RoundTrips(a) && Tells(a, content, hist, d)
    ensures RecoverFrom(a, File(content)).Ok?
    ensures var calls := Turns(a, RecoverFrom(a, File(content)).value, life.turns).1;
            var done, piece := Finished(calls, life), Fragment(calls, life);
            content' == PerformAll(File(content), done).content + piece && marks == Marks(done) + TearMark(piece)
    ensures Tells(a, content', hist + ReadFrom(d, marks), DamageFrom(d, marks))
  {
    hide Tells, Encoded, RecoverFrom, Turns, Fragment;
    TellsRecovers(a, content, hist, d);
    var live := RecoverFrom(a, File(content)).value;
    var calls := Turns(a, live, life.turns).1;
    var done, piece := Finished(calls, life), Fragment(calls, life);
    var m: seq<Mark<E>> := TearMark(piece);
    TurnsEncode(a, live, life.turns);
    CallsTell(a, content, hist, d, done);
    var hist', d' := hist + ReadFrom(d, Marks(done)), DamageFrom(d, Marks(done));
    FragmentTells(a, PerformAll(File(content), done).content, hist', d', calls, life);
    MarksConcat(d, Marks(done), m);
    Assoc(hist, ReadFrom(d, Marks(done)), ReadFrom(d', m));
    content', marks := PerformAll(File(content), done).content + piece, Marks(done) + m;
  }

  lemma {:induction false} LivesTell<S(!new), E(!new)>(
      a: Actor<S, E>, content: Bytes, hist: seq<E>, d: Damage, lives: seq<TornLife<E>>)
    requires RoundTrips(a) && Tells(a, content, hist, d)
    ensures var (last, marks) := Lives(a, content, lives);
            Tells(a, last, hist + ReadFrom(d, marks), DamageFrom(d, marks))
    decreases lives
  {
    hide Tells, Turns, PerformAll, Fragment, Finished, Marks, RecoverFrom, TearMark;
    if lives == [] {
      assert hist + [] == hist;
    } else {
      var content', marks := OneLifeTells(a, content, hist, d, lives[0]);
      var hist', d' := hist + ReadFrom(d, marks), DamageFrom(d, marks);
      LivesTell(a, content', hist', d', lives[1..]);
      var more := Lives(a, content', lives[1..]).1;
      MarksConcat(d, marks, more);
      Assoc(hist, ReadFrom(d, marks), ReadFrom(d', more));
    }
  }

  lemma AllTellJoins<E>(x: seq<Mark<E>>, y: seq<Mark<E>>)
    requires AllTell(x) && AllTell(y)
    ensures AllTell(x + y)
  {
  }

  lemma {:induction false} MarksTell<E>(calls: seq<Call<E>>)
    ensures AllTell(Marks(calls)) && Told(Marks(calls)) == Durable(calls)
  {
    if calls != [] {
      var m, rest := MarkOf(calls[0]), calls[1..];
      MarksTell(rest);
      AllTellJoins(m, Marks(rest));
      if m == [] {
        assert [] + Marks(rest) == Marks(rest) && [] + Durable(rest) == Durable(rest);
      } else {
        assert (m + Marks(rest))[0] == m[0] && (m + Marks(rest))[1..] == Marks(rest);
      }
    }
  }

  lemma {:induction false} LivesAllTell<S, E>(a: Actor<S, E>, content: Bytes, lives: seq<TornLife<E>>)
    ensures AllTell(Lives(a, content, lives).1)
    decreases lives
  {
    hide RecoverFrom, Turns, PerformAll, Fragment, Finished, Marks;
    if lives != [] {
      match RecoverFrom(a, File(content))
      case Err(_) => LivesAllTell(a, content, lives[1..]);
      case Ok(live) =>
        var calls := Turns(a, live, lives[0].turns).1;
        var done, fragment := Finished(calls, lives[0]), Fragment(calls, lives[0]);
        MarksTell(done);
        LivesAllTell(a, PerformAll(File(content), done).content + fragment, lives[1..]);
        var more := Lives(a, PerformAll(File(content), done).content + fragment, lives[1..]).1;
        var tear: seq<Mark<E>> := TearMark(fragment);
        AllTellJoins(Marks(done), tear);
        AllTellJoins(Marks(done) + tear, more);
    }
  }

  /**
    Over any lives, each killed between two journal calls or at any byte of an append, the
    recovered state and count are those of the events whose append completed before any was
    torn. These are all the durable events exactly when no append completed after a tear.
   */
  lemma TornLivesRecover<S(!new), E(!new)>(a: Actor<S, E>, lives: seq<TornLife<E>>)
    requires RoundTrips(a)
    ensures var (content, marks) := Lives(a, [], lives);
            && RecoverFrom(a, File(content)) ==
               Ok(Live(Fold(a, a.initial, BeforeTear(marks)), |BeforeTear(marks)|))
            && (BeforeTear(marks) == Told(marks) <==> NothingAfterTear(marks))
            && (|BeforeTear(marks)| == |Told(marks)| <==> NothingAfterTear(marks))
  {
    hide Lives, RecoverFrom, Fold, Tells;
    NothingTellsNothing(a);
    LivesTell(a, [], [], Intact, lives);
    LivesAllTell(a, [], lives);
    var (content, marks) := Lives(a, [], lives);
    ReadIsBeforeTear(marks);
    AllReadIff(marks);
    assert [] + ReadFrom(Intact, marks) == ReadFrom(Intact, marks);
    TellsRecovers(a, content, BeforeTear(marks), DamageFrom(Intact, marks));
  }

  lemma NothingTellsNothing<S, E>(a: Actor<S, E>)
    ensures Tells(a, [], [], Intact)
  {
    assert Lines([]) == [] && Flatten<Bytes>([]) == [];
  }
}
