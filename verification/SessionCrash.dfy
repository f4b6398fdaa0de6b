/** A session dies at any moment of a turn, its events on their way to the journal: what recovery makes of it. */
module SessionCrash {
  import opened Common
  import opened Conversation
  import opened AgentLoop
  import opened AgentEvents
  import opened AgentRuns
  import opened AgentRetries
  import opened AgentRecovery
  import P = Pipeline

  /** A turn that one more result completes. */
  lemma PausedTurn(base: seq<Message>, x: Message)
    requires base != [] && OpensWithTurn(base + [x]) && |CallsOf(base[0])| == |base|
    ensures PartlyAnswered(base[0], base[1..])
  {
    var whole, done := base + [x], base[1..];
    assert whole[0] == base[0];
    var calls := CallsOf(base[0]);
    assert base[0].role.Assistant?;
    hide CallsOf, Answers;
    forall i | 0 <= i < |done| ensures Answers(done[i], calls[..|done|][i].id) {
      assert done[i] == whole[i + 1];
    }
  }

  /** A conversation that a result completes: it ends in a reply that all but the last of its calls are answered of. */
  lemma {:induction false} PausedBefore(base: seq<Message>, x: Message)
    returns (a: seq<Message>, m: Message, done: seq<Message>)
    requires WellFormed(base + [x]) && x.role.Tool?
    ensures base == a + ([m] + done) && PartlyAnswered(m, done) && |CallsOf(m)| == |done| + 1
    decreases |base|
  {
    hide CallsOf, Answers, PartlyAnswered;
    var whole := base + [x];
    assert OpensWithTurn(whole);
    assert base == [] ==> whole == [x];
    var n := |CallsOf(base[0])|;
    assert whole[0] == base[0];
    if n < |base| {
      assert whole[1 + n..] == base[1 + n..] + [x];
      a, m, done := PausedBefore(base[1 + n..], x);
      assert base == base[..1 + n] + base[1 + n..];
      Assoc(base[..1 + n], a, [m] + done);
      a := base[..1 + n] + a;
    } else {
      a, m, done := [], base[0], base[1..];
      PausedTurn(base, x);
    }
  }

  /** The call that a session paused on: the last of its last reply. */
  function Pending(base: seq<Message>): seq<Call> {
    var calls := LastCalls(base);
    if calls == [] then [] else calls[|calls| - 1..]
  }

  /**
    Before the input of a turn reached the journal: a conversation that was complete is left
    as it is; one that was paused on a call gets one error result for that call, and is well
    formed exactly when the call's id is not answered already.
   */
  lemma BeforeTheInput(note: string, base: seq<Message>, input: Message)
    requires WellFormed(base + [input])
    ensures var open := if input.role.Tool? then Pending(base) else [];
            && (WellFormed(Sanitize(note, base)) <==> Fresh(open, base))
            && (Fresh(open, base) ==> Sanitize(note, base) == base + Interruptions(note, open))
  {
    hide WellFormed, Sanitize, LastCalls, AnsweredIds, CallsOf, AnswersInOrder, Interruptions;
    if input.role.Tool? {
      var a, m, done := PausedBefore(base, input);
      LastCallsOf(a, m, done);
      assert base + [input] == a + ([m] + (done + [input])) by {
        Assoc(a, [m] + done, [input]);
        Assoc([m], done, [input]);
      }
      WellFormedBefore(a, m, done + [input]);
      SanitizeCompletesIff(note, a, m, done);
    } else {
      assert base + [input] == base + ([input] + []);
      WellFormedBefore(base, input, []);
      SanitizeIdle(note, base);
      NoInterruptions(note);
      assert base + [] == base;
    }
  }

  lemma NoInterruptions(note: string)
    ensures Interruptions(note, []) == []
  {
  }

  /** What a cut of a turn's journal recovers; the closing event says nothing. */
  lemma ClosingSaysNothing(base: seq<Message>, input: Message, turn: Turn, k: nat) returns (k': nat)
    requires k <= |JournalOf(input, turn.runs) + P.Listed(Closing(turn.outcome))|
    ensures k' <= |JournalOf(input, turn.runs)| && (k' == 0 <==> k == 0)
    ensures FoldEvents(base, (JournalOf(input, turn.runs) + P.Listed(Closing(turn.outcome)))[..k]) ==
            FoldEvents(base, JournalOf(input, turn.runs)[..k'])
  {
    hide CoarseAll, EventsOf;
    var journal, closing := JournalOf(input, turn.runs), P.Listed(Closing(turn.outcome));
    if k <= |journal| {
      k' := k;
      assert (journal + closing)[..k] == journal[..k];
    } else {
      k' := |journal|;
      assert (journal + closing)[..k] == journal + [RunCancelled] && journal[..k'] == journal;
      assert (journal + [RunCancelled])[..|journal|] == journal;
    }
  }

  /**
    The whole way from a turn to its recovery. Whatever the interleaving of the run, the
    channel, the forwarder, the mailbox and the session, and whenever the process dies: if no
    persist failed, the session recovers the conversation before the turn, or that, the input
    and the first `q` messages the attempts said. Sanitized, it is well formed exactly when
    no round before the last reply in it was nudged or rejected and no call left open has an
    id answered already; and then the sanitizer added one error result per open call.
   */
  lemma SessionDies(
      note: string, cfg: Config, specs: seq<ToolSpec>, compiles: Json -> bool, ws: nat -> World,
      base: seq<Message>, input: Message, maxRetries: nat, steps: seq<P.Step>) returns (q: nat)
    requires WellFormed(base + [input])
    requires var turn := RunWithRetries(cfg, specs, compiles, ws, base, input, maxRetries);
             P.AllKept(P.Exec(P.Turning(input, turn), steps).kept)
    ensures var turn := RunWithRetries(cfg, specs, compiles, ws, base, input, maxRetries);
            var journal := P.Exec(P.Turning(input, turn), steps).journal;
            var ms := FoldEvents(base, journal);
            var rounds := RoundsOf(turn.runs);
            && q <= |JournaledOf(rounds)|
            && ms == (if journal == [] then base else base + [input] + JournaledOf(rounds)[..q])
            && var open := if journal != [] then Open(rounds, q) else if input.role.Tool? then Pending(base) else [];
               && (WellFormed(Sanitize(note, ms)) <==>
                     (journal == [] || Mended(Earlier(rounds, q))) && Fresh(open, ms))
               && (WellFormed(Sanitize(note, ms)) ==> Sanitize(note, ms) == ms + Interruptions(note, open))
  {
    hide RunWithRetries, WellFormed, Sanitize, Mended, JournaledOf, Interruptions, Fresh, Pending, Earlier, Open;
    hide P.Exec, P.Turning, P.AllKept, CoarseAll, EventsOf, RoundsOf, Closing, P.Listed;
    var turn := RunWithRetries(cfg, specs, compiles, ws, base, input, maxRetries);
    var k := P.CrashLeavesACut(input, turn, steps);
    var k' := ClosingSaysNothing(base, input, turn, k);
    if k' == 0 {
      q := 0;
      BeforeTheInput(note, base, input);
    } else {
      q := CrashRecovery(note, cfg, specs, compiles, ws, base, input, maxRetries, k');
    }
  }
}
