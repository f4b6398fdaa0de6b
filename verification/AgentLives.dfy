/** A session over all its lives and turns: each life any number of turns, each turn cut off at any moment. */
module AgentLives {
  import opened Common
  import opened Conversation
  import opened AgentLoop
  import opened AgentEvents
  import opened AgentRuns
  import opened AgentRetries
  import opened AgentRecovery
  import opened AgentCrashes
  import opened Owing
  import A = AgentActors

  /** What stays the same over the lives of a session; `note` is the text of an interruption. */
  datatype Session = Session(
    note: string,
    cfg: Config,
    specs: seq<ToolSpec>,
    compiles: Json -> bool,
    maxRetries: nat)

  function TurnFrom(s: Session, history: seq<Message>, input: Message, ws: nat -> World): Turn {
    RunWithRetries(s.cfg, s.specs, s.compiles, ws, history, input, s.maxRetries)
  }

  /**
    A turn of a session, of whose events the journal gets the first `kept`. It is begun by an
    input, which is journaled first, or by recovery, whose synthetic input is not. (Recovery
    begins nothing on an empty conversation; what follows holds whether it does or not.)
   */
  datatype Leg =
    | Begun(input: Message, ws: nat -> World, kept: nat)
    | Resumed(proceed: Message, ws: nat -> World, kept: nat)

  /** Recovery goes on from the sanitized conversation, an input from the conversation as it is. */
  function TurnOn(s: Session, ms: seq<Message>, leg: Leg): Turn {
    match leg
    case Begun(input, ws, _) => TurnFrom(s, ms, input, ws)
    case Resumed(proceed, ws, _) => TurnFrom(s, Sanitize(s.note, ms), proceed, ws)
  }

  function FirstOf(leg: Leg): seq<DomainEvent> {
    if leg.Begun? then [InputPersisted(leg.input)] else []
  }

  function LastOf(o: TurnOutcome): seq<DomainEvent> {
    if Closing(o).Some? then [Closing(o).value] else []
  }

  /** All that the turn is to journal. */
  function ToJournal(s: Session, ms: seq<Message>, leg: Leg): seq<DomainEvent> {
    var turn := TurnOn(s, ms, leg);
    FirstOf(leg) + (CoarseAll(EventsOf(turn.runs)) + LastOf(turn.outcome))
  }

  function Kept(events: seq<DomainEvent>, n: nat): seq<DomainEvent> {
    if n <= |events| then events[..n] else events
  }

  /** What is left of a turn: its input, if journaled, and the first `q` messages of its rounds. */
  datatype Segment = Segment(input: seq<Message>, rounds: seq<Round>, q: nat)

  function SegmentOf(s: Session, ms: seq<Message>, leg: Leg): Segment {
    var input := if leg.Begun? && leg.kept > 0 then [leg.input] else [];
    var said := |Produced(Kept(ToJournal(s, ms, leg), leg.kept))|;
    Segment(input, RoundsOf(TurnOn(s, ms, leg).runs), if |input| <= said then said - |input| else 0)
  }

  function Messages(g: Segment): seq<Message> {
    g.input + if g.q <= |JournaledOf(g.rounds)| then JournaledOf(g.rounds)[..g.q] else []
  }

  function AllMessages(segments: seq<Segment>): seq<Message> {
    if segments == [] then [] else Messages(segments[0]) + AllMessages(segments[1..])
  }

  /** What the session recovers after the legs, and what each left. */
  function Lived(s: Session, ms: seq<Message>, legs: seq<Leg>): (seq<Message>, seq<Segment>)
    decreases legs
  {
    if legs == [] then (ms, [])
    else
      var (last, segments) := Lived(s, FoldEvents(ms, Kept(ToJournal(s, ms, legs[0]), legs[0].kept)), legs[1..]);
      (last, [SegmentOf(s, ms, legs[0])] + segments)
  }

  /**
    Legs are what the session's handlers start: commands from the conversation as it is,
    recovery from the mended one.
   */
  lemma HandlersBeginLegs(
      s: Session, ms: seq<Message>, p: A.Params, c: A.Command, proceed: Message, ws: nat -> World, kept: nat)
    ensures A.TurnStarted(ms, c).Some? ==>
              var (history, input) := A.TurnStarted(ms, c).value;
              var turn := TurnFrom(s, history, input, ws);
              && TurnOn(s, ms, Begun(input, ws, kept)) == turn
              && A.EffectOf(p, c).Persist?
              && ToJournal(s, ms, Begun(input, ws, kept)) ==
                 A.EffectOf(p, c).events + (CoarseAll(EventsOf(turn.runs)) + LastOf(turn.outcome))
    ensures A.TurnResumed(s.note, ms, proceed).Some? ==>
              var (history, input) := A.TurnResumed(s.note, ms, proceed).value;
              TurnOn(s, ms, Resumed(proceed, ws, kept)) == TurnFrom(s, history, input, ws)
  {
    hide TurnFrom, CoarseAll, EventsOf, LastOf;
    A.CommandsContinueTheConversation(p, ms, c);
  }

  // ---- What the segments owe ------------------------------------------------------------------------

  /** Its input has to fit; if it says anything nothing may be owed, and then its own open calls are. */
  function OwedBy(owed: Option<seq<Call>>, g: Segment): Option<seq<Call>> {
    var start := if g.input == [] then owed else Take(owed, g.input[0]);
    if g.q == 0 then start
    else if g.q <= |JournaledOf(g.rounds)| && start == Some([]) && Mended(Earlier(g.rounds, g.q)) then
      Some(Open(g.rounds, g.q))
    else None
  }

  function OwedByAll(owed: Option<seq<Call>>, segments: seq<Segment>): Option<seq<Call>>
    decreases segments
  {
    if segments == [] then owed else OwedByAll(OwedBy(owed, segments[0]), segments[1..])
  }

  lemma ProducedFirst(input: Message, events: seq<DomainEvent>)
    ensures Produced([InputPersisted(input)] + events) == [input] + Produced(events)
  {
    WholeFold([], input, events);
    FoldFrom([] + [input], events);
    assert [] + [input] == [input];
  }

  lemma LastSaysNothing(events: seq<DomainEvent>, o: TurnOutcome)
    ensures Produced(events + LastOf(o)) == Produced(events)
  {
    var last := LastOf(o);
    assert last == [] || last == [RunCancelled];
    if last == [] {
      assert events + [] == events;
    } else {
      assert (events + [RunCancelled])[..|events|] == events;
    }
  }

  lemma ProducedCut(events: seq<DomainEvent>, k: nat)
    requires k <= |events|
    ensures var q := |Produced(events[..k])|;
            q <= |Produced(events)| && Produced(events[..k]) == Produced(events)[..q]
  {
    hide Produced;
    assert events == events[..k] + events[k..];
    ProducedConcat(events[..k], events[k..]);
  }

  /** What a leg streams, without its input. */
  lemma LegStreams(s: Session, ms: seq<Message>, leg: Leg)
    ensures var turn := TurnOn(s, ms, leg);
            && RoundsOfTurn(RoundsOf(turn.runs))
            && Produced(CoarseAll(EventsOf(turn.runs)) + LastOf(turn.outcome)) == JournaledOf(RoundsOf(turn.runs))
  {
    hide RunWithRetries, Sanitize, Produced, CoarseAll, EventsOf, RoundsOfTurn, JournaledOf, RoundsOf, LastOf;
    var turn := TurnOn(s, ms, leg);
    LastSaysNothing(CoarseAll(EventsOf(turn.runs)), turn.outcome);
    match leg
    case Begun(input, ws, _) => TurnSpeaks(s.cfg, s.specs, s.compiles, ws, ms, input, s.maxRetries);
    case Resumed(proceed, ws, _) =>
      TurnSpeaks(s.cfg, s.specs, s.compiles, ws, Sanitize(s.note, ms), proceed, s.maxRetries);
  }

  lemma KeptSays(events: seq<DomainEvent>, n: nat)
    ensures var q := |Produced(Kept(events, n))|;
            q <= |Produced(events)| && Produced(Kept(events, n)) == Produced(events)[..q]
    ensures |events| <= n ==> Kept(events, n) == events
  {
    hide Produced;
    var k := if n <= |events| then n else |events|;
    assert events[..|events|] == events;
    ProducedCut(events, k);
  }

  /** What a leg adds to the conversation. */
  lemma LegAdds(s: Session, ms: seq<Message>, leg: Leg)
    ensures var g := SegmentOf(s, ms, leg);
            && RoundsOfTurn(g.rounds) && g.q <= |JournaledOf(g.rounds)| && |g.input| <= 1
            && FoldEvents(ms, Kept(ToJournal(s, ms, leg), leg.kept)) == ms + Messages(g)
  {
    hide TurnOn, FoldEvents, CoarseAll, EventsOf, RoundsOfTurn, JournaledOf, RoundsOf, LastOf, Produced;
    var turn := TurnOn(s, ms, leg);
    var streamed := CoarseAll(EventsOf(turn.runs)) + LastOf(turn.outcome);
    var all := ToJournal(s, ms, leg);
    LegStreams(s, ms, leg);
    FoldFrom(ms, Kept(all, leg.kept));
    match leg
    case Resumed(_, _, n) =>
      assert all == streamed by {
        assert [] + streamed == streamed;
      }
      KeptSays(streamed, n);
      var said := Produced(Kept(streamed, n));
      assert [] + said == said;
    case Begun(input, _, n) =>
      if n == 0 {
        NothingProduced();
        var none: seq<Message> := [];
        assert all[..0] == [] && ms + [] == ms && none + none == none;
        assert JournaledOf(RoundsOf(turn.runs))[..0] == [];
      } else {
        KeptSays(streamed, n - 1);
        assert Kept(all, n) == [InputPersisted(input)] + Kept(streamed, n - 1);
        ProducedFirst(input, Kept(streamed, n - 1));
      }
  }

  lemma NothingProduced()
    ensures Produced([]) == []
  {
  }

  lemma SegmentOwes(ms: seq<Message>, g: Segment)
    requires RoundsOfTurn(g.rounds) && g.q <= |JournaledOf(g.rounds)| && |g.input| <= 1
    ensures Owed(ms + Messages(g)) == OwedBy(Owed(ms), g)
  {
    hide RoundsOfTurn, JournaledOf, Mended, Earlier, Open, Take, WellFormed, Owed;
    var said := JournaledOf(g.rounds)[..g.q];
    Assoc(ms, g.input, said);
    InputTaken(ms, g.input);
    if g.q == 0 {
      assert ms + g.input + [] == ms + g.input;
    } else {
      RoundsOwe(ms + g.input, g.rounds, g.q);
      WellFormedIffNothingOwed(ms + g.input);
    }
  }

  lemma InputTaken(ms: seq<Message>, input: seq<Message>)
    requires |input| <= 1
    ensures Owed(ms + input) == if input == [] then Owed(ms) else Take(Owed(ms), input[0])
  {
    hide Take;
    OwedConcat(Some([]), ms, input);
    if input == [] {
      assert ms + [] == ms;
    } else {
      assert input == [input[0]];
      OwedOne(Owed(ms), input[0]);
    }
  }

  lemma {:induction false} LegsOwe(s: Session, ms: seq<Message>, legs: seq<Leg>)
    ensures var (last, segments) := Lived(s, ms, legs);
            && last == ms + AllMessages(segments)
            && Owed(last) == OwedByAll(Owed(ms), segments)
    decreases legs
  {
    hide FoldEvents, Kept, ToJournal, SegmentOf, Messages, OwedBy, Owed;
    if legs == [] {
      assert ms + [] == ms;
    } else {
      var g := SegmentOf(s, ms, legs[0]);
      LegAdds(s, ms, legs[0]);
      SegmentOwes(ms, g);
      LegsOwe(s, ms + Messages(g), legs[1..]);
      var more := Lived(s, ms + Messages(g), legs[1..]).1;
      assert ([g] + more)[0] == g && ([g] + more)[1..] == more;
      Assoc(ms, Messages(g), AllMessages(more));
    }
  }

  /**
    Any number of lives, each of any number of turns, begun by whatever input or by recovery,
    each cut off at any moment. What the turns left adds up to what the session recovers, and
    what that still owes can be told turn by turn. It is well formed exactly when nothing is
    owed; the sanitizer makes it so exactly when everything fitted and no call owed has an id
    that is answered already, adding one error result per call owed; and a next input goes
    behind it exactly when, taken, it leaves nothing owed.
   */
  lemma AnyLives(s: Session, base: seq<Message>, legs: seq<Leg>, next: Message)
    ensures var (ms, segments) := Lived(s, base, legs);
            var owed := OwedByAll(Owed(base), segments);
            && ms == base + AllMessages(segments)
            && (WellFormed(ms) <==> owed == Some([]))
            && (WellFormed(Sanitize(s.note, ms)) <==> owed.Some? && Fresh(owed.value, ms))
            && (WellFormed(Sanitize(s.note, ms)) ==> Sanitize(s.note, ms) == ms + Interruptions(s.note, owed.value))
            && (WellFormed(ms + [next]) <==> Take(owed, next) == Some([]))
  {
    hide Lived, WellFormed, Sanitize, Fresh, Interruptions, OwedByAll, Owed, Take;
    LegsOwe(s, base, legs);
    var ms := Lived(s, base, legs).0;
    WellFormedIffNothingOwed(ms);
    SanitizeMendsIff(s.note, ms);
    InputTaken(ms, [next]);
    WellFormedIffNothingOwed(ms + [next]);
  }

  // ---- Nothing makes a spoiled conversation good ---------------------------------------------------------

  /** The turn says something although calls are still owed, or what it is given does not fit. */
  predicate Spoils(owed: Option<seq<Call>>, g: Segment) {
    owed.Some? && OwedBy(owed, g).None?
  }

  lemma {:induction false} NoneStays(segments: seq<Segment>)
    ensures OwedByAll(None, segments) == None
  {
    if segments != [] {
      NoneStays(segments[1..]);
    }
  }

  lemma {:induction false} OwedByMore(owed: Option<seq<Call>>, x: seq<Segment>, y: seq<Segment>)
    ensures OwedByAll(owed, x + y) == OwedByAll(OwedByAll(owed, x), y)
    decreases x
  {
    hide OwedBy;
    if x == [] {
      assert x + y == y;
    } else {
      assert (x + y)[0] == x[0] && (x + y)[1..] == x[1..] + y;
      OwedByMore(OwedBy(owed, x[0]), x[1..], y);
    }
  }

  /**
    Everything fitted exactly when no turn spoiled it, and a turn that did is never forgiven,
    however many lives follow.
   */
  lemma {:induction false} SpoiledIff(owed: Option<seq<Call>>, segments: seq<Segment>)
    requires owed.Some?
    ensures OwedByAll(owed, segments).None? <==>
            exists i :: 0 <= i < |segments| && Spoils(OwedByAll(owed, segments[..i]), segments[i])
    decreases segments
  {
    hide OwedBy;
    if segments != [] {
      var n := |segments| - 1;
      var front, last := segments[..n], segments[n];
      assert segments == front + [last];
      OwedByMore(owed, front, [last]);
      OwedByJust(OwedByAll(owed, front), last);
      SpoiledIff(owed, front);
      assert forall i :: 0 <= i <= n ==> front[..i] == segments[..i];
      if OwedByAll(owed, front).None? {
        var i :| 0 <= i < n && Spoils(OwedByAll(owed, front[..i]), front[i]);
        assert Spoils(OwedByAll(owed, segments[..i]), segments[i]);
      } else if OwedByAll(owed, segments).None? {
        assert Spoils(OwedByAll(owed, segments[..n]), segments[n]);
      } else {
        forall i | 0 <= i < |segments| ensures !Spoils(OwedByAll(owed, segments[..i]), segments[i]) {
          if i < n {
            assert !Spoils(OwedByAll(owed, front[..i]), front[i]);
          }
        }
      }
    }
  }

  lemma OwedByJust(owed: Option<seq<Call>>, g: Segment)
    ensures OwedByAll(owed, [g]) == OwedBy(owed, g)
    ensures OwedBy(None, g) == None
  {
    assert [g][1..] == [];
  }

  // ---- Turn after turn of one life ------------------------------------------------------------------------

  /** A turn that a life of the session begins, and what it meets. */
  datatype Asked = Asked(input: Message, ws: nat -> World)

  /** The conversation after the turns, all their events journaled, and the turns themselves. */
  function Converse(s: Session, base: seq<Message>, turns: seq<Asked>): (seq<Message>, seq<Turn>) {
    if turns == [] then (base, [])
    else
      var n := |turns| - 1;
      var (history, done) := Converse(s, base, turns[..n]);
      var turn := TurnFrom(s, history, turns[n].input, turns[n].ws);
      (FoldEvents(history, JournalOf(turns[n].input, turn.runs)), done + [turn])
  }

  /**
    The turns of a life are those its handler starts: each from the conversation so far, its
    input persisted first.
   */
  lemma ConverseFollowsTheHandler(
      s: Session, base: seq<Message>, turns: seq<Asked>, p: A.Params, c: A.Command, ws: nat -> World)
    requires A.TurnStarted(Converse(s, base, turns).0, c).Some?
    ensures var (messages, done) := Converse(s, base, turns);
            var (history, input) := A.TurnStarted(messages, c).value;
            var turn := TurnFrom(s, history, input, ws);
            && A.EffectOf(p, c).Persist?
            && Converse(s, base, turns + [Asked(input, ws)]) ==
               (FoldEvents(messages, A.EffectOf(p, c).events + CoarseAll(EventsOf(turn.runs))), done + [turn])
  {
    hide TurnFrom, CoarseAll, EventsOf, FoldEvents;
    var messages := Converse(s, base, turns).0;
    A.CommandsContinueTheConversation(p, messages, c);
    var input := A.TurnStarted(messages, c).value.1;
    assert (turns + [Asked(input, ws)])[..|turns|] == turns;
  }

  /** No round but the last was nudged or rejected, and no call is left open. */
  predicate Settled(turn: Turn) {
    var rounds := RoundsOf(turn.runs);
    var q := |JournaledOf(rounds)|;
    Mended(Earlier(rounds, q)) && Open(rounds, q) == []
  }

  /**
    The turn leads to the input after it: to a user's if settled, to an answer if it is the
    one that the pause waits for.
   */
  predicate Leads(turn: Turn, next: Message) {
    if next.role.Tool? then
      var rounds := RoundsOf(turn.runs);
      && turn.outcome.TurnConcluded? && rounds != [] && Mended(rounds[..|rounds| - 1])
      && turn.outcome.callId.Some? && Answers(next, turn.outcome.callId.value)
    else Settled(turn)
  }

  /** A user's input, or an answer to a turn that concluded. */
  predicate InTurn(done: seq<Turn>, i: nat, input: Message)
    requires i <= |done|
  {
    input.role.User? || (input.role.Tool? && (i == 0 || done[i - 1].outcome.TurnConcluded?))
  }

  lemma WholeTurn(s: Session, history: seq<Message>, input: Message, ws: nat -> World)
    ensures var turn := TurnFrom(s, history, input, ws);
            && RoundsOfTurn(RoundsOf(turn.runs))
            && FoldEvents(history, JournalOf(input, turn.runs)) ==
               history + [input] + JournaledOf(RoundsOf(turn.runs))
  {
    hide RunWithRetries, FoldEvents, JournalOf, RoundsOf, JournaledOf, RoundsOfTurn, AreAttempts;
    JournalAcrossRetries(s.cfg, s.specs, s.compiles, ws, history, input, s.maxRetries);
    TurnSpeaks(s.cfg, s.specs, s.compiles, ws, history, input, s.maxRetries);
  }

  /** A concluded turn leaves one call open, the one it reports. */
  lemma ConclusionIsOpen(s: Session, history: seq<Message>, input: Message, ws: nat -> World)
    requires TurnFrom(s, history, input, ws).outcome.TurnConcluded?
    ensures var turn := TurnFrom(s, history, input, ws);
            var rounds := RoundsOf(turn.runs);
            var q := |JournaledOf(rounds)|;
            && q > 0 && rounds != [] && Earlier(rounds, q) == rounds[..|rounds| - 1]
            && |Open(rounds, q)| == 1 && turn.outcome.callId == Some(Open(rounds, q)[0].id)
  {
    hide Attempts, CallsOf, RoundsOf, Journaled;
    var turn := TurnFrom(s, history, input, ws);
    var cfg := Build(s.cfg, s.specs, s.compiles).value;
    ConcludedTurn(cfg, ws, history, input, s.maxRetries, 0);
    PausedRound(cfg, ws, history, input, s.maxRetries, 0);
    LastRoundOfTurn(turn.runs);
    var rounds := RoundsOf(turn.runs);
    var n := |rounds| - 1;
    assert JournaledOf(rounds) == JournaledOf(rounds[..n]) + [rounds[n].message];
    assert CallsOf(rounds[n].message)[0..] == CallsOf(rounds[n].message);
  }

  /** A user's input goes behind any well-formed conversation, and behind no other. */
  lemma InputFits(history: seq<Message>, input: Message)
    requires input.role.User?
    ensures WellFormed(history + [input]) <==> WellFormed(history)
  {
    hide WellFormed;
    WellFormedUser(input);
    WellFormedSplit(history, input, []);
    assert [input] + [] == [input];
  }

  /** One turn: the next input fits exactly when the turn's own did and the turn leads to it. */
  lemma TurnLeads(s: Session, history: seq<Message>, input: Message, ws: nat -> World, next: Message)
    requires var turn := TurnFrom(s, history, input, ws);
             next.role.User? || (next.role.Tool? && turn.outcome.TurnConcluded?)
    ensures var turn := TurnFrom(s, history, input, ws);
            WellFormed(FoldEvents(history, JournalOf(input, turn.runs)) + [next]) <==>
            WellFormed(history + [input]) && Leads(turn, next)
  {
    hide TurnFrom, FoldEvents, JournalOf, RoundsOf, JournaledOf, RoundsOfTurn;
    hide WellFormed, Mended, Earlier, Open, Answers;
    var turn := TurnFrom(s, history, input, ws);
    var rounds := RoundsOf(turn.runs);
    var whole := JournaledOf(rounds);
    WholeTurn(s, history, input, ws);
    assert whole[..|whole|] == whole;
    if next.role.User? {
      NeedsNoRepairIff(history + [input], rounds, |whole|);
      InputFits(history + [input] + whole, next);
    } else {
      ConclusionIsOpen(s, history, input, ws);
      RoundsOwe(history + [input], rounds, |whole|);
      var ms := history + [input] + whole;
      InputTaken(ms, [next]);
      WellFormedIffNothingOwed(ms + [next]);
      TakesLast(Open(rounds, |whole|), next);
    }
  }

  lemma TakesLast(calls: seq<Call>, m: Message)
    requires |calls| == 1
    ensures Take(Some(calls), m) == Some([]) <==> Answers(m, calls[0].id)
    ensures Take(None, m) == None
  {
    hide Answers;
    assert calls[1..] == [];
  }

  ghost predicate Leading(done: seq<Turn>, turns: seq<Asked>, next: Message)
    requires |done| == |turns|
  {
    forall i :: 0 <= i < |turns| ==> Leads(done[i], if i + 1 < |turns| then turns[i + 1].input else next)
  }

  ghost predicate Following(done: seq<Turn>, turns: seq<Asked>)
    requires |done| == |turns|
  {
    forall i :: 0 <= i < |turns| ==> InTurn(done, i, turns[i].input)
  }

  lemma LeadingOneMore(done: seq<Turn>, turn: Turn, turns: seq<Asked>, next: Message)
    requires |turns| == |done| + 1
    ensures Leading(done + [turn], turns, next) <==>
            Leading(done, turns[..|done|], turns[|done|].input) && Leads(turn, next)
  {
    hide Leads;
    var n, all, front := |done|, done + [turn], turns[..|done|];
    if Leading(done, front, turns[n].input) && Leads(turn, next) {
      forall i | 0 <= i < |turns| ensures Leads(all[i], if i + 1 < |turns| then turns[i + 1].input else next) {
        if i < n {
          assert Leads(done[i], if i + 1 < n then front[i + 1].input else turns[n].input);
        }
      }
    }
    if Leading(all, turns, next) {
      forall i | 0 <= i < n ensures Leads(done[i], if i + 1 < n then front[i + 1].input else turns[n].input) {
        assert Leads(all[i], if i + 1 < |turns| then turns[i + 1].input else next);
      }
      assert Leads(all[n], next);
    }
  }

  lemma FollowingOneMore(done: seq<Turn>, turn: Turn, turns: seq<Asked>)
    requires |turns| == |done| + 1 && Following(done + [turn], turns)
    ensures Following(done, turns[..|done|]) && InTurn(done, |done|, turns[|done|].input)
  {
    var n, all := |done|, done + [turn];
    assert InTurn(all, n, turns[n].input);
    forall i | 0 <= i < n ensures InTurn(done, i, turns[..n][i].input) {
      assert InTurn(all, i, turns[i].input);
    }
  }

  /** The first input fits, and every turn leads to the input after it. */
  ghost predicate AllLead(s: Session, base: seq<Message>, turns: seq<Asked>, next: Message) {
    var done := Converse(s, base, turns).1;
    && |done| == |turns|
    && WellFormed(base + [if turns == [] then next else turns[0].input])
    && Leading(done, turns, next)
  }

  /** Every input is a user's or the answer to a turn that concluded. */
  ghost predicate AllInTurn(s: Session, base: seq<Message>, turns: seq<Asked>, next: Message) {
    var done := Converse(s, base, turns).1;
    |done| == |turns| && InTurn(done, |turns|, next) && Following(done, turns)
  }

  lemma {:induction false} OneTurnEach(s: Session, base: seq<Message>, turns: seq<Asked>)
    ensures |Converse(s, base, turns).1| == |turns|
  {
    hide TurnFrom, FoldEvents;
    if turns != [] {
      OneTurnEach(s, base, turns[..|turns| - 1]);
    }
  }

  /** The same of the turns but the last, which leads to `next`. */
  lemma LeadOneMore(s: Session, base: seq<Message>, turns: seq<Asked>, next: Message)
    requires turns != []
    ensures var n := |turns| - 1;
            var (history, done) := Converse(s, base, turns[..n]);
            var turn := TurnFrom(s, history, turns[n].input, turns[n].ws);
            && (AllLead(s, base, turns, next) <==> AllLead(s, base, turns[..n], turns[n].input) && Leads(turn, next))
            && (AllInTurn(s, base, turns, next) ==> AllInTurn(s, base, turns[..n], turns[n].input))
            && Converse(s, base, turns) ==
               (FoldEvents(history, JournalOf(turns[n].input, turn.runs)), done + [turn])
            && |done| == n
  {
    hide TurnFrom, FoldEvents, Leads, WellFormed, JournalOf, InTurn, Leading, Following;
    var n := |turns| - 1;
    var (history, done) := Converse(s, base, turns[..n]);
    var turn := TurnFrom(s, history, turns[n].input, turns[n].ws);
    OneTurnEach(s, base, turns[..n]);
    LeadingOneMore(done, turn, turns, next);
    if Following(done + [turn], turns) {
      FollowingOneMore(done, turn, turns);
    }
  }

  /**
    Any turns of a life, each begun by a user's input or by the answer to a pause, with the
    conversation as it then stands: the next input goes behind it exactly when the first did
    and every turn led to the input after it.
   */
  lemma {:induction false} TurnsLeadOn(s: Session, base: seq<Message>, turns: seq<Asked>, next: Message)
    requires AllInTurn(s, base, turns, next)
    ensures WellFormed(Converse(s, base, turns).0 + [next]) <==> AllLead(s, base, turns, next)
  {
    hide TurnFrom, FoldEvents, JournalOf, WellFormed, Leads, Following;
    if turns == [] {
      assert Leading([], turns, next);
    } else {
      hide Leading;
      var n := |turns| - 1;
      LeadOneMore(s, base, turns, next);
      var (history, done) := Converse(s, base, turns[..n]);
      var turn := TurnFrom(s, history, turns[n].input, turns[n].ws);
      TurnsLeadOn(s, base, turns[..n], turns[n].input);
      assert (done + [turn])[n] == turn;
      TurnLeads(s, history, turns[n].input, turns[n].ws, next);
    }
  }

  // ---- What the provider is asked -----------------------------------------------------------------------

  /** After `n` rounds the run asks the provider: it is neither cancelled nor out of iterations. */
  predicate Asks(cfg: Config, w: World, history: seq<Message>, input: Message, n: nat) {
    var next := After(cfg, w, Start(history, input), n);
    next.Continue? && !w.cancelled(next.state.checks) && next.state.iteration < cfg.maxIterations
  }

  /** Every conversation that the run asks the provider with is well formed. */
  ghost predicate AsksWell(cfg: Config, w: World, history: seq<Message>, input: Message) {
    forall n: nat :: Asks(cfg, w, history, input, n) ==>
                       WellFormed(After(cfg, w, Start(history, input), n).state.history)
  }

  lemma {:induction false} NotAskedNeverAsks(cfg: Config, w: World, history: seq<Message>, input: Message, n: nat)
    requires !Asks(cfg, w, history, input, 0)
    ensures !Asks(cfg, w, history, input, n) && (n > 0 ==> After(cfg, w, Start(history, input), n).Halt?)
  {
    hide Judge, Advance, Calls, OutcomeOf, EndsRun, CallEvents;
    if n > 0 {
      NotAskedNeverAsks(cfg, w, history, input, n - 1);
    }
  }

  lemma FirstHistory(cfg: Config, w: World, history: seq<Message>, input: Message)
    ensures After(cfg, w, Start(history, input), 0) == Continue(Start(history, input))
    ensures Start(history, input).history == history + [input]
  {
  }

  /** A run asks well exactly when its input goes behind its history, or when it asks nobody. */
  lemma AsksWellIff(cfg: Config, w: World, history: seq<Message>, input: Message)
    ensures AsksWell(cfg, w, history, input) <==>
            WellFormed(history + [input]) || !Asks(cfg, w, history, input, 0)
  {
    hide WellFormed, After;
    FirstHistory(cfg, w, history, input);
    if WellFormed(history + [input]) {
      forall n: nat | Asks(cfg, w, history, input, n)
        ensures WellFormed(After(cfg, w, Start(history, input), n).state.history)
      {
        RequestsWellFormed(cfg, w, history, input, n);
      }
    } else if Asks(cfg, w, history, input, 0) {
      assert !WellFormed(After(cfg, w, Start(history, input), 0).state.history);
    } else {
      forall n: nat ensures !Asks(cfg, w, history, input, n) {
        NotAskedNeverAsks(cfg, w, history, input, n);
      }
    }
  }

  /**
    After any turns of a life the next one, if it asks the provider at all, asks with
    well-formed conversations only, exactly when the first input fitted and every turn led to
    the input after it: nothing sanitizes between turns, so one nudged or rejected round, or
    one call left open that the next input does not answer, spoils every later turn.
   */
  lemma NextTurnAsksWellIff(s: Session, base: seq<Message>, turns: seq<Asked>, w: World, next: Message)
    requires AllInTurn(s, base, turns, next)
    ensures var history := Converse(s, base, turns).0;
            AsksWell(s.cfg, w, history, next) <==>
            AllLead(s, base, turns, next) || !Asks(s.cfg, w, history, next, 0)
  {
    hide AsksWell, Asks, AllLead, Converse, WellFormed;
    TurnsLeadOn(s, base, turns, next);
    AsksWellIff(s.cfg, w, Converse(s, base, turns).0, next);
  }
}
