/**
  A session with any number of turns in flight. Nothing refuses a second one, so each turn
  has its own run, channel and forwarder, and they share the mailbox and the session. Every
  turn, seen by itself, is a run of the pipeline.
 */
module Turns {
  import opened Common
  import opened AgentEvents
  import P = Pipeline

  /**
    How a turn is going to go: what its run emits, what the session journals when it takes the
    report, and whether it then stops.
   */
  datatype Plan = Plan(emits: seq<DomainEvent>, closing: Option<DomainEvent>, stops: bool)

  /**
    One turn: what it journals if all goes well, `whole`, where its run, channel and
    forwarder stand, and whether its report has been taken.
   */
  datatype Lane = Lane(
    whole: seq<DomainEvent>,
    todo: seq<DomainEvent>,
    closing: Option<DomainEvent>,
    stops: bool,
    runner: P.Runner,
    channel: seq<DomainEvent>,
    forwarder: P.Forwarder,
    over: bool)

  /** A letter that begins a turn carries its input and how it is going to go. */
  datatype Letter =
    | Progress(turn: nat, event: DomainEvent)
    | Report(turn: nat)
    | Begin(input: DomainEvent, plan: Plan)
    | Other

  /**
    `writing` is the input the session is about to persist, `running` what it believes of
    itself; once it has `stopped` it takes no letter any more.
   */
  datatype Sys = Sys(
    lanes: seq<Lane>,
    mailbox: seq<Letter>,
    writing: Option<(nat, DomainEvent)>,
    running: bool,
    stopped: bool,
    journal: seq<DomainEvent>,
    handled: seq<(nat, DomainEvent)>,
    kept: seq<bool>)

  function NewLane(first: seq<DomainEvent>, plan: Plan): Lane {
    Lane(P.Whole(first, plan.emits, plan.closing), plan.emits, plan.closing, plan.stops,
         P.Emitting, [], P.Waiting, false)
  }

  /** A session that starts empty, or one that recovery sets going. */
  function Opening(recovered: Option<Plan>): Sys {
    match recovered
    case None => Sys([], [], None, false, false, [], [], [])
    case Some(plan) => Sys([NewLane([], plan)], [], None, true, false, [], [], [])
  }

  datatype Step =
    | Post(letter: Letter)
    | Move(turn: nat, step: P.Step)
    | PersistInput(ok: bool)
    | Handle(ok: bool)

  predicate HasRoom(sys: Sys) {
    |sys.mailbox| < P.CAPACITY
  }

  predicate Enabled(sys: Sys, step: Step) {
    match step
    case Post(letter) => HasRoom(sys) && (letter.Begin? || letter.Other?)
    case Move(t, p) =>
      && t < |sys.lanes|
      && (p.Emit? || p.Close? || p.Receive? || p.Tell? || p.EndForwarding? || p.Report?)
      && P.Enabled(Seen(sys, t), p)
    case PersistInput(_) => sys.writing.Some?
    case Handle(_) => !sys.stopped && sys.writing.None? && sys.mailbox != []
  }

  function Tried(sys: Sys, t: nat, event: DomainEvent, ok: bool): Sys {
    sys.(journal := if ok then sys.journal + [event] else sys.journal,
         handled := sys.handled + [(t, event)],
         kept := sys.kept + [ok])
  }

  /** The letter a turn posts by a step of its own. */
  function Posted(lane: Lane, t: nat, p: P.Step): seq<Letter> {
    if p.Tell? && lane.forwarder.Holding? then [Progress(t, lane.forwarder.event)]
    else if p.Report? then [Report(t)]
    else []
  }

  function Moved(sys: Sys, t: nat, p: P.Step): Sys
    requires Enabled(sys, Move(t, p))
  {
    var lane := sys.lanes[t];
    var after := P.Apply(Seen(sys, t), p);
    sys.(lanes := sys.lanes[t := lane.(todo := after.todo, runner := after.runner,
                                       channel := after.channel, forwarder := after.forwarder)],
         mailbox := sys.mailbox + Posted(lane, t, p))
  }

  /** The report of the turn `t` is taken. */
  function Taken(sys: Sys, t: nat, ok: bool): Sys
    requires t < |sys.lanes|
  {
    var lane := sys.lanes[t];
    var closed := if lane.closing.Some? then Tried(sys, t, lane.closing.value, ok) else sys;
    closed.(running := false, stopped := lane.stops, lanes := sys.lanes[t := lane.(over := true)])
  }

  function Apply(sys: Sys, step: Step): Sys
    requires Enabled(sys, step)
  {
    match step
    case Post(letter) => sys.(mailbox := sys.mailbox + [letter])
    case Move(t, p) => Moved(sys, t, p)
    case PersistInput(ok) => Tried(sys, sys.writing.value.0, sys.writing.value.1, ok).(writing := None)
    case Handle(ok) =>
      var rest := sys.(mailbox := sys.mailbox[1..]);
      match sys.mailbox[0]
      case Progress(t, event) => Tried(rest, t, event, ok)
      case Report(t) => if t < |sys.lanes| then Taken(rest, t, ok) else rest
      case Begin(input, plan) =>
        rest.(running := true, lanes := sys.lanes + [NewLane([input], plan)],
              writing := Some((|sys.lanes|, input)))
      case Other => rest
  }

  function Next(sys: Sys, step: Step): Sys {
    if Enabled(sys, step) then Apply(sys, step) else sys
  }

  function Exec(sys: Sys, steps: seq<Step>): Sys {
    if steps == [] then sys else Next(Exec(sys, steps[..|steps| - 1]), steps[|steps| - 1])
  }

  // ---- One turn seen by itself -----------------------------------------------------------------

  /** How a letter looks to the turn `t`. */
  function SeenLetter(l: Letter, t: nat): P.Command {
    match l
    case Progress(u, event) => if u == t then P.Progress(event) else P.Foreign
    case Report(u) => if u == t then P.Finished else P.Foreign
    case _ => P.Foreign
  }

  function SeenMailbox(mailbox: seq<Letter>, t: nat): seq<P.Command> {
    if mailbox == [] then [] else [SeenLetter(mailbox[0], t)] + SeenMailbox(mailbox[1..], t)
  }

  /** Those of the events tried that are the turn's, and which of them were kept. */
  function Of(handled: seq<(nat, DomainEvent)>, t: nat): seq<DomainEvent> {
    if handled == [] then []
    else
      var last := handled[|handled| - 1];
      Of(handled[..|handled| - 1], t) + if last.0 == t then [last.1] else []
  }

  function KeptOf(handled: seq<(nat, DomainEvent)>, kept: seq<bool>, t: nat): (r: seq<bool>)
    requires |handled| == |kept|
    ensures |r| == |Of(handled, t)|
  {
    if handled == [] then []
    else
      var n := |handled| - 1;
      KeptOf(handled[..n], kept[..n], t) + if handled[n].0 == t then [kept[n]] else []
  }

  function Input(sys: Sys, t: nat): seq<DomainEvent> {
    if sys.writing.Some? && sys.writing.value.0 == t then [sys.writing.value.1] else []
  }

  /** The pipeline of the turn `t`, in which the other turns' letters are foreign. */
  function Seen(sys: Sys, t: nat): P.Pipes
    requires t < |sys.lanes|
  {
    var lane, events := sys.lanes[t], Of(sys.handled, t);
    var kept := if |sys.kept| == |sys.handled| then KeptOf(sys.handled, sys.kept, t) else [];
    P.Pipes(Input(sys, t), lane.todo, lane.closing, lane.runner, lane.channel, lane.forwarder,
            SeenMailbox(sys.mailbox, t),
            if |kept| == |events| then P.Kept(events, kept) else [], events, kept, if lane.over then 1 else 0)
  }

  lemma {:induction false} SeenMailboxGrows(mailbox: seq<Letter>, l: Letter, t: nat)
    ensures SeenMailbox(mailbox + [l], t) == SeenMailbox(mailbox, t) + [SeenLetter(l, t)]
    ensures |SeenMailbox(mailbox, t)| == |mailbox|
  {
    hide SeenLetter;
    if mailbox == [] {
      assert mailbox + [l] == [l] && [l][1..] == [];
    } else {
      assert (mailbox + [l])[0] == mailbox[0] && (mailbox + [l])[1..] == mailbox[1..] + [l];
      SeenMailboxGrows(mailbox[1..], l, t);
      Assoc([SeenLetter(mailbox[0], t)], SeenMailbox(mailbox[1..], t), [SeenLetter(l, t)]);
    }
  }

  lemma OfOneMore(handled: seq<(nat, DomainEvent)>, kept: seq<bool>, u: nat, event: DomainEvent, ok: bool, t: nat)
    requires |handled| == |kept|
    ensures Of(handled + [(u, event)], t) == Of(handled, t) + if u == t then [event] else []
    ensures KeptOf(handled + [(u, event)], kept + [ok], t) == KeptOf(handled, kept, t) + if u == t then [ok] else []
  {
    assert (handled + [(u, event)])[..|handled|] == handled && (kept + [ok])[..|kept|] == kept;
  }

  // ---- The invariant ---------------------------------------------------------------------------

  predicate Known(l: Letter, n: nat) {
    (l.Progress? || l.Report?) ==> l.turn < n
  }

  function Untagged(handled: seq<(nat, DomainEvent)>): (r: seq<DomainEvent>)
    ensures |r| == |handled|
  {
    if handled == [] then [] else Untagged(handled[..|handled| - 1]) + [handled[|handled| - 1].1]
  }

  /** The parts of the state that the turns share fit together. */
  ghost predicate Shared(sys: Sys) {
    && |sys.kept| == |sys.handled|
    && sys.journal == P.Kept(Untagged(sys.handled), sys.kept)
    && (forall i :: 0 <= i < |sys.mailbox| ==> Known(sys.mailbox[i], |sys.lanes|))
    && (forall i :: 0 <= i < |sys.handled| ==> sys.handled[i].0 < |sys.lanes|)
    && (sys.writing.Some? ==> sys.writing.value.0 < |sys.lanes|)
  }

  ghost predicate InOrder(sys: Sys, t: nat)
    requires t < |sys.lanes|
  {
    P.Ordered(Seen(sys, t), sys.lanes[t].whole)
  }

  ghost predicate Sound(sys: Sys) {
    Shared(sys) && forall t: nat :: t < |sys.lanes| ==> InOrder(sys, t)
  }

  /** An event tried is tried for its own turn and for no other. */
  lemma TriedIsSeen(sys: Sys, u: nat, event: DomainEvent, ok: bool, t: nat)
    requires |sys.kept| == |sys.handled| && t < |sys.lanes|
    ensures Seen(Tried(sys, u, event, ok), t) ==
            if u == t then P.Persist(Seen(sys, t), event, ok) else Seen(sys, t)
  {
    hide P.Kept, SeenMailbox, KeptOf, Of;
    var events, kept := Of(sys.handled, t), KeptOf(sys.handled, sys.kept, t);
    OfOneMore(sys.handled, sys.kept, u, event, ok, t);
    if u == t {
      P.PersistKeeps(events, kept, event, ok);
    } else {
      assert events + [] == events && kept + [] == kept;
    }
  }

  /** To the turn `t`, going from `sys` to `sys'` is the step `p` of its pipeline. */
  ghost predicate Sees(sys: Sys, sys': Sys, t: nat, p: P.Step) {
    && t < |sys.lanes| && t < |sys'.lanes|
    && sys'.lanes[t].whole == sys.lanes[t].whole
    && P.Enabled(Seen(sys, t), p)
    && Seen(sys', t) == P.Apply(Seen(sys, t), p)
  }

  /** To the turn `t`, nothing happens. */
  ghost predicate SeesNothing(sys: Sys, sys': Sys, t: nat) {
    && t < |sys.lanes| && t < |sys'.lanes|
    && sys'.lanes[t].whole == sys.lanes[t].whole
    && Seen(sys', t) == Seen(sys, t)
  }

  lemma SeenHead(mailbox: seq<Letter>, t: nat)
    requires mailbox != []
    ensures SeenMailbox(mailbox, t) == [SeenLetter(mailbox[0], t)] + SeenMailbox(mailbox[1..], t)
    ensures SeenMailbox(mailbox, t)[0] == SeenLetter(mailbox[0], t)
    ensures SeenMailbox(mailbox, t)[1..] == SeenMailbox(mailbox[1..], t)
  {
    hide SeenLetter;
  }

  lemma HandleProgress(sys: Sys, ok: bool, t: nat)
    requires |sys.kept| == |sys.handled| && t < |sys.lanes|
    requires Enabled(sys, Handle(ok)) && sys.mailbox != [] && sys.mailbox[0].Progress?
    ensures Sees(sys, Apply(sys, Handle(ok)), t, P.Handle(ok))
  {
    hide P.Kept, KeptOf, Of, SeenMailbox;
    var l, rest := sys.mailbox[0], sys.(mailbox := sys.mailbox[1..]);
    SeenHead(sys.mailbox, t);
    TriedIsSeen(rest, l.turn, l.event, ok, t);
    assert Seen(rest, t) == Seen(sys, t).(mailbox := SeenMailbox(rest.mailbox, t));
  }

  /** A report in the mailbox is that of a turn still in flight. */
  lemma ReportedIsInFlight(sys: Sys, t: nat)
    requires t < |sys.lanes| && InOrder(sys, t) && sys.mailbox != [] && sys.mailbox[0] == Report(t)
    ensures !sys.lanes[t].over
  {
    hide P.Kept, KeptOf, Of, P.Pending, SeenMailbox;
    SeenHead(sys.mailbox, t);
    var seen := SeenMailbox(sys.mailbox, t);
    assert P.Reports(seen) == 1 + P.Reports(seen[1..]);
  }

  lemma HandleReport(sys: Sys, ok: bool, t: nat)
    requires Shared(sys) && t < |sys.lanes| && InOrder(sys, t)
    requires Enabled(sys, Handle(ok)) && sys.mailbox[0].Report?
    ensures Sees(sys, Apply(sys, Handle(ok)), t, P.Handle(ok))
  {
    hide P.Kept, KeptOf, Of, SeenMailbox, P.Ordered, Untagged;
    var u, rest := sys.mailbox[0].turn, sys.(mailbox := sys.mailbox[1..]);
    assert Known(sys.mailbox[0], |sys.lanes|);
    SeenHead(sys.mailbox, t);
    assert Seen(rest, t) == Seen(sys, t).(mailbox := SeenMailbox(rest.mailbox, t));
    TakenIsSeen(rest, u, ok, t);
    if u == t {
      ReportedIsInFlight(sys, t);
    }
  }

  /** A report taken closes its own turn and no other. */
  lemma TakenIsSeen(sys: Sys, u: nat, ok: bool, t: nat)
    requires |sys.kept| == |sys.handled| && t < |sys.lanes| && u < |sys.lanes|
    ensures var seen := Seen(sys, t);
            var closed := if seen.closing.Some? then P.Persist(seen, seen.closing.value, ok) else seen;
            Seen(Taken(sys, u, ok), t) == if u == t then closed.(finished := 1) else seen
  {
    hide P.Kept, KeptOf, Of, SeenMailbox;
    if sys.lanes[u].closing.Some? {
      TriedIsSeen(sys, u, sys.lanes[u].closing.value, ok, t);
    }
  }

  lemma HandleOther(sys: Sys, ok: bool, t: nat)
    requires t < |sys.lanes| && Enabled(sys, Handle(ok))
    requires sys.mailbox[0].Begin? || sys.mailbox[0].Other?
    ensures Sees(sys, Apply(sys, Handle(ok)), t, P.Handle(ok))
  {
    hide P.Kept, KeptOf, Of, SeenMailbox;
    SeenHead(sys.mailbox, t);
  }

  lemma MoveIsSeen(sys: Sys, p: P.Step, t: nat)
    requires Enabled(sys, Move(t, p))
    ensures Sees(sys, Apply(sys, Move(t, p)), t, p)
  {
    hide P.Kept, KeptOf, Of, SeenMailbox;
    var posted := Posted(sys.lanes[t], t, p);
    if posted == [] {
      assert sys.mailbox + [] == sys.mailbox;
    } else {
      SeenMailboxGrows(sys.mailbox, posted[0], t);
      assert posted == [posted[0]];
    }
  }

  lemma OtherMoveIsSeen(sys: Sys, u: nat, p: P.Step, t: nat)
    requires Enabled(sys, Move(u, p)) && t < |sys.lanes| && t != u
    ensures var sys' := Apply(sys, Move(u, p));
            if Posted(sys.lanes[u], u, p) == [] then SeesNothing(sys, sys', t) else Sees(sys, sys', t, P.Intrude)
  {
    hide P.Kept, KeptOf, Of, SeenMailbox;
    var posted := Posted(sys.lanes[u], u, p);
    if posted == [] {
      assert sys.mailbox + [] == sys.mailbox;
    } else {
      SeenMailboxGrows(sys.mailbox, posted[0], t);
      SeenMailboxGrows(sys.mailbox, posted[0], u);
      assert posted == [posted[0]];
    }
  }

  lemma PostIsSeen(sys: Sys, letter: Letter, t: nat)
    requires Enabled(sys, Post(letter)) && t < |sys.lanes|
    ensures Sees(sys, Apply(sys, Post(letter)), t, P.Intrude)
  {
    hide P.Kept, KeptOf, Of, SeenMailbox;
    SeenMailboxGrows(sys.mailbox, letter, t);
  }

  lemma InputIsSeen(sys: Sys, ok: bool, t: nat)
    requires |sys.kept| == |sys.handled| && sys.writing.Some? && t < |sys.lanes|
    ensures var sys' := Apply(sys, PersistInput(ok));
            if sys.writing.value.0 == t then Sees(sys, sys', t, P.PersistFirst(ok)) else SeesNothing(sys, sys', t)
  {
    hide P.Kept, KeptOf, Of, SeenMailbox;
    var (u, event) := sys.writing.value;
    TriedIsSeen(sys, u, event, ok, t);
  }

  /** Whatever happens, a turn in order stays in order. */
  lemma StaysInOrder(sys: Sys, step: Step, t: nat)
    requires Sound(sys) && Enabled(sys, step) && t < |sys.lanes|
    ensures t < |Apply(sys, step).lanes| && InOrder(Apply(sys, step), t)
  {
    hide Seen, P.Apply, P.Enabled, P.Ordered, SeenMailbox, Apply;
    assert InOrder(sys, t);
    var sys', whole := Apply(sys, step), sys.lanes[t].whole;
    var seen: P.Step := P.Intrude;
    match step {
      case Post(letter) => PostIsSeen(sys, letter, t);
      case Move(u, p) =>
        if u == t {
          MoveIsSeen(sys, p, t);
          seen := p;
        } else {
          OtherMoveIsSeen(sys, u, p, t);
        }
      case PersistInput(ok) =>
        InputIsSeen(sys, ok, t);
        seen := P.PersistFirst(ok);
      case Handle(ok) =>
        seen := P.Handle(ok);
        if sys.mailbox[0].Progress? {
          HandleProgress(sys, ok, t);
        } else if sys.mailbox[0].Report? {
          HandleReport(sys, ok, t);
        } else {
          HandleOther(sys, ok, t);
        }
    }
    if !SeesNothing(sys, sys', t) {
      P.StepKeepsOrder(Seen(sys, t), whole, seen);
    }
  }

  // ---- Every reachable state -----------------------------------------------------------------------

  lemma UntaggedOneMore(handled: seq<(nat, DomainEvent)>, kept: seq<bool>, t: nat, event: DomainEvent, ok: bool)
    requires |handled| == |kept|
    ensures P.Kept(Untagged(handled + [(t, event)]), kept + [ok]) ==
            P.Kept(Untagged(handled), kept) + if ok then [event] else []
  {
    assert (handled + [(t, event)])[..|handled|] == handled;
    P.PersistKeeps(Untagged(handled), kept, event, ok);
  }

  lemma TriedShared(sys: Sys, t: nat, event: DomainEvent, ok: bool)
    requires Shared(sys) && t < |sys.lanes|
    ensures Shared(Tried(sys, t, event, ok))
  {
    hide P.Kept, Untagged;
    UntaggedOneMore(sys.handled, sys.kept, t, event, ok);
  }

  lemma TakenShared(sys: Sys, t: nat, ok: bool)
    requires Shared(sys) && t < |sys.lanes|
    ensures Shared(Taken(sys, t, ok))
  {
    hide P.Kept, Untagged;
    if sys.lanes[t].closing.Some? {
      TriedShared(sys, t, sys.lanes[t].closing.value, ok);
    }
  }

  lemma HandleShared(sys: Sys, ok: bool)
    requires Shared(sys) && Enabled(sys, Handle(ok))
    ensures Shared(Apply(sys, Handle(ok)))
  {
    hide P.Kept, Untagged, Tried, Taken;
    var l, rest := sys.mailbox[0], sys.(mailbox := sys.mailbox[1..]);
    assert Known(l, |sys.lanes|);
    if l.Progress? {
      TriedShared(rest, l.turn, l.event, ok);
    } else if l.Report? {
      TakenShared(rest, l.turn, ok);
    }
  }

  lemma SharedKept(sys: Sys, step: Step)
    requires Shared(sys) && Enabled(sys, step)
    ensures Shared(Apply(sys, step))
  {
    hide P.Kept, Seen, P.Apply, P.Enabled, Untagged, Tried;
    match step {
      case Handle(ok) => HandleShared(sys, ok);
      case PersistInput(ok) => TriedShared(sys, sys.writing.value.0, sys.writing.value.1, ok);
      case _ =>
    }
  }

  lemma {:induction false} NothingYet(handled: seq<(nat, DomainEvent)>, t: nat)
    requires forall i :: 0 <= i < |handled| ==> handled[i].0 < t
    ensures Of(handled, t) == []
  {
    if handled != [] {
      NothingYet(handled[..|handled| - 1], t);
    }
  }

  lemma {:induction false} AllForeign(mailbox: seq<Letter>, t: nat)
    requires forall i :: 0 <= i < |mailbox| ==> Known(mailbox[i], t)
    ensures P.InMailbox(SeenMailbox(mailbox, t)) == [] && P.Reports(SeenMailbox(mailbox, t)) == 0
    ensures P.ReportIsLast(SeenMailbox(mailbox, t))
  {
    if mailbox != [] {
      assert Known(mailbox[0], t);
      AllForeign(mailbox[1..], t);
      assert [] + P.InMailbox(SeenMailbox(mailbox[1..], t)) == P.InMailbox(SeenMailbox(mailbox[1..], t));
    }
  }

  /** A turn that has just begun has everything before it. */
  lemma NewTurnInOrder(sys: Sys, t: nat, first: seq<DomainEvent>, plan: Plan)
    requires |sys.kept| == |sys.handled| && t < |sys.lanes|
    requires sys.lanes[t] == NewLane(first, plan) && Input(sys, t) == first
    requires forall i :: 0 <= i < |sys.mailbox| ==> Known(sys.mailbox[i], t)
    requires forall i :: 0 <= i < |sys.handled| ==> sys.handled[i].0 < t
    ensures InOrder(sys, t)
  {
    hide SeenMailbox, P.InMailbox, P.Reports, P.ReportIsLast, Of, KeptOf, Input;
    NothingYet(sys.handled, t);
    AllForeign(sys.mailbox, t);
    var pipes := Seen(sys, t);
    assert pipes.handled == [] && pipes.kept == [];
    var rest := plan.emits + P.Listed(plan.closing);
    assert P.Pending(pipes) == first + rest by {
      assert [] + rest == rest;
    }
    assert [] + (first + rest) == first + rest;
  }

  lemma StepSound(sys: Sys, step: Step)
    requires Sound(sys) && Enabled(sys, step)
    ensures Sound(Apply(sys, step))
  {
    hide Shared, P.Ordered, Seen, Apply;
    var sys' := Apply(sys, step);
    SharedKept(sys, step);
    LanesGrow(sys, step);
    forall t: nat | t < |sys'.lanes| ensures InOrder(sys', t) {
      if t < |sys.lanes| {
        StaysInOrder(sys, step, t);
      } else {
        BeginsInOrder(sys, step);
      }
    }
  }

  lemma LanesGrow(sys: Sys, step: Step)
    requires Enabled(sys, step)
    ensures |Apply(sys, step).lanes| ==
            |sys.lanes| + if step.Handle? && sys.mailbox[0].Begin? then 1 else 0
  {
    hide Seen;
  }

  lemma BeginsInOrder(sys: Sys, step: Step)
    requires Shared(sys) && Enabled(sys, step) && step.Handle? && sys.mailbox[0].Begin?
    ensures InOrder(Apply(sys, step), |sys.lanes|)
  {
    hide InOrder, P.Kept;
    var l := sys.mailbox[0];
    NewTurnInOrder(Apply(sys, step), |sys.lanes|, [l.input], l.plan);
  }

  lemma OpeningSound(recovered: Option<Plan>)
    ensures Sound(Opening(recovered))
  {
    if recovered.Some? {
      NewTurnInOrder(Opening(recovered), 0, [], recovered.value);
    }
  }

  lemma {:induction false} ReachableSound(recovered: Option<Plan>, steps: seq<Step>)
    ensures Sound(Exec(Opening(recovered), steps))
  {
    hide Sound, Opening, Apply, Enabled;
    if steps == [] {
      OpeningSound(recovered);
    } else {
      ReachableSound(recovered, steps[..|steps| - 1]);
      var before := Exec(Opening(recovered), steps[..|steps| - 1]);
      if Enabled(before, steps[|steps| - 1]) {
        StepSound(before, steps[|steps| - 1]);
      }
    }
  }

  /**
    The journal is an order-preserving shuffle of the turns: it holds exactly the events
    whose persist succeeded, in the order they were tried; each was tried for one turn; and
    those tried for a turn are a prefix of its input, its emissions in emission order and, if
    it was cancelled, the closing event, and all of them once its report is taken.
   */
  lemma JournalIsAShuffle(recovered: Option<Plan>, steps: seq<Step>)
    ensures var sys := Exec(Opening(recovered), steps);
            && |sys.kept| == |sys.handled|
            && sys.journal == P.Kept(Untagged(sys.handled), sys.kept)
            && (forall i :: 0 <= i < |sys.handled| ==> sys.handled[i].0 < |sys.lanes|)
            && forall t: nat :: t < |sys.lanes| ==>
                 && Of(sys.handled, t) <= sys.lanes[t].whole
                 && (sys.lanes[t].over ==> Of(sys.handled, t) == sys.lanes[t].whole)
  {
    hide Exec, Opening;
    ReachableSound(recovered, steps);
    var sys := Exec(Opening(recovered), steps);
    forall t: nat | t < |sys.lanes|
      ensures Of(sys.handled, t) <= sys.lanes[t].whole
      ensures sys.lanes[t].over ==> Of(sys.handled, t) == sys.lanes[t].whole
    {
      OrderedMeans(sys, t);
    }
  }

  lemma OrderedMeans(sys: Sys, t: nat)
    requires t < |sys.lanes| && InOrder(sys, t)
    ensures Of(sys.handled, t) <= sys.lanes[t].whole
    ensures sys.lanes[t].over ==> Of(sys.handled, t) == sys.lanes[t].whole
  {
    hide P.Kept, KeptOf, SeenMailbox, Of;
    var events := Of(sys.handled, t);
    assert Seen(sys, t).handled == events;
    assert events + P.Pending(Seen(sys, t)) == sys.lanes[t].whole;
    if sys.lanes[t].over {
      assert events + [] == events;
    }
  }

  // ---- How many turns are in flight --------------------------------------------------------------------

  function InFlight(lanes: seq<Lane>): nat {
    if lanes == [] then 0 else InFlight(lanes[..|lanes| - 1]) + if lanes[|lanes| - 1].over then 0 else 1
  }

  /** The session takes a command that begins a turn while it believes one to be running. */
  predicate Overlaps(sys: Sys, step: Step) {
    step.Handle? && Enabled(sys, step) && sys.mailbox[0].Begin? && sys.running
  }

  lemma {:induction false} InFlightAfterUpdate(lanes: seq<Lane>, t: nat, lane: Lane)
    requires t < |lanes|
    ensures InFlight(lanes[t := lane]) ==
            InFlight(lanes) - (if lanes[t].over then 0 else 1) + (if lane.over then 0 else 1)
    ensures !lanes[t].over ==> InFlight(lanes) > 0
  {
    var n := |lanes| - 1;
    if t == n {
      assert lanes[t := lane][..n] == lanes[..n];
    } else {
      assert lanes[t := lane][..n] == lanes[..n][t := lane];
      InFlightAfterUpdate(lanes[..n], t, lane);
    }
  }

  /** What a step does to the number of turns in flight and to what the session believes. */
  lemma StepCounts(sys: Sys, step: Step)
    requires Sound(sys) && Enabled(sys, step)
    ensures var sys' := Apply(sys, step);
            if step.Handle? && sys.mailbox[0].Begin? then
              sys'.running && InFlight(sys'.lanes) == InFlight(sys.lanes) + 1
              && !sys'.lanes[|sys'.lanes| - 1].over
            else if step.Handle? && sys.mailbox[0].Report? then
              !sys'.running && InFlight(sys.lanes) == InFlight(sys'.lanes) + 1
            else
              && sys'.running == sys.running && InFlight(sys'.lanes) == InFlight(sys.lanes)
              && |sys'.lanes| == |sys.lanes|
              && forall t :: 0 <= t < |sys.lanes| ==> sys'.lanes[t].over == sys.lanes[t].over
  {
    hide Seen, P.Apply, P.Enabled, P.Kept, Untagged, P.Ordered;
    match step {
      case Move(t, p) => InFlightAfterUpdate(sys.lanes, t, Apply(sys, step).lanes[t]);
      case Handle(ok) =>
        var l := sys.mailbox[0];
        if l.Begin? {
          assert (sys.lanes + [NewLane([l.input], l.plan)])[..|sys.lanes|] == sys.lanes;
        } else if l.Report? {
          assert Known(l, |sys.lanes|) && InOrder(sys, l.turn);
          ReportedIsInFlight(sys, l.turn);
          InFlightAfterUpdate(sys.lanes, l.turn, sys.lanes[l.turn].(over := true));
        }
      case _ =>
    }
  }

  /** Believing a turn to be running, the session is right: the latest one is. */
  ghost predicate BeliefHolds(sys: Sys) {
    sys.running ==> sys.lanes != [] && !sys.lanes[|sys.lanes| - 1].over
  }

  lemma {:induction false} BeliefAlwaysHolds(recovered: Option<Plan>, steps: seq<Step>)
    ensures BeliefHolds(Exec(Opening(recovered), steps))
  {
    hide Sound, Apply, Enabled;
    if steps != [] {
      var before, step := Exec(Opening(recovered), steps[..|steps| - 1]), steps[|steps| - 1];
      BeliefAlwaysHolds(recovered, steps[..|steps| - 1]);
      ReachableSound(recovered, steps[..|steps| - 1]);
      if Enabled(before, step) {
        StepCounts(before, step);
      }
    }
  }

  lemma RunningIsInFlight(sys: Sys)
    requires BeliefHolds(sys) && sys.running
    ensures InFlight(sys.lanes) > 0
  {
  }

  /** No command that begins a turn is taken while one is believed to be running. */
  ghost predicate NeverOverlaps(recovered: Option<Plan>, steps: seq<Step>) {
    forall i :: 0 <= i < |steps| ==> !Overlaps(Exec(Opening(recovered), steps[..i]), steps[i])
  }

  lemma {:induction false} AtMostOneIf(recovered: Option<Plan>, steps: seq<Step>)
    requires NeverOverlaps(recovered, steps)
    ensures var sys := Exec(Opening(recovered), steps);
            InFlight(sys.lanes) == if sys.running then 1 else 0
  {
    hide Sound, Apply;
    if steps == [] {
      OpeningCounts(recovered);
    } else {
      var n := |steps| - 1;
      var front, step := steps[..n], steps[n];
      forall i | 0 <= i < n ensures !Overlaps(Exec(Opening(recovered), front[..i]), front[i]) {
        assert front[..i] == steps[..i] && !Overlaps(Exec(Opening(recovered), steps[..i]), steps[i]);
      }
      AtMostOneIf(recovered, front);
      ReachableSound(recovered, front);
      var before := Exec(Opening(recovered), front);
      assert !Overlaps(before, step);
      if Enabled(before, step) {
        StepCounts(before, step);
      }
    }
  }

  lemma OpeningCounts(recovered: Option<Plan>)
    ensures InFlight(Opening(recovered).lanes) == if Opening(recovered).running then 1 else 0
  {
    if recovered.Some? {
      assert Opening(recovered).lanes[..0] == [];
    }
  }

  /**
    At most one turn is ever in flight exactly when no command that begins one is taken while
    the session believes one to be running. `steps[..i]`, for all `i`, are the moments of one
    history.
   */
  lemma AtMostOneInFlightIff(recovered: Option<Plan>, steps: seq<Step>)
    ensures (forall i :: 0 <= i <= |steps| ==> InFlight(Exec(Opening(recovered), steps[..i]).lanes) <= 1) <==>
            NeverOverlaps(recovered, steps)
  {
    hide Sound, Apply, Opening, Exec, Overlaps;
    if NeverOverlaps(recovered, steps) {
      forall i | 0 <= i <= |steps| ensures InFlight(Exec(Opening(recovered), steps[..i]).lanes) <= 1 {
        ShorterNeverOverlaps(recovered, steps, i);
        AtMostOneIf(recovered, steps[..i]);
      }
    } else {
      var i :| 0 <= i < |steps| && Overlaps(Exec(Opening(recovered), steps[..i]), steps[i]);
      OverlapMakesTwo(recovered, steps, i);
      assert InFlight(Exec(Opening(recovered), steps[..i + 1]).lanes) > 1;
    }
  }

  lemma ShorterNeverOverlaps(recovered: Option<Plan>, steps: seq<Step>, n: nat)
    requires NeverOverlaps(recovered, steps) && n <= |steps|
    ensures NeverOverlaps(recovered, steps[..n])
  {
    hide Exec, Overlaps;
    var front := steps[..n];
    forall i | 0 <= i < n ensures !Overlaps(Exec(Opening(recovered), front[..i]), front[i]) {
      assert front[..i] == steps[..i] && !Overlaps(Exec(Opening(recovered), steps[..i]), steps[i]);
    }
  }

  lemma OverlapMakesTwo(recovered: Option<Plan>, steps: seq<Step>, i: nat)
    requires i < |steps| && Overlaps(Exec(Opening(recovered), steps[..i]), steps[i])
    ensures InFlight(Exec(Opening(recovered), steps[..i + 1]).lanes) >= 2
  {
    hide Sound, Apply, Opening;
    var before := Exec(Opening(recovered), steps[..i]);
    assert steps[..i + 1][..i] == steps[..i];
    ReachableSound(recovered, steps[..i]);
    BeliefAlwaysHolds(recovered, steps[..i]);
    RunningIsInFlight(before);
    StepCounts(before, steps[i]);
  }

  /** The session believes a turn to be running, and no report is going to be taken before `letter`. */
  predicate Doomed(sys: Sys, letter: Letter) {
    sys.running && exists j :: 0 <= j < |sys.mailbox| && AheadOfReports(sys.mailbox, letter, j)
  }

  predicate AheadOfReports(mailbox: seq<Letter>, letter: Letter, j: nat) {
    j < |mailbox| && mailbox[j] == letter && forall i :: 0 <= i < j ==> !mailbox[i].Report?
  }

  lemma DoomStays(sys: Sys, letter: Letter, step: Step)
    requires letter.Begin? && Doomed(sys, letter) && Enabled(sys, step) && !Overlaps(sys, step)
    ensures Doomed(Apply(sys, step), letter)
  {
    hide Seen, P.Apply, P.Enabled;
    var j :| 0 <= j < |sys.mailbox| && AheadOfReports(sys.mailbox, letter, j);
    if step.Handle? {
      assert j > 0;
      var next := j - 1;
      assert AheadOfReports(sys.mailbox[1..], letter, next);
    } else {
      assert AheadOfReports(Apply(sys, step).mailbox, letter, j);
    }
  }

  lemma {:induction false} DoomLasts(
      recovered: Option<Plan>, letter: Letter, front: seq<Step>, more: seq<Step>)
    requires letter.Begin? && Doomed(Exec(Opening(recovered), front), letter)
    requires NeverOverlaps(recovered, front + more)
    ensures Doomed(Exec(Opening(recovered), front + more), letter)
  {
    hide Doomed, Opening, Apply, Enabled, Overlaps;
    if more == [] {
      assert front + more == front;
    } else {
      var n := |more| - 1;
      var shorter, step := front + more[..n], more[n];
      assert front + more == shorter + [step];
      forall i | 0 <= i < |shorter| ensures !Overlaps(Exec(Opening(recovered), shorter[..i]), shorter[i]) {
        assert shorter[..i] == (front + more)[..i] && shorter[i] == (front + more)[i];
      }
      DoomLasts(recovered, letter, front, more[..n]);
      ExecOneMore(Opening(recovered), shorter, step);
      var before := Exec(Opening(recovered), shorter);
      assert !Overlaps(before, step) by {
        var k := |shorter|;
        assert (front + more)[..k] == shorter && (front + more)[k] == step;
      }
      if Enabled(before, step) {
        DoomStays(before, letter, step);
      }
    }
  }

  /**
    A command that begins a turn and is posted while one is running and has not reported yet
    makes two turns overlap, whatever happens in between, as soon as it is taken.
   */
  lemma BeginBeforeReportOverlaps(
      recovered: Option<Plan>, front: seq<Step>, letter: Letter, more: seq<Step>)
    requires letter.Begin?
    requires var sys := Exec(Opening(recovered), front);
             sys.running && HasRoom(sys) && forall l :: l in sys.mailbox ==> !l.Report?
    ensures var steps := front + [Post(letter)] + more;
            letter !in Exec(Opening(recovered), steps).mailbox ==> !NeverOverlaps(recovered, steps)
  {
    hide Opening, Exec, NeverOverlaps;
    var posted := front + [Post(letter)];
    var sys := Exec(Opening(recovered), front);
    ExecOneMore(Opening(recovered), front, Post(letter));
    var j := |sys.mailbox|;
    assert AheadOfReports(sys.mailbox + [letter], letter, j);
    if NeverOverlaps(recovered, posted + more) {
      DoomLasts(recovered, letter, posted, more);
    }
  }

  /**
    Answering a pause right after a restart overlaps: recovery has the session going again
    before the answer is taken, and the answer begins a second turn. Any other interleaving
    does as well, unless the recovered turn has reported before the answer is posted.
   */
  lemma AnswerAfterRestartOverlaps(plan: Plan, answer: DomainEvent, more: Plan)
    ensures var steps := [Post(Begin(answer, more)), Handle(true)];
            && !NeverOverlaps(Some(plan), steps)
            && InFlight(Exec(Opening(Some(plan)), steps).lanes) == 2
  {
    hide Seen, Exec;
    var letter := Begin(answer, more);
    var opening := Opening(Some(plan));
    var steps := [Post(letter), Handle(true)];
    ExecNothing(opening);
    ExecOneMore(opening, [], Post(letter));
    ExecOneMore(opening, [Post(letter)], Handle(true));
    assert [] + [Post(letter)] == [Post(letter)] && [Post(letter)] + [Handle(true)] == steps;
    var posted := Exec(opening, [Post(letter)]);
    assert steps[..1] == [Post(letter)] && steps[1] == Handle(true);
    assert Overlaps(posted, Handle(true));
    var lanes := Exec(opening, steps).lanes;
    assert lanes == [NewLane([], plan), NewLane([answer], more)];
    assert lanes[..1] == [NewLane([], plan)] && lanes[..1][..0] == [];
    assert InFlight(lanes[..1]) == 1;
  }

  lemma ExecNothing(sys: Sys)
    ensures Exec(sys, []) == sys
  {
  }

  lemma ExecOneMore(sys: Sys, steps: seq<Step>, step: Step)
    ensures Exec(sys, steps + [step]) == Next(Exec(sys, steps), step)
  {
    assert (steps + [step])[..|steps|] == steps;
  }
}
