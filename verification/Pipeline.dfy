/**
  How the events of a run reach the journal: the run sends them into an unbounded
  channel, a forwarder moves them one by one into the session's bounded mailbox, and the
  session persists each as it takes it. All four run concurrently.
 */
module Pipeline {
  import opened Common
  import opened Conversation
  import opened AgentEvents
  import opened AgentRetries

  /** The mailbox capacity an actor is spawned with. */
  const CAPACITY: nat := 64

  datatype Command = Progress(event: DomainEvent) | Finished | Foreign

  datatype Runner = Emitting | Closed | Reported

  datatype Forwarder = Waiting | Holding(event: DomainEvent) | Ended

  /**
    `first` is what the session itself persists before it takes any message: the input of
    the turn, or nothing after a recovery; `closing` what it persists when it takes the
    report, which is something only if the turn was cancelled. `handled` and `kept` record
    each event the session tried to persist and whether it succeeded.
   */
  datatype Pipes = Pipes(
    first: seq<DomainEvent>,
    todo: seq<DomainEvent>,
    closing: Option<DomainEvent>,
    runner: Runner,
    channel: seq<DomainEvent>,
    forwarder: Forwarder,
    mailbox: seq<Command>,
    journal: seq<DomainEvent>,
    handled: seq<DomainEvent>,
    kept: seq<bool>,
    finished: nat)

  function Initial(first: seq<DomainEvent>, todo: seq<DomainEvent>, closing: Option<DomainEvent>): Pipes {
    Pipes(first, todo, closing, Emitting, [], Waiting, [], [], [], [], 0)
  }

  function Listed(event: Option<DomainEvent>): seq<DomainEvent> {
    if event.Some? then [event.value] else []
  }

  datatype Step =
    | PersistFirst(ok: bool)
    | Emit
    | Close
    | Receive
    | Tell
    | EndForwarding
    | Report
    | Intrude
    | Handle(success: bool)

  predicate HasRoom(s: Pipes) {
    |s.mailbox| < CAPACITY
  }

  predicate Enabled(s: Pipes, step: Step) {
    match step
    case PersistFirst(_) => s.first != []
    case Emit => s.runner.Emitting? && s.todo != []
    case Close => s.runner.Emitting? && s.todo == []
    case Receive => s.forwarder.Waiting? && s.channel != []
    case Tell => s.forwarder.Holding? && HasRoom(s)
    case EndForwarding => s.forwarder.Waiting? && s.channel == [] && !s.runner.Emitting?
    case Report => s.runner.Closed? && s.forwarder.Ended? && HasRoom(s)
    case Intrude => HasRoom(s)
    case Handle(_) => s.first == [] && s.mailbox != []
  }

  function Persist(s: Pipes, event: DomainEvent, ok: bool): Pipes {
    s.(journal := if ok then s.journal + [event] else s.journal,
       handled := s.handled + [event],
       kept := s.kept + [ok])
  }

  function Apply(s: Pipes, step: Step): Pipes
    requires Enabled(s, step)
  {
    match step
    case PersistFirst(ok) => Persist(s, s.first[0], ok).(first := s.first[1..])
    case Emit => s.(todo := s.todo[1..], channel := s.channel + [s.todo[0]])
    case Close => s.(runner := Closed)
    case Receive => s.(forwarder := Holding(s.channel[0]), channel := s.channel[1..])
    case Tell => s.(forwarder := Waiting, mailbox := s.mailbox + [Progress(s.forwarder.event)])
    case EndForwarding => s.(forwarder := Ended)
    case Report => s.(runner := Reported, mailbox := s.mailbox + [Finished])
    case Intrude => s.(mailbox := s.mailbox + [Foreign])
    case Handle(ok) =>
      var rest := s.(mailbox := s.mailbox[1..]);
      match s.mailbox[0]
      case Progress(event) => Persist(rest, event, ok)
      case Finished =>
        (if s.closing.Some? then Persist(rest, s.closing.value, ok) else rest).(finished := s.finished + 1)
      case Foreign => rest
  }

  /** The states reachable by any interleaving. Steps that cannot be taken are skipped. */
  function Exec(s: Pipes, steps: seq<Step>): Pipes {
    if steps == [] then s
    else
      var before := Exec(s, steps[..|steps| - 1]);
      if Enabled(before, steps[|steps| - 1]) then Apply(before, steps[|steps| - 1]) else before
  }

  // ---- The invariant ----------------------------------------------------------------------

  function Kept(events: seq<DomainEvent>, kept: seq<bool>): seq<DomainEvent>
    requires |events| == |kept|
  {
    if events == [] then []
    else
      var n := |events| - 1;
      Kept(events[..n], kept[..n]) + if kept[n] then [events[n]] else []
  }

  function Carried(c: Command): seq<DomainEvent> {
    if c.Progress? then [c.event] else []
  }

  function InMailbox(mailbox: seq<Command>): seq<DomainEvent> {
    if mailbox == [] then [] else Carried(mailbox[0]) + InMailbox(mailbox[1..])
  }

  function Held(f: Forwarder): seq<DomainEvent> {
    if f.Holding? then [f.event] else []
  }

  function Reports(mailbox: seq<Command>): nat {
    if mailbox == [] then 0 else (if mailbox[0].Finished? then 1 else 0) + Reports(mailbox[1..])
  }

  /** What is still to be emitted or, when the report is taken, to be closed with. */
  function Rest(s: Pipes): seq<DomainEvent> {
    s.todo + if s.finished == 0 then Listed(s.closing) else []
  }

  /** Everything still on its way, in the order it will be handled. */
  function Pending(s: Pipes): seq<DomainEvent> {
    s.first + (InMailbox(s.mailbox) + (Held(s.forwarder) + (s.channel + Rest(s))))
  }

  /** No event follows a report in the mailbox. */
  predicate ReportIsLast(mailbox: seq<Command>) {
    forall i, j :: 0 <= i < j < |mailbox| ==> !(mailbox[i].Finished? && mailbox[j].Progress?)
  }

  ghost predicate Ordered(s: Pipes, whole: seq<DomainEvent>) {
    && s.handled + Pending(s) == whole
    && |s.kept| == |s.handled|
    && s.journal == Kept(s.handled, s.kept)
    && (s.runner != Emitting ==> s.todo == [])
    && (s.forwarder.Ended? ==> s.channel == [] && s.runner != Emitting)
    && (s.runner.Reported? ==> s.forwarder.Ended?)
    && s.finished + Reports(s.mailbox) == (if s.runner.Reported? then 1 else 0)
    && ReportIsLast(s.mailbox)
    && (s.finished > 0 ==> s.first == [] && InMailbox(s.mailbox) == [])
  }

  lemma {:induction false} MailboxGrows(mailbox: seq<Command>, c: Command)
    ensures InMailbox(mailbox + [c]) == InMailbox(mailbox) + Carried(c)
    ensures Reports(mailbox + [c]) == Reports(mailbox) + if c.Finished? then 1 else 0
  {
    hide Carried;
    if mailbox == [] {
      assert mailbox + [c] == [c] && [c][1..] == [];
    } else {
      assert (mailbox + [c])[0] == mailbox[0] && (mailbox + [c])[1..] == mailbox[1..] + [c];
      MailboxGrows(mailbox[1..], c);
      Assoc(Carried(mailbox[0]), InMailbox(mailbox[1..]), Carried(c));
    }
  }

  lemma NoEventAfterReport(mailbox: seq<Command>)
    requires mailbox != [] && mailbox[0].Finished? && ReportIsLast(mailbox)
    ensures InMailbox(mailbox) == []
  {
    NoEventsAmong(mailbox);
  }

  lemma {:induction false} NoEventsAmong(mailbox: seq<Command>)
    requires forall i :: 0 <= i < |mailbox| ==> !mailbox[i].Progress?
    ensures InMailbox(mailbox) == []
  {
    if mailbox != [] {
      NoEventsAmong(mailbox[1..]);
    }
  }

  lemma {:induction false} ReportsAmong(mailbox: seq<Command>, i: nat)
    requires i < |mailbox| && mailbox[i].Finished?
    ensures Reports(mailbox) > 0
  {
    if i > 0 {
      ReportsAmong(mailbox[1..], i - 1);
    }
  }

  lemma PersistKeeps(handled: seq<DomainEvent>, kept: seq<bool>, event: DomainEvent, ok: bool)
    requires |handled| == |kept|
    ensures Kept(handled + [event], kept + [ok]) == Kept(handled, kept) + if ok then [event] else []
  {
    assert (handled + [event])[..|handled|] == handled && (kept + [ok])[..|handled|] == kept;
  }

  /** Moving an event along the pipeline leaves the order of what is still to come alone. */
  lemma PendingAfter(s: Pipes, step: Step)
    requires Enabled(s, step) && (step.Handle? ==> !s.mailbox[0].Finished?)
    ensures var s' := Apply(s, step);
            Pending(s) == match step
                          case PersistFirst(_) => [s.first[0]] + Pending(s')
                          case Handle(_) =>
                            if s.mailbox[0].Progress? then [s.mailbox[0].event] + Pending(s') else Pending(s')
                          case _ => Pending(s')
  {
    hide InMailbox;
    var boxed := InMailbox(s.mailbox);
    match step {
      case PersistFirst(_) =>
        assert s.first == [s.first[0]] + s.first[1..];
        Assoc([s.first[0]], s.first[1..], boxed + (Held(s.forwarder) + (s.channel + Rest(s))));
      case Emit =>
        assert s.todo == [s.todo[0]] + s.todo[1..];
        Assoc([s.todo[0]], s.todo[1..], if s.finished == 0 then Listed(s.closing) else []);
        Assoc(s.channel, [s.todo[0]], Rest(Apply(s, step)));
      case Receive =>
        assert s.channel == [s.channel[0]] + s.channel[1..];
        Assoc([s.channel[0]], s.channel[1..], Rest(s));
        assert [] + (s.channel + Rest(s)) == s.channel + Rest(s);
      case Tell =>
        MailboxGrows(s.mailbox, Progress(s.forwarder.event));
        Assoc(boxed, [s.forwarder.event], s.channel + Rest(s));
        assert [] + (s.channel + Rest(s)) == s.channel + Rest(s);
      case Report => MailboxGrows(s.mailbox, Finished);
        assert boxed + [] == boxed;
      case Intrude => MailboxGrows(s.mailbox, Foreign);
        assert boxed + [] == boxed;
      case Handle(_) => HandledFromMailbox(s);
      case Close =>
      case EndForwarding =>
    }
  }

  lemma HandledFromMailbox(s: Pipes)
    requires s.first == [] && s.mailbox != []
    ensures var boxed := InMailbox(s.mailbox[1..]) + (Held(s.forwarder) + (s.channel + Rest(s)));
            Pending(s) == [] + (if s.mailbox[0].Progress? then [s.mailbox[0].event] + boxed else boxed)
  {
    var rest := Held(s.forwarder) + (s.channel + Rest(s));
    if s.mailbox[0].Progress? {
      Assoc([s.mailbox[0].event], InMailbox(s.mailbox[1..]), rest);
    } else {
      assert [] + InMailbox(s.mailbox[1..]) == InMailbox(s.mailbox[1..]);
    }
  }

  lemma HandleKeepsOrder(s: Pipes, whole: seq<DomainEvent>, ok: bool)
    requires Ordered(s, whole) && Enabled(s, Handle(ok))
    ensures Ordered(Apply(s, Handle(ok)), whole)
  {
    hide Pending, Kept;
    var c := s.mailbox[0];
    if c.Finished? {
      ReportKeepsOrder(s, whole, ok);
    } else {
      PendingAfter(s, Handle(ok));
      if c.Progress? {
        PersistKeeps(s.handled, s.kept, c.event, ok);
        Assoc(s.handled, [c.event], Pending(Apply(s, Handle(ok))));
      }
    }
  }

  /** When the report is taken nothing but the closing event is left to come. */
  lemma ReportKeepsOrder(s: Pipes, whole: seq<DomainEvent>, ok: bool)
    requires Ordered(s, whole) && Enabled(s, Handle(ok)) && s.mailbox[0].Finished?
    ensures Ordered(Apply(s, Handle(ok)), whole)
  {
    hide Kept;
    var s' := Apply(s, Handle(ok));
    NoEventAfterReport(s.mailbox);
    assert Reports(s.mailbox) == 1 + Reports(s.mailbox[1..]);
    assert [] + InMailbox(s.mailbox[1..]) == InMailbox(s.mailbox[1..]);
    assert Pending(s) == Listed(s.closing) && Pending(s') == [];
    if s.closing.Some? {
      PersistKeeps(s.handled, s.kept, s.closing.value, ok);
    } else {
      assert s.handled + [] == s.handled;
    }
    assert s'.handled + [] == s'.handled;
  }

  lemma SendKeepsOrder(s: Pipes, whole: seq<DomainEvent>, step: Step)
    requires Ordered(s, whole) && Enabled(s, step) && (step.Tell? || step.Report? || step.Intrude?)
    ensures Ordered(Apply(s, step), whole)
  {
    hide Pending, Kept;
    PendingAfter(s, step);
    var c := if step.Tell? then Progress(s.forwarder.event) else if step.Report? then Finished else Foreign;
    MailboxGrows(s.mailbox, c);
    if step.Tell? {
      forall i | 0 <= i < |s.mailbox| ensures !s.mailbox[i].Finished? {
        if s.mailbox[i].Finished? {
          ReportsAmong(s.mailbox, i);
        }
      }
    }
  }

  lemma StepKeepsOrder(s: Pipes, whole: seq<DomainEvent>, step: Step)
    requires Ordered(s, whole) && Enabled(s, step)
    ensures Ordered(Apply(s, step), whole)
  {
    match step {
      case Handle(ok) => HandleKeepsOrder(s, whole, ok);
      case Tell => SendKeepsOrder(s, whole, step);
      case Report => SendKeepsOrder(s, whole, step);
      case Intrude => SendKeepsOrder(s, whole, step);
      case PersistFirst(ok) =>
        PendingAfter(s, step);
        PersistKeeps(s.handled, s.kept, s.first[0], ok);
        Assoc(s.handled, [s.first[0]], Pending(Apply(s, step)));
      case _ => PendingAfter(s, step);
    }
  }

  /** All that a turn is to journal. */
  function Whole(first: seq<DomainEvent>, todo: seq<DomainEvent>, closing: Option<DomainEvent>): seq<DomainEvent> {
    first + (todo + Listed(closing))
  }

  lemma {:induction false} ExecKeepsOrder(
      first: seq<DomainEvent>, todo: seq<DomainEvent>, closing: Option<DomainEvent>, steps: seq<Step>)
    ensures Ordered(Exec(Initial(first, todo, closing), steps), Whole(first, todo, closing))
    ensures Exec(Initial(first, todo, closing), steps).closing == closing
  {
    hide Ordered, Enabled, Whole;
    if steps == [] {
      StartsOrdered(first, todo, closing);
    } else {
      var n := |steps| - 1;
      ExecKeepsOrder(first, todo, closing, steps[..n]);
      var before := Exec(Initial(first, todo, closing), steps[..n]);
      if Enabled(before, steps[n]) {
        StepKeepsOrder(before, Whole(first, todo, closing), steps[n]);
      }
    }
  }

  lemma StartsOrdered(first: seq<DomainEvent>, todo: seq<DomainEvent>, closing: Option<DomainEvent>)
    ensures Ordered(Initial(first, todo, closing), Whole(first, todo, closing))
  {
    var rest := todo + Listed(closing);
    assert [] + rest == rest;
    assert [] + (first + rest) == first + rest;
  }

  // ---- Persistence order equals emission order ---------------------------------------------------

  predicate AllKept(kept: seq<bool>) {
    forall i :: 0 <= i < |kept| ==> kept[i]
  }

  lemma {:induction false} KeptIsAllIff(events: seq<DomainEvent>, kept: seq<bool>)
    requires |events| == |kept|
    ensures |Kept(events, kept)| <= |events|
    ensures Kept(events, kept) == events <==> AllKept(kept)
  {
    if events != [] {
      var n := |events| - 1;
      KeptIsAllIff(events[..n], kept[..n]);
      assert AllKept(kept) <==> AllKept(kept[..n]) && kept[n];
      assert events == events[..n] + [events[n]];
    }
  }

  /** Before the report is taken, what was tried are events of the turn itself. */
  lemma ClosingComesLast(s: Pipes, first: seq<DomainEvent>, todo: seq<DomainEvent>)
    requires Ordered(s, Whole(first, todo, s.closing)) && s.finished == 0
    ensures s.handled <= first + todo
  {
    hide Kept;
    var ahead := s.first + (InMailbox(s.mailbox) + (Held(s.forwarder) + (s.channel + s.todo)));
    var last := Listed(s.closing);
    Assoc(s.channel, s.todo, last);
    Assoc(Held(s.forwarder), s.channel + s.todo, last);
    Assoc(InMailbox(s.mailbox), Held(s.forwarder) + (s.channel + s.todo), last);
    Assoc(s.first, InMailbox(s.mailbox) + (Held(s.forwarder) + (s.channel + s.todo)), last);
    Assoc(s.handled, ahead, last);
    Assoc(first, todo, last);
    assert (s.handled + ahead) + last == (first + todo) + last;
    assert s.handled + ahead == ((first + todo) + last)[..|first + todo|] == first + todo;
  }

  /**
    Whatever the interleaving: the events tried so far are a prefix of the input followed by
    the emitted events in emission order and then, if the turn was cancelled, the closing
    event; that one is tried only when the report is taken. The journal holds exactly those
    whose persist succeeded, in that order; and once the report is taken (it is taken at most
    once) every event has been tried, so that the journal is complete exactly when none failed.
   */
  lemma PersistenceFollowsEmission(
      first: seq<DomainEvent>, todo: seq<DomainEvent>, closing: Option<DomainEvent>, steps: seq<Step>)
    ensures var s, whole := Exec(Initial(first, todo, closing), steps), first + (todo + Listed(closing));
            && s.handled <= whole
            && |s.kept| == |s.handled| && s.journal == Kept(s.handled, s.kept)
            && (AllKept(s.kept) ==> s.journal <= whole)
            && s.finished <= 1
            && (s.finished == 0 ==> s.handled <= first + todo)
            && (s.finished == 1 ==> s.handled == whole && (s.journal == whole <==> AllKept(s.kept)))
  {
    hide Exec, Kept;
    ExecKeepsOrder(first, todo, closing, steps);
    var s := Exec(Initial(first, todo, closing), steps);
    KeptIsAllIff(s.handled, s.kept);
    if s.finished == 1 {
      assert s.handled + [] == s.handled;
    } else {
      ClosingComesLast(s, first, todo);
    }
  }

  // ---- Every turn can complete -------------------------------------------------------------------

  lemma {:induction false} ExecInTwo(s: Pipes, x: seq<Step>, y: seq<Step>)
    ensures Exec(s, x + y) == Exec(Exec(s, x), y)
    decreases y
  {
    hide Enabled, Apply;
    if y == [] {
      assert x + y == x;
    } else {
      var n := |y| - 1;
      assert (x + y)[..|x + y| - 1] == x + y[..n] && (x + y)[|x + y| - 1] == y[n];
      ExecInTwo(s, x, y[..n]);
    }
  }

  lemma ExecOne(s: Pipes, step: Step)
    ensures Exec(s, [step]) == if Enabled(s, step) then Apply(s, step) else s
  {
    assert [step][..0] == [];
  }

  lemma ExecFour(s: Pipes, a: Step, b: Step, c: Step, d: Step)
    ensures Exec(s, [a, b, c, d]) == Exec(Exec(Exec(Exec(s, [a]), [b]), [c]), [d])
  {
    hide Exec;
    assert [a, b, c, d] == [a] + ([b] + ([c] + [d]));
    ExecInTwo(s, [a], [b] + ([c] + [d]));
    ExecInTwo(Exec(s, [a]), [b], [c] + [d]);
    ExecInTwo(Exec(Exec(s, [a]), [b]), [c], [d]);
  }

  /** Nothing is on its way, and the run goes on. */
  predicate Calm(s: Pipes) {
    && s.first == [] && s.channel == [] && s.mailbox == []
    && s.runner.Emitting? && s.forwarder.Waiting? && s.finished == 0
  }

  lemma OneEventThrough(s: Pipes)
    requires Calm(s) && s.todo != []
    ensures Exec(s, [Emit, Receive, Tell, Handle(true)]) == Persist(s, s.todo[0], true).(todo := s.todo[1..])
  {
    ExecFour(s, Emit, Receive, Tell, Handle(true));
    ExecOne(s, Emit);
    var s1 := Exec(s, [Emit]);
    assert s1 == s.(todo := s.todo[1..], channel := [s.todo[0]]);
    ExecOne(s1, Receive);
    var s2 := Exec(s1, [Receive]);
    ExecOne(s2, Tell);
    var s3 := Exec(s2, [Tell]);
    assert s3.mailbox == [Progress(s.todo[0])] && s3.mailbox[1..] == [];
    ExecOne(s3, Handle(true));
  }

  lemma {:induction false} EventsThrough(s: Pipes) returns (steps: seq<Step>)
    requires Calm(s)
    ensures var s' := Exec(s, steps);
            && s' == s.(todo := [], journal := s'.journal, handled := s'.handled, kept := s'.kept)
            && s'.journal == s.journal + s.todo
    decreases |s.todo|
  {
    hide Exec;
    if s.todo == [] {
      steps := [];
      assert s.journal + [] == s.journal;
      NoStep(s);
    } else {
      var next := Persist(s, s.todo[0], true).(todo := s.todo[1..]);
      OneEventThrough(s);
      var rest := EventsThrough(next);
      steps := [Emit, Receive, Tell, Handle(true)] + rest;
      ExecInTwo(s, [Emit, Receive, Tell, Handle(true)], rest);
      Assoc(s.journal, [s.todo[0]], s.todo[1..]);
      assert [s.todo[0]] + s.todo[1..] == s.todo;
    }
  }

  lemma NoStep(s: Pipes)
    ensures Exec(s, []) == s
  {
  }

  lemma EndsWell(s: Pipes)
    requires Calm(s) && s.todo == []
    ensures var s' := Exec(s, [Close, EndForwarding, Report, Handle(true)]);
            s'.finished == 1 && s'.journal == s.journal + Listed(s.closing)
  {
    ExecFour(s, Close, EndForwarding, Report, Handle(true));
    ExecOne(s, Close);
    var s1 := Exec(s, [Close]);
    ExecOne(s1, EndForwarding);
    var s2 := Exec(s1, [EndForwarding]);
    ExecOne(s2, Report);
    var s3 := Exec(s2, [Report]);
    assert s3.mailbox == [Finished] && s3.mailbox[1..] == [];
    ExecOne(s3, Handle(true));
    assert s.journal + [] == s.journal;
  }

  /** Whatever a turn is to journal, some interleaving journals all of it and takes its report. */
  lemma EveryTurnCanComplete(first: seq<DomainEvent>, todo: seq<DomainEvent>, closing: Option<DomainEvent>)
    returns (steps: seq<Step>)
    requires |first| <= 1
    ensures var s := Exec(Initial(first, todo, closing), steps);
            s.finished == 1 && s.journal == first + (todo + Listed(closing))
  {
    hide Exec;
    var start := Initial(first, todo, closing);
    var begin: seq<Step> := if first == [] then [] else [PersistFirst(true)];
    var s := Exec(start, begin);
    ExecOne(start, PersistFirst(true));
    NoStep(start);
    assert s.journal == first && Calm(s) && s.todo == todo && s.closing == closing;
    var middle := EventsThrough(s);
    var s' := Exec(s, middle);
    EndsWell(s');
    var end := [Close, EndForwarding, Report, Handle(true)];
    ExecInTwo(start, begin, middle);
    ExecInTwo(start, begin + middle, end);
    Assoc(first, todo, Listed(closing));
    steps := begin + middle + end;
  }

  /** The pipeline of a turn on `input`. */
  function Turning(input: Message, turn: Turn): Pipes {
    Initial([InputPersisted(input)], CoarseAll(EventsOf(turn.runs)), Closing(turn.outcome))
  }

  /** A turn dies while its events are on their way: recovery finds a cut of all that the turn was to journal. */
  lemma CrashLeavesACut(input: Message, turn: Turn, steps: seq<Step>) returns (k: nat)
    requires AllKept(Exec(Turning(input, turn), steps).kept)
    ensures k <= |JournalOf(input, turn.runs) + Listed(Closing(turn.outcome))|
    ensures Exec(Turning(input, turn), steps).journal ==
            (JournalOf(input, turn.runs) + Listed(Closing(turn.outcome)))[..k]
  {
    hide Exec, CoarseAll, EventsOf, Closing;
    var first, todo := [InputPersisted(input)], CoarseAll(EventsOf(turn.runs));
    PersistenceFollowsEmission(first, todo, Closing(turn.outcome), steps);
    Assoc(first, todo, Listed(Closing(turn.outcome)));
    k := |Exec(Turning(input, turn), steps).journal|;
  }
}
