/** The coarse events an agent session journals, and the conversation they fold into. */
module AgentEvents {
  import opened Common
  import opened Conversation
  import opened AgentLoop

  datatype DomainEvent =
    | InputPersisted(message: Message)
    | MessagePersisted(message: Message)
    | ToolPersisted(callId: string, output: string, isError: bool)
    | RunPersisted(usage: Usage, iterations: nat)
    | RunCancelled

  /** The event to journal for a streamed one; the input and streaming noise are not. */
  function Coarse(e: Event): Option<DomainEvent> {
    match e
    case MessageComplete(message) => Some(MessagePersisted(message))
    case ToolComplete(callId, output, isError) => Some(ToolPersisted(callId, output, isError))
    case RunComplete(usage, iterations) => Some(RunPersisted(usage, iterations))
    case _ => None
  }

  function CoarseAll(events: seq<Event>): seq<DomainEvent> {
    if events == [] then []
    else
      var last := Coarse(events[|events| - 1]);
      CoarseAll(events[..|events| - 1]) + if last.Some? then [last.value] else []
  }

  lemma {:induction false} CoarseOf(events: seq<Event>, d: DomainEvent)
    ensures d in CoarseAll(events) <==> exists e :: e in events && Coarse(e) == Some(d)
  {
    hide Coarse;
    if events != [] {
      var n := |events| - 1;
      CoarseOf(events[..n], d);
      assert events == events[..n] + [events[n]];
    }
  }

  /**
    Of what a run streams, its messages, its tool results and its completions are journaled,
    each as it is, and nothing else.
   */
  lemma JournaledIffCoarse(events: seq<Event>)
    ensures forall m: Message :: MessagePersisted(m) in CoarseAll(events) <==> MessageComplete(m) in events
    ensures forall id: string, output: string, isError: bool ::
              ToolPersisted(id, output, isError) in CoarseAll(events) <==> ToolComplete(id, output, isError) in events
    ensures forall usage: Usage, n: nat ::
              RunPersisted(usage, n) in CoarseAll(events) <==> RunComplete(usage, n) in events
    ensures forall m: Message :: InputPersisted(m) !in CoarseAll(events)
    ensures RunCancelled !in CoarseAll(events)
  {
    hide CoarseAll;
    forall m: Message
      ensures MessagePersisted(m) in CoarseAll(events) <==> MessageComplete(m) in events
      ensures InputPersisted(m) !in CoarseAll(events)
    {
      CoarseOf(events, MessagePersisted(m));
      CoarseOf(events, InputPersisted(m));
      assert Coarse(MessageComplete(m)) == Some(MessagePersisted(m));
    }
    forall id: string, output: string, isError: bool
      ensures ToolPersisted(id, output, isError) in CoarseAll(events) <==> ToolComplete(id, output, isError) in events
    {
      CoarseOf(events, ToolPersisted(id, output, isError));
      assert Coarse(ToolComplete(id, output, isError)) == Some(ToolPersisted(id, output, isError));
    }
    forall usage: Usage, n: nat
      ensures RunPersisted(usage, n) in CoarseAll(events) <==> RunComplete(usage, n) in events
    {
      CoarseOf(events, RunPersisted(usage, n));
      assert Coarse(RunComplete(usage, n)) == Some(RunPersisted(usage, n));
    }
    CoarseOf(events, RunCancelled);
  }

  /** The session's fold of one event into its messages. */
  function ApplyEvent(messages: seq<Message>, e: DomainEvent): seq<Message> {
    match e
    case InputPersisted(message) => messages + [message]
    case MessagePersisted(message) => messages + [message]
    case ToolPersisted(callId, output, isError) => messages + [ResultMessage(callId, output, isError)]
    case RunPersisted(_, _) => messages
    case RunCancelled => messages
  }

  function FoldEvents(messages: seq<Message>, events: seq<DomainEvent>): seq<Message> {
    if events == [] then messages
    else ApplyEvent(FoldEvents(messages, events[..|events| - 1]), events[|events| - 1])
  }

  /** The messages the events add. */
  function Produced(events: seq<DomainEvent>): seq<Message> {
    FoldEvents([], events)
  }

  lemma {:induction false} FoldFrom(messages: seq<Message>, events: seq<DomainEvent>)
    ensures FoldEvents(messages, events) == messages + Produced(events)
  {
    if events == [] {
      assert messages + [] == messages;
    } else {
      FoldFrom(messages, events[..|events| - 1]);
      var one := ApplyEvent([], events[|events| - 1]);
      Assoc(messages, Produced(events[..|events| - 1]), one);
      assert messages + [] == messages;
    }
  }

  lemma {:induction false} FoldConcat(messages: seq<Message>, a: seq<DomainEvent>, b: seq<DomainEvent>)
    ensures FoldEvents(messages, a + b) == FoldEvents(FoldEvents(messages, a), b)
    decreases b
  {
    if b == [] {
      assert a + b == a;
    } else {
      var n := |a + b| - 1;
      assert (a + b)[..n] == a + b[..|b| - 1] && (a + b)[n] == b[|b| - 1];
      FoldConcat(messages, a, b[..|b| - 1]);
    }
  }

  lemma ProducedConcat(a: seq<DomainEvent>, b: seq<DomainEvent>)
    ensures Produced(a + b) == Produced(a) + Produced(b)
  {
    FoldConcat([], a, b);
    FoldFrom(Produced(a), b);
  }

  lemma {:induction false} CoarseConcat(a: seq<Event>, b: seq<Event>)
    ensures CoarseAll(a + b) == CoarseAll(a) + CoarseAll(b)
    decreases b
  {
    if b == [] {
      assert a + b == a;
    } else {
      var n := |a + b| - 1;
      assert (a + b)[..n] == a + b[..|b| - 1] && (a + b)[n] == b[|b| - 1];
      CoarseConcat(a, b[..|b| - 1]);
      var last := Coarse(b[|b| - 1]);
      Assoc(CoarseAll(a), CoarseAll(b[..|b| - 1]), if last.Some? then [last.value] else []);
    }
  }

  /** The messages that journaling a stream of events leaves behind. */
  function Spoken(events: seq<Event>): seq<Message> {
    Produced(CoarseAll(events))
  }

  lemma SpokenConcat(a: seq<Event>, b: seq<Event>)
    ensures Spoken(a + b) == Spoken(a) + Spoken(b)
  {
    CoarseConcat(a, b);
    ProducedConcat(CoarseAll(a), CoarseAll(b));
  }

  lemma CoarseOne(e: Event)
    ensures CoarseAll([e]) == if Coarse(e).Some? then [Coarse(e).value] else []
  {
    assert [e][..0] == [];
  }

  lemma SpokenOne(e: Event)
    ensures Spoken([e]) == if Coarse(e).Some? then ApplyEvent([], Coarse(e).value) else []
  {
    CoarseOne(e);
    if Coarse(e).Some? {
      var one := Coarse(e).value;
      assert [one][..0] == [] && [one][0] == one;
      assert FoldEvents([], [one]) == ApplyEvent(FoldEvents([], []), one);
    }
  }

  lemma SpokenTwo(a: Event, b: Event)
    ensures Spoken([a, b]) == Spoken([a]) + Spoken([b])
  {
    assert [a, b] == [a] + [b];
    SpokenConcat([a], [b]);
  }

  predicate Noise(e: Event) {
    Coarse(e).None?
  }

  lemma {:induction false} NoiseVanishes(events: seq<Event>)
    requires forall i :: 0 <= i < |events| ==> Noise(events[i])
    ensures CoarseAll(events) == [] && Spoken(events) == []
  {
    if events != [] {
      assert Noise(events[|events| - 1]);
      NoiseVanishes(events[..|events| - 1]);
    }
  }
}
