/** Assembling a streamed reply: blocks accumulate in three maps by index, and are read out in index order. */
module Anthropic {
  import opened Common
  import opened Conversation

  const MAX_STREAM_RETRIES: nat := 6

  datatype StopReason = EndTurn | ToolUse | MaxTokens

  datatype StreamEvent =
    | MessageStart(usage: Option<Option<nat>>)
    | TextStart(index: nat)
    | ToolStart(index: nat, id: string, name: string)
    | ThinkingStart(index: nat)
    | OtherStart(index: nat)
    | TextDelta(index: nat, text: string)
    | JsonDelta(index: nat, text: string)
    | ThinkingDelta(index: nat, text: string)
    | SignatureDelta(index: nat, text: string)
    | BlockStop(index: nat)
    | MessageDelta(stop: Option<string>, usage: Option<Option<nat>>)
    | MessageStop

  datatype StreamError = StreamError(retryable: bool, message: string)

  /** One attempt: what it streams, and how it breaks if it does. */
  datatype Attempt = Attempt(events: seq<StreamEvent>, failure: Option<StreamError>)

  datatype ToolBlock = ToolBlock(id: string, name: string, json: string)

  datatype ThinkingBlock = ThinkingBlock(text: string, signature: string)

  datatype Blocks = Blocks(
    texts: map<nat, string>,
    tools: map<nat, ToolBlock>,
    thoughts: map<nat, ThinkingBlock>,
    stop: StopReason,
    inputTokens: nat,
    outputTokens: nat)

  const EMPTY := Blocks(map[], map[], map[], EndTurn, 0, 0)

  /** What the caller's sink sees while the reply streams in. */
  datatype Emission =
    | ToolCallStart(index: nat, id: string, name: string)
    | TextChunk(index: nat, text: string)
    | ThinkingChunk(index: nat, text: string)
    | ToolInputDelta(index: nat, id: string, text: string)
    | ToolInputDone(index: nat, id: string)

  function StopOf(reason: Option<string>): StopReason {
    if reason == Some("tool_use") then ToolUse else if reason == Some("max_tokens") then MaxTokens else EndTurn
  }

  function OrElse(tokens: Option<nat>, otherwise: nat): nat {
    if tokens.Some? then tokens.value else otherwise
  }

  function Feed(b: Blocks, e: StreamEvent): Blocks {
    match e
    case MessageStart(usage) => if usage.Some? then b.(inputTokens := OrElse(usage.value, 0)) else b
    case TextStart(i) => b.(texts := b.texts[i := ""])
    case ToolStart(i, id, name) => b.(tools := b.tools[i := ToolBlock(id, name, "")])
    case ThinkingStart(i) => b.(thoughts := b.thoughts[i := ThinkingBlock("", "")])
    case TextDelta(i, t) => if i in b.texts then b.(texts := b.texts[i := b.texts[i] + t]) else b
    case JsonDelta(i, t) =>
      if i in b.tools then b.(tools := b.tools[i := b.tools[i].(json := b.tools[i].json + t)]) else b
    case ThinkingDelta(i, t) =>
      if i in b.thoughts then b.(thoughts := b.thoughts[i := b.thoughts[i].(text := b.thoughts[i].text + t)]) else b
    case SignatureDelta(i, t) =>
      if i in b.thoughts then
        b.(thoughts := b.thoughts[i := b.thoughts[i].(signature := b.thoughts[i].signature + t)])
      else b
    case MessageDelta(stop, usage) =>
      var b' := b.(stop := StopOf(stop));
      if usage.Some? then b'.(outputTokens := OrElse(usage.value, b.outputTokens)) else b'
    case OtherStart(_) => b
    case BlockStop(_) => b
    case MessageStop => b
  }

  function Emitted(b: Blocks, e: StreamEvent): seq<Emission> {
    match e
    case ToolStart(i, id, name) => [ToolCallStart(i, id, name)]
    case TextDelta(i, t) => [TextChunk(i, t)]
    case ThinkingDelta(i, t) => [ThinkingChunk(i, t)]
    case JsonDelta(i, t) => if i in b.tools then [ToolInputDelta(i, b.tools[i].id, t)] else []
    case BlockStop(i) => if i in b.tools then [ToolInputDone(i, b.tools[i].id)] else []
    case _ => []
  }

  function FeedOnto(b: Blocks, events: seq<StreamEvent>): Blocks {
    if events == [] then b else Feed(FeedOnto(b, events[..|events| - 1]), events[|events| - 1])
  }

  function FeedAll(events: seq<StreamEvent>): Blocks {
    FeedOnto(EMPTY, events)
  }

  function EmittedAll(events: seq<StreamEvent>): seq<Emission> {
    if events == [] then []
    else
      EmittedAll(events[..|events| - 1]) + Emitted(FeedAll(events[..|events| - 1]), events[|events| - 1])
  }

  predicate Blank(b: Blocks) {
    b.texts == map[] && b.tools == map[] && b.thoughts == map[]
  }

  // ---- Reading out --------------------------------------------------------------------------

  /** The part that index `i` contributes, if any: empty texts and thoughts contribute none. */
  function PartAt(parse: string -> Option<Json>, b: Blocks, i: nat): seq<Part> {
    if i in b.texts then (if b.texts[i] == "" then [] else [Text(b.texts[i])])
    else if i in b.tools then
      var input := parse(b.tools[i].json);
      [ToolCall(b.tools[i].id, b.tools[i].name, if input.Some? then input.value else JObject([]))]
    else if i in b.thoughts && b.thoughts[i].text != "" then
      [Thinking(b.thoughts[i].text, if b.thoughts[i].signature == "" then None else Some(b.thoughts[i].signature))]
    else []
  }

  /** The parts of the indices below `n`, in index order. */
  function PartsBelow(parse: string -> Option<Json>, b: Blocks, n: nat): seq<Part> {
    if n == 0 then [] else PartsBelow(parse, b, n - 1) + PartAt(parse, b, n - 1)
  }

  function Indices(b: Blocks): set<nat> {
    b.texts.Keys + b.tools.Keys + b.thoughts.Keys
  }

  /** Some number above all of `s`. */
  ghost function Above(s: set<nat>): (n: nat)
    ensures forall i :: i in s ==> i < n
    decreases |s|
  {
    if s == {} then 0
    else
      var i :| i in s;
      var n := Above(s - {i});
      assert forall x :: x in s ==> x == i || x in s - {i};
      if i < n then n else i + 1
  }

  /** All parts, in index order. */
  ghost function Assembled(parse: string -> Option<Json>, b: Blocks): seq<Part> {
    PartsBelow(parse, b, Above(Indices(b)))
  }

  datatype Response = Response(parts: seq<Part>, stop: StopReason, inputTokens: nat, outputTokens: nat)

  ghost function ResponseOf(parse: string -> Option<Json>, b: Blocks): Response {
    Response(Assembled(parse, b), b.stop, b.inputTokens, b.outputTokens)
  }

  predicate Retried(a: Attempt) {
    a.failure.Some? && a.failure.value.retryable && Blank(FeedAll(a.events))
  }

  /** The outcome from attempt `k` on; `last` is the error that caused the latest retry. */
  ghost function Outcome(
      parse: string -> Option<Json>, attempts: nat -> Attempt, k: nat, last: Option<string>)
    : Result<Response, string>
    requires k <= MAX_STREAM_RETRIES + 1 && (k > 0 ==> last.Some?)
    decreases MAX_STREAM_RETRIES + 1 - k
  {
    if k > MAX_STREAM_RETRIES then Err(last.value)
    else
      var b := FeedAll(attempts(k).events);
      var failure := attempts(k).failure;
      if Retried(attempts(k)) then Outcome(parse, attempts, k + 1, Some(failure.value.message))
      else if failure.Some? then Err(failure.value.message)
      else if Blank(b) && last.Some? then Err(last.value)
      else Ok(ResponseOf(parse, b))
  }

  // ---- The assembler as it runs -----------------------------------------------------------------

  predicate Increasing(r: seq<nat>) {
    forall i, j :: 0 <= i < j < |r| ==> r[i] < r[j]
  }

  method Least(s: set<nat>) returns (m: nat)
    requires s != {}
    ensures m in s && forall x :: x in s ==> m <= x
  {
    m :| m in s;
    var rest := s;
    while rest != {}
      invariant rest <= s && m in s
      invariant forall x :: x in s - rest ==> m <= x
      decreases |rest|
    {
      var x :| x in rest;
      assert s - (rest - {x}) == (s - rest) + {x};
      if x < m {
        m := x;
      }
      rest := rest - {x};
    }
    assert s - rest == s;
  }

  /** Sorted and without duplicates. */
  method Ascending(s: set<nat>) returns (r: seq<nat>)
    ensures Increasing(r) && forall i :: i in s <==> i in r
  {
    r := [];
    var todo := s;
    while todo != {}
      invariant todo <= s && Increasing(r)
      invariant forall x, y :: x in r && y in todo ==> x < y
      invariant forall x :: x in s <==> x in todo || x in r
      decreases |todo|
    {
      var m := Least(todo);
      forall k | 0 <= k < |r| ensures r[k] < m {
        assert r[k] in r;
      }
      r := r + [m];
      todo := todo - {m};
    }
  }

  class Assembler {
    var texts: map<nat, string>
    var tools: map<nat, ToolBlock>
    var thoughts: map<nat, ThinkingBlock>
    var stop: StopReason
    var inputTokens: nat
    var outputTokens: nat
    /** What the caller's sink has seen, over all attempts. */
    var emitted: seq<Emission>

    ghost function View(): Blocks
      reads this
    {
      Blocks(texts, tools, thoughts, stop, inputTokens, outputTokens)
    }

    constructor ()
      ensures View() == EMPTY && emitted == []
    {
      texts, tools, thoughts, stop := map[], map[], map[], EndTurn;
      inputTokens, outputTokens, emitted := 0, 0, [];
    }

    method Clear()
      modifies this
      ensures View() == EMPTY && emitted == old(emitted)
    {
      texts, tools, thoughts, stop := map[], map[], map[], EndTurn;
      inputTokens, outputTokens := 0, 0;
    }

    method Emit(e: Emission)
      modifies this`emitted
      ensures emitted == old(emitted) + [e]
    {
      emitted := emitted + [e];
    }

    method Take(e: StreamEvent)
      modifies this
      ensures View() == Feed(old(View()), e)
      ensures emitted == old(emitted) + Emitted(old(View()), e)
    {
      match e {
        case MessageStart(usage) =>
          if usage.Some? {
            inputTokens := OrElse(usage.value, 0);
          }
        case TextStart(i) =>
          texts := texts[i := ""];
        case ToolStart(i, id, name) =>
          Emit(ToolCallStart(i, id, name));
          tools := tools[i := ToolBlock(id, name, "")];
        case ThinkingStart(i) =>
          thoughts := thoughts[i := ThinkingBlock("", "")];
        case TextDelta(i, t) =>
          if i in texts {
            texts := texts[i := texts[i] + t];
          }
          Emit(TextChunk(i, t));
        case JsonDelta(i, t) =>
          if i in tools {
            var block := tools[i];
            tools := tools[i := block.(json := block.json + t)];
            Emit(ToolInputDelta(i, block.id, t));
          }
        case ThinkingDelta(i, t) =>
          if i in thoughts {
            thoughts := thoughts[i := thoughts[i].(text := thoughts[i].text + t)];
          }
          Emit(ThinkingChunk(i, t));
        case SignatureDelta(i, t) =>
          if i in thoughts {
            thoughts := thoughts[i := thoughts[i].(signature := thoughts[i].signature + t)];
          }
        case BlockStop(i) =>
          if i in tools {
            Emit(ToolInputDone(i, tools[i].id));
          }
        case MessageDelta(reason, usage) =>
          stop := StopOf(reason);
          if usage.Some? {
            outputTokens := OrElse(usage.value, outputTokens);
          }
        case _ =>
      }
    }

    method Read(parse: string -> Option<Json>) returns (parts: seq<Part>)
      ensures parts == Assembled(parse, View())
    {
      hide PartAt, Assembled, Increasing;
      var r := Ascending(texts.Keys + tools.Keys + thoughts.Keys);
      parts := [];
      var k := 0;
      while k < |r|
        invariant 0 <= k <= |r|
        invariant parts == PartsOf(parse, View(), r[..k])
      {
        assert r[..k + 1][..k] == r[..k];
        parts := parts + ReadAt(parse, r[k]);
        k := k + 1;
      }
      assert r[..k] == r;
      ReadsAll(parse, View(), r);
    }

    function ReadAt(parse: string -> Option<Json>, i: nat): (part: seq<Part>)
      reads this
      ensures part == PartAt(parse, View(), i)
    {
      if i in texts then (if texts[i] == "" then [] else [Text(texts[i])])
      else if i in tools then
        var input := parse(tools[i].json);
        [ToolCall(tools[i].id, tools[i].name, if input.Some? then input.value else JObject([]))]
      else if i in thoughts && thoughts[i].text != "" then
        [Thinking(thoughts[i].text, if thoughts[i].signature == "" then None else Some(thoughts[i].signature))]
      else []
    }

    /** Consumes one attempt's stream. */
    method Consume(a: Attempt)
      modifies this
      requires View() == EMPTY
      ensures View() == FeedAll(a.events)
      ensures emitted == old(emitted) + EmittedAll(a.events)
    {
      var k := 0;
      assert emitted + [] == emitted;
      while k < |a.events|
        invariant 0 <= k <= |a.events|
        invariant View() == FeedAll(a.events[..k])
        invariant emitted == old(emitted) + EmittedAll(a.events[..k])
      {
        assert a.events[..k + 1][..k] == a.events[..k];
        Assoc(old(emitted), EmittedAll(a.events[..k]), Emitted(View(), a.events[k]));
        Take(a.events[k]);
        k := k + 1;
      }
      assert a.events[..k] == a.events;
    }

    /** The retry loop, and the reply or error it comes to. */
    method Complete(parse: string -> Option<Json>, attempts: nat -> Attempt) returns (r: Result<Response, string>)
      requires View() == EMPTY
      modifies this
      ensures r == Outcome(parse, attempts, 0, None)
    {
      hide FeedAll, EmittedAll, Assembled, PartsBelow;
      var last: Option<string> := None;
      var k: nat := 0;
      while k <= MAX_STREAM_RETRIES
        invariant k <= MAX_STREAM_RETRIES + 1 && (k == 0 <==> last.None?)
        invariant k == 0 ==> View() == EMPTY
        invariant k > 0 ==> Blank(View())
        invariant Outcome(parse, attempts, 0, None) == Outcome(parse, attempts, k, last)
        decreases MAX_STREAM_RETRIES + 1 - k
      {
        if k > 0 {
          Clear();
        }
        var a := attempts(k);
        Consume(a);
        if a.failure.Some? {
          if a.failure.value.retryable && texts == map[] && tools == map[] && thoughts == map[] {
            last := Some(a.failure.value.message);
            k := k + 1;
            continue;
          }
          return Err(a.failure.value.message);
        }
        if texts == map[] && tools == map[] && thoughts == map[] && last.Some? {
          return Err(last.value);
        }
        var parts := Read(parse);
        return Ok(Response(parts, stop, inputTokens, outputTokens));
      }
      return Err(last.value);
    }
  }

  // ---- Index order ----------------------------------------------------------------------------------

  function PartsOf(parse: string -> Option<Json>, b: Blocks, r: seq<nat>): seq<Part> {
    if r == [] then [] else PartsOf(parse, b, r[..|r| - 1]) + PartAt(parse, b, r[|r| - 1])
  }

  predicate AllBelow(r: seq<nat>, n: nat) {
    forall x :: 0 <= x < |r| ==> r[x] < n
  }

  lemma FrontIsBelow(r: seq<nat>, n: nat)
    requires Increasing(r) && n > 0 && AllBelow(r, n)
    ensures r != [] && r[|r| - 1] == n - 1 ==>
              Increasing(r[..|r| - 1]) && r == r[..|r| - 1] + [n - 1] && AllBelow(r[..|r| - 1], n - 1)
    ensures r == [] || r[|r| - 1] != n - 1 ==> AllBelow(r, n - 1)
  {
    forall x | 0 <= x < |r| - 1 ensures r[x] < r[|r| - 1] {
    }
  }

  lemma {:induction false} AscendingReadsInOrder(parse: string -> Option<Json>, b: Blocks, r: seq<nat>, n: nat)
    requires Increasing(r) && AllBelow(r, n)
    requires forall i: nat :: i < n && i in Indices(b) ==> i in r
    ensures PartsOf(parse, b, r) == PartsBelow(parse, b, n)
    decreases n
  {
    hide PartAt, Increasing, Indices;
    if n > 0 {
      FrontIsBelow(r, n);
      if r != [] && r[|r| - 1] == n - 1 {
        AscendingReadsInOrder(parse, b, r[..|r| - 1], n - 1);
      } else {
        hide AllBelow;
        assert n - 1 !in r by {
          NotAmong(r, n - 1);
        }
        NothingElsewhere(parse, b, n - 1);
        AscendingReadsInOrder(parse, b, r, n - 1);
      }
    } else {
      assert r == [];
    }
  }

  lemma ReadsAll(parse: string -> Option<Json>, b: Blocks, r: seq<nat>)
    requires Increasing(r) && forall i :: i in Indices(b) <==> i in r
    ensures PartsOf(parse, b, r) == Assembled(parse, b)
  {
    hide PartsOf, PartsBelow, Indices, Increasing;
    var n := Above(Indices(b));
    forall x | 0 <= x < |r| ensures r[x] < n {
      assert r[x] in r;
    }
    AscendingReadsInOrder(parse, b, r, n);
  }

  lemma NotAmong(r: seq<nat>, n: nat)
    requires AllBelow(r, n)
    ensures n !in r
  {
  }

  lemma NothingElsewhere(parse: string -> Option<Json>, b: Blocks, i: nat)
    requires i !in Indices(b)
    ensures PartAt(parse, b, i) == []
  {
  }

  // ---- Each index by itself --------------------------------------------------------------------------

  function IndexOf(e: StreamEvent): Option<nat> {
    if e.MessageStart? || e.MessageDelta? || e.MessageStop? then None else Some(e.index)
  }

  /** The events of one index, or, for `None`, those of the message as a whole, in order. */
  function Only(at: Option<nat>, events: seq<StreamEvent>): seq<StreamEvent> {
    if events == [] then []
    else
      var last := events[|events| - 1];
      Only(at, events[..|events| - 1]) + if IndexOf(last) == at then [last] else []
  }

  /** What an index has accumulated. */
  datatype Slot = Slot(text: Option<string>, tool: Option<ToolBlock>, thought: Option<ThinkingBlock>)

  function SlotAt(b: Blocks, i: nat): Slot {
    Slot(if i in b.texts then Some(b.texts[i]) else None,
         if i in b.tools then Some(b.tools[i]) else None,
         if i in b.thoughts then Some(b.thoughts[i]) else None)
  }

  /** What an event of an index does to that index's slot. */
  function FeedSlot(slot: Slot, e: StreamEvent): Slot {
    match e
    case TextStart(_) => slot.(text := Some(""))
    case ToolStart(_, id, name) => slot.(tool := Some(ToolBlock(id, name, "")))
    case ThinkingStart(_) => slot.(thought := Some(ThinkingBlock("", "")))
    case TextDelta(_, t) => if slot.text.Some? then slot.(text := Some(slot.text.value + t)) else slot
    case JsonDelta(_, t) =>
      if slot.tool.Some? then slot.(tool := Some(slot.tool.value.(json := slot.tool.value.json + t))) else slot
    case ThinkingDelta(_, t) =>
      if slot.thought.Some? then slot.(thought := Some(slot.thought.value.(text := slot.thought.value.text + t)))
      else slot
    case SignatureDelta(_, t) =>
      if slot.thought.Some? then
        slot.(thought := Some(slot.thought.value.(signature := slot.thought.value.signature + t)))
      else slot
    case _ => slot
  }

  lemma FeedIsLocal(b: Blocks, e: StreamEvent, i: nat)
    requires IndexOf(e) == Some(i)
    ensures SlotAt(Feed(b, e), i) == FeedSlot(SlotAt(b, i), e)
  {
  }

  lemma FeedElsewhere(b: Blocks, e: StreamEvent, i: nat)
    requires IndexOf(e) != Some(i)
    ensures SlotAt(Feed(b, e), i) == SlotAt(b, i)
  {
  }

  lemma {:induction false} SlotIsItsOwn(events: seq<StreamEvent>, i: nat)
    ensures SlotAt(FeedAll(events), i) == SlotAt(FeedAll(Only(Some(i), events)), i)
  {
    hide Feed, SlotAt, IndexOf;
    if events != [] {
      var front, e := events[..|events| - 1], events[|events| - 1];
      SlotIsItsOwn(front, i);
      var own := Only(Some(i), front);
      if IndexOf(e) == Some(i) {
        assert (own + [e])[..|own|] == own && (own + [e])[|own|] == e;
        FeedIsLocal(FeedAll(front), e, i);
        FeedIsLocal(FeedAll(own), e, i);
      } else {
        assert own + [] == own;
        FeedElsewhere(FeedAll(front), e, i);
      }
    }
  }

  /** What the message as a whole has accumulated. */
  function Header(b: Blocks): (StopReason, nat, nat) {
    (b.stop, b.inputTokens, b.outputTokens)
  }

  lemma HeaderIsLocal(b: Blocks, c: Blocks, e: StreamEvent)
    requires Header(b) == Header(c)
    ensures Header(Feed(b, e)) == Header(Feed(c, e))
    ensures IndexOf(e) != None ==> Header(Feed(b, e)) == Header(b)
  {
  }

  lemma {:induction false} HeaderIsItsOwn(events: seq<StreamEvent>)
    ensures Header(FeedAll(events)) == Header(FeedAll(Only(None, events)))
  {
    hide Feed, Header, IndexOf;
    if events != [] {
      var front, e := events[..|events| - 1], events[|events| - 1];
      HeaderIsItsOwn(front);
      var own := Only(None, front);
      HeaderIsLocal(FeedAll(front), FeedAll(own), e);
      if IndexOf(e) == None {
        assert (own + [e])[..|own|] == own && (own + [e])[|own|] == e;
      } else {
        assert own + [] == own;
      }
    }
  }

  lemma SlotsDecide(b: Blocks, c: Blocks)
    requires Header(b) == Header(c) && forall i: nat :: SlotAt(b, i) == SlotAt(c, i)
    ensures b == c
  {
    forall i: nat ensures i in b.texts <==> i in c.texts ensures i in b.tools <==> i in c.tools
      ensures i in b.thoughts <==> i in c.thoughts ensures i in b.texts ==> b.texts[i] == c.texts[i]
      ensures i in b.tools ==> b.tools[i] == c.tools[i] ensures i in b.thoughts ==> b.thoughts[i] == c.thoughts[i]
    {
      assert SlotAt(b, i) == SlotAt(c, i);
    }
    assert b.texts == c.texts && b.tools == c.tools && b.thoughts == c.thoughts;
  }

  /** Interleaving the blocks differently, each index keeping its own order, gives the same reply. */
  lemma ReorderingIsInvisible(parse: string -> Option<Json>, a: seq<StreamEvent>, b: seq<StreamEvent>)
    requires forall at: Option<nat> :: Only(at, a) == Only(at, b)
    ensures ResponseOf(parse, FeedAll(a)) == ResponseOf(parse, FeedAll(b))
  {
    hide Header, SlotAt, FeedAll;
    HeaderIsItsOwn(a);
    HeaderIsItsOwn(b);
    assert Only(None, a) == Only(None, b);
    forall i: nat ensures SlotAt(FeedAll(a), i) == SlotAt(FeedAll(b), i) {
      SlotIsItsOwn(a, i);
      SlotIsItsOwn(b, i);
      assert Only(Some(i), a) == Only(Some(i), b);
    }
    SlotsDecide(FeedAll(a), FeedAll(b));
  }

  // ---- A block is the concatenation of its deltas -------------------------------------------------------

  datatype Lane = TextLane | JsonLane | ThoughtLane | SignatureLane

  function DeltaOf(lane: Lane, e: StreamEvent): string {
    match e
    case TextDelta(_, t) => if lane.TextLane? then t else ""
    case JsonDelta(_, t) => if lane.JsonLane? then t else ""
    case ThinkingDelta(_, t) => if lane.ThoughtLane? then t else ""
    case SignatureDelta(_, t) => if lane.SignatureLane? then t else ""
    case _ => ""
  }

  function Joined(lane: Lane, i: nat, events: seq<StreamEvent>): string {
    if events == [] then ""
    else
      var last := events[|events| - 1];
      Joined(lane, i, events[..|events| - 1]) + if IndexOf(last) == Some(i) then DeltaOf(lane, last) else ""
  }

  predicate Starts(e: StreamEvent, i: nat) {
    (e.TextStart? || e.ToolStart? || e.ThinkingStart? || e.OtherStart?) && e.index == i
  }

  /** The slot after a start, and then only deltas and whatever belongs elsewhere. */
  function Grown(slot: Slot, i: nat, events: seq<StreamEvent>): Slot {
    Slot(
      if slot.text.Some? then Some(slot.text.value + Joined(TextLane, i, events)) else None,
      if slot.tool.None? then None
      else Some(slot.tool.value.(json := slot.tool.value.json + Joined(JsonLane, i, events))),
      if slot.thought.Some? then
        Some(ThinkingBlock(slot.thought.value.text + Joined(ThoughtLane, i, events),
                           slot.thought.value.signature + Joined(SignatureLane, i, events)))
      else None)
  }

  lemma JoinedByOne(lane: Lane, i: nat, front: seq<StreamEvent>, e: StreamEvent, s: string)
    ensures s + Joined(lane, i, front + [e]) ==
            s + Joined(lane, i, front) + if IndexOf(e) == Some(i) then DeltaOf(lane, e) else ""
  {
    assert (front + [e])[..|front|] == front;
    Assoc(s, Joined(lane, i, front), if IndexOf(e) == Some(i) then DeltaOf(lane, e) else "");
  }

  /** An event other than a start adds its delta, if it has one and belongs here. */
  lemma FeedAddsDelta(b: Blocks, e: StreamEvent, i: nat)
    requires IndexOf(e) == Some(i) && !Starts(e, i)
    ensures var slot := SlotAt(b, i);
            SlotAt(Feed(b, e), i) == Slot(
              if slot.text.Some? then Some(slot.text.value + DeltaOf(TextLane, e)) else None,
              if slot.tool.None? then None
              else Some(slot.tool.value.(json := slot.tool.value.json + DeltaOf(JsonLane, e))),
              if slot.thought.Some? then
                Some(ThinkingBlock(slot.thought.value.text + DeltaOf(ThoughtLane, e),
                                   slot.thought.value.signature + DeltaOf(SignatureLane, e)))
              else None)
  {
    forall s: string ensures s + "" == s {
    }
  }

  lemma GrownByOne(b: Blocks, slot: Slot, i: nat, front: seq<StreamEvent>, e: StreamEvent)
    requires SlotAt(b, i) == Grown(slot, i, front) && !Starts(e, i)
    ensures SlotAt(Feed(b, e), i) == Grown(slot, i, front + [e])
  {
    hide SlotAt, Feed, Joined, DeltaOf, Starts;
    if slot.text.Some? {
      JoinedByOne(TextLane, i, front, e, slot.text.value);
    }
    if slot.tool.Some? {
      JoinedByOne(JsonLane, i, front, e, slot.tool.value.json);
    }
    if slot.thought.Some? {
      JoinedByOne(ThoughtLane, i, front, e, slot.thought.value.text);
      JoinedByOne(SignatureLane, i, front, e, slot.thought.value.signature);
    }
    if IndexOf(e) == Some(i) {
      FeedAddsDelta(b, e, i);
    } else {
      FeedElsewhere(b, e, i);
      forall s: string ensures s + "" == s {
      }
    }
  }

  /** Between two starts of an index, its slot grows by exactly its own deltas, in order. */
  lemma {:induction false} BlockIsItsDeltas(b: Blocks, i: nat, events: seq<StreamEvent>)
    requires forall k :: 0 <= k < |events| ==> !Starts(events[k], i)
    ensures SlotAt(FeedOnto(b, events), i) == Grown(SlotAt(b, i), i, events)
  {
    hide SlotAt, Feed, Grown;
    if events == [] {
      GrownByNothing(b, i);
    } else {
      var front, e := events[..|events| - 1], events[|events| - 1];
      BlockIsItsDeltas(b, i, front);
      assert events == front + [e];
      GrownByOne(FeedOnto(b, front), SlotAt(b, i), i, front, e);
    }
  }

  lemma GrownByNothing(b: Blocks, i: nat)
    ensures SlotAt(b, i) == Grown(SlotAt(b, i), i, [])
  {
    forall s: string ensures s + "" == s {
    }
  }

  // ---- What a stream's blocks become --------------------------------------------------------------------

  lemma {:induction false} FeedOntoConcat(b: Blocks, x: seq<StreamEvent>, y: seq<StreamEvent>)
    ensures FeedOnto(b, x + y) == FeedOnto(FeedOnto(b, x), y)
    decreases y
  {
    hide Feed;
    if y == [] {
      assert x + y == x;
    } else {
      var n := |y| - 1;
      assert (x + y)[..|x + y| - 1] == x + y[..n] && (x + y)[|x + y| - 1] == y[n];
      FeedOntoConcat(b, x, y[..n]);
    }
  }

  /** The slot of an index started anew and not again since. */
  lemma SlotSinceStart(front: seq<StreamEvent>, start: StreamEvent, rest: seq<StreamEvent>, i: nat)
    requires Starts(start, i) && forall k :: 0 <= k < |rest| ==> !Starts(rest[k], i)
    ensures SlotAt(FeedAll(front + ([start] + rest)), i) ==
            Grown(FeedSlot(SlotAt(FeedAll(front), i), start), i, rest)
  {
    hide SlotAt, Feed, Grown, FeedSlot, FeedOnto;
    var b := FeedAll(front);
    FeedOntoConcat(EMPTY, front, [start] + rest);
    FeedOntoConcat(b, [start], rest);
    FedOne(b, start);
    FeedIsLocal(b, start, i);
    BlockIsItsDeltas(Feed(b, start), i, rest);
  }

  lemma FedOne(b: Blocks, e: StreamEvent)
    ensures FeedOnto(b, [e]) == Feed(b, e)
  {
    assert [e][..0] == [];
  }

  /**
    A tool block becomes the call of its own id and name, on what its JSON deltas make when
    joined, or on an empty object when they do not parse.
   */
  lemma ToolBlockBecomesCall(
      parse: string -> Option<Json>, front: seq<StreamEvent>, i: nat, id: string, name: string,
      rest: seq<StreamEvent>)
    requires i !in FeedAll(front).texts && forall k :: 0 <= k < |rest| ==> !Starts(rest[k], i)
    ensures var input := parse(Joined(JsonLane, i, rest));
            PartAt(parse, FeedAll(front + ([ToolStart(i, id, name)] + rest)), i) ==
            [ToolCall(id, name, if input.Some? then input.value else JObject([]))]
  {
    hide FeedAll, Joined, Feed;
    SlotSinceStart(front, ToolStart(i, id, name), rest, i);
    var b := FeedAll(front + ([ToolStart(i, id, name)] + rest));
    NothingBefore(Joined(JsonLane, i, rest));
    assert SlotAt(b, i).tool == Some(ToolBlock(id, name, Joined(JsonLane, i, rest)));
    assert SlotAt(b, i).text == None by {
      assert SlotAt(FeedAll(front), i).text == None;
    }
  }

  lemma NothingBefore(s: string)
    ensures "" + s == s
  {
  }

  /** A text block becomes its deltas joined, or nothing if they are empty. */
  lemma TextBlockBecomesText(
      parse: string -> Option<Json>, front: seq<StreamEvent>, i: nat, rest: seq<StreamEvent>)
    requires forall k :: 0 <= k < |rest| ==> !Starts(rest[k], i)
    ensures var text := Joined(TextLane, i, rest);
            PartAt(parse, FeedAll(front + ([TextStart(i)] + rest)), i) == if text == "" then [] else [Text(text)]
  {
    hide FeedAll, Joined, Feed;
    SlotSinceStart(front, TextStart(i), rest, i);
    var b := FeedAll(front + ([TextStart(i)] + rest));
    NothingBefore(Joined(TextLane, i, rest));
    assert SlotAt(b, i).text == Some(Joined(TextLane, i, rest));
  }

  /** A thinking block becomes its deltas joined, signed if any signature came, or nothing without a text. */
  lemma ThinkingBlockBecomesThought(
      parse: string -> Option<Json>, front: seq<StreamEvent>, i: nat, rest: seq<StreamEvent>)
    requires i !in FeedAll(front).texts && i !in FeedAll(front).tools
    requires forall k :: 0 <= k < |rest| ==> !Starts(rest[k], i)
    ensures var thought, signature := Joined(ThoughtLane, i, rest), Joined(SignatureLane, i, rest);
            PartAt(parse, FeedAll(front + ([ThinkingStart(i)] + rest)), i) ==
            if thought == "" then []
            else [Thinking(thought, if signature == "" then None else Some(signature))]
  {
    hide FeedAll, Joined, Feed;
    SlotSinceStart(front, ThinkingStart(i), rest, i);
    var b := FeedAll(front + ([ThinkingStart(i)] + rest));
    NothingBefore(Joined(ThoughtLane, i, rest));
    NothingBefore(Joined(SignatureLane, i, rest));
    assert SlotAt(b, i).thought == Some(ThinkingBlock(Joined(ThoughtLane, i, rest), Joined(SignatureLane, i, rest)));
    assert SlotAt(b, i).text == None && SlotAt(b, i).tool == None by {
      assert SlotAt(FeedAll(front), i).text == None && SlotAt(FeedAll(front), i).tool == None;
    }
  }

  /** The caller's sink hears of a tool's input under the id that its block was started with. */
  lemma ToolInputIsShown(
      front: seq<StreamEvent>, i: nat, id: string, name: string, rest: seq<StreamEvent>, text: string)
    requires forall k :: 0 <= k < |rest| ==> !Starts(rest[k], i)
    ensures var events := front + ([ToolStart(i, id, name)] + rest);
            && Emitted(FeedAll(front), ToolStart(i, id, name)) == [ToolCallStart(i, id, name)]
            && Emitted(FeedAll(events), JsonDelta(i, text)) == [ToolInputDelta(i, id, text)]
            && Emitted(FeedAll(events), BlockStop(i)) == [ToolInputDone(i, id)]
  {
    hide FeedAll, Joined, Feed;
    SlotSinceStart(front, ToolStart(i, id, name), rest, i);
    assert SlotAt(FeedAll(front + ([ToolStart(i, id, name)] + rest)), i).tool.Some?;
  }

  /** Texts and thoughts are passed on as they come. */
  lemma TextsAreShown(b: Blocks, i: nat, text: string)
    ensures Emitted(b, TextDelta(i, text)) == [TextChunk(i, text)]
    ensures Emitted(b, ThinkingDelta(i, text)) == [ThinkingChunk(i, text)]
  {
  }

  /** The parts of the indices from `m` up to `n`, in index order. */
  function PartsBetween(parse: string -> Option<Json>, b: Blocks, m: nat, n: nat): seq<Part>
    requires m <= n
  {
    if m == n then [] else PartsBetween(parse, b, m, n - 1) + PartAt(parse, b, n - 1)
  }

  lemma {:induction false} PartsSplit(parse: string -> Option<Json>, b: Blocks, m: nat, n: nat)
    requires m <= n
    ensures PartsBelow(parse, b, n) == PartsBelow(parse, b, m) + PartsBetween(parse, b, m, n)
  {
    hide PartAt;
    if m == n {
      assert PartsBelow(parse, b, m) + [] == PartsBelow(parse, b, m);
    } else {
      PartsSplit(parse, b, m, n - 1);
      Assoc(PartsBelow(parse, b, m), PartsBetween(parse, b, m, n - 1), PartAt(parse, b, n - 1));
    }
  }

  /** The part of a lower index stands before that of a higher one. */
  lemma LowerIndexComesFirst(parse: string -> Option<Json>, b: Blocks, i: nat, j: nat)
    returns (x: seq<Part>, y: seq<Part>, z: seq<Part>)
    requires i < j && i in Indices(b) && j in Indices(b)
    ensures Assembled(parse, b) == x + (PartAt(parse, b, i) + (y + (PartAt(parse, b, j) + z)))
  {
    hide PartAt, Indices;
    var n := Above(Indices(b));
    x, y, z := PartsBelow(parse, b, i), PartsBetween(parse, b, i + 1, j), PartsBetween(parse, b, j + 1, n);
    PartsSplit(parse, b, j + 1, n);
    PartsSplit(parse, b, i + 1, j);
    Assoc(x, PartAt(parse, b, i), y);
    var front := PartAt(parse, b, i) + y;
    Assoc(x + front, PartAt(parse, b, j), z);
    Assoc(x, front, PartAt(parse, b, j) + z);
    Assoc(PartAt(parse, b, i), y, PartAt(parse, b, j) + z);
  }

  // ---- The header -----------------------------------------------------------------------------------------

  lemma {:induction false} HeaderStays(b: Blocks, events: seq<StreamEvent>)
    ensures (forall k :: 0 <= k < |events| ==> !events[k].MessageDelta?) ==>
              var c := FeedOnto(b, events); c.stop == b.stop && c.outputTokens == b.outputTokens
    ensures (forall k :: 0 <= k < |events| ==> !events[k].MessageStart?) ==>
              FeedOnto(b, events).inputTokens == b.inputTokens
  {
    if events != [] {
      HeaderStays(b, events[..|events| - 1]);
    }
  }

  /**
    The last message delta decides why the message stopped, and how many tokens it put out if
    it says so; a missing count leaves the last one.
   */
  lemma LastDeltaDecides(
      front: seq<StreamEvent>, stop: Option<string>, usage: Option<Option<nat>>, rest: seq<StreamEvent>)
    requires forall k :: 0 <= k < |rest| ==> !rest[k].MessageDelta?
    ensures var b := FeedAll(front + ([MessageDelta(stop, usage)] + rest));
            && (b.stop == ToolUse <==> stop == Some("tool_use"))
            && (b.stop == MaxTokens <==> stop == Some("max_tokens"))
            && b.outputTokens ==
               if usage.Some? && usage.value.Some? then usage.value.value else FeedAll(front).outputTokens
  {
    hide FeedOnto;
    var e := MessageDelta(stop, usage);
    FeedOntoConcat(EMPTY, front, [e] + rest);
    FeedOntoConcat(FeedAll(front), [e], rest);
    FedOne(FeedAll(front), e);
    HeaderStays(Feed(FeedAll(front), e), rest);
  }

  /** The last message start that reports usage decides how many tokens went in. */
  lemma LastStartDecides(front: seq<StreamEvent>, tokens: Option<nat>, rest: seq<StreamEvent>)
    requires forall k :: 0 <= k < |rest| ==> !rest[k].MessageStart?
    ensures FeedAll(front + ([MessageStart(Some(tokens))] + rest)).inputTokens ==
            if tokens.Some? then tokens.value else 0
  {
    hide FeedOnto;
    var e := MessageStart(Some(tokens));
    FeedOntoConcat(EMPTY, front, [e] + rest);
    FeedOntoConcat(FeedAll(front), [e], rest);
    FedOne(FeedAll(front), e);
    HeaderStays(Feed(FeedAll(front), e), rest);
  }

  /** A stream that says nothing of it stopped because the turn ended, and counted nothing. */
  lemma SilentHeader(events: seq<StreamEvent>)
    requires forall k :: 0 <= k < |events| ==> !events[k].MessageDelta? && !events[k].MessageStart?
    ensures var b := FeedAll(events); b.stop == EndTurn && b.inputTokens == 0 && b.outputTokens == 0
  {
    HeaderStays(EMPTY, events);
  }

  /** The reply carries the parts, the stop reason and the two counts, each its own. */
  lemma ReplyCarriesHeader(parse: string -> Option<Json>, events: seq<StreamEvent>)
    ensures var b, r := FeedAll(events), ResponseOf(parse, FeedAll(events));
            r.stop == b.stop && r.inputTokens == b.inputTokens && r.outputTokens == b.outputTokens
  {
  }

  // ---- Retries -----------------------------------------------------------------------------------------------

  /** Attempt `k` is reached and ends cleanly, with something to show for it unless it is the first. */
  predicate Delivers(attempts: nat -> Attempt, k: nat) {
    && (forall j :: 0 <= j < k ==> Retried(attempts(j)))
    && attempts(k).failure.None?
    && (k == 0 || !Blank(FeedAll(attempts(k).events)))
  }

  lemma {:induction false} OutcomeFrom(
      parse: string -> Option<Json>, attempts: nat -> Attempt, k: nat, last: Option<string>) returns (d: nat)
    requires k <= MAX_STREAM_RETRIES + 1 && (k == 0 <==> last.None?)
    requires forall j :: 0 <= j < k ==> Retried(attempts(j))
    ensures k <= d
    ensures Outcome(parse, attempts, k, last).Ok? ==>
              && d <= MAX_STREAM_RETRIES && Delivers(attempts, d)
              && Outcome(parse, attempts, k, last) == Ok(ResponseOf(parse, FeedAll(attempts(d).events)))
    ensures Outcome(parse, attempts, k, last).Err? ==>
              forall x: nat :: k <= x <= MAX_STREAM_RETRIES ==> !Delivers(attempts, x)
    decreases MAX_STREAM_RETRIES + 1 - k
  {
    hide FeedAll, ResponseOf;
    d := k;
    if k <= MAX_STREAM_RETRIES {
      if Retried(attempts(k)) {
        d := OutcomeFrom(parse, attempts, k + 1, Some(attempts(k).failure.value.message));
        assert !Delivers(attempts, k);
      } else {
        forall x: nat | k < x <= MAX_STREAM_RETRIES ensures !Delivers(attempts, x) {
          assert !Retried(attempts(k));
        }
      }
    }
  }

  /**
    The reply is that of the last attempt made and of no other: it comes from the first
    attempt that was not retried, one of at most seven, if that ended cleanly and, after a
    retry, streamed at least one block. Otherwise there is an error.
   */
  lemma OkDependsOnLastAttempt(parse: string -> Option<Json>, attempts: nat -> Attempt) returns (d: nat)
    ensures Outcome(parse, attempts, 0, None).Ok? <==>
            exists k: nat :: k <= MAX_STREAM_RETRIES && Delivers(attempts, k)
    ensures Outcome(parse, attempts, 0, None).Ok? ==>
              && d <= MAX_STREAM_RETRIES && Delivers(attempts, d)
              && Outcome(parse, attempts, 0, None) == Ok(ResponseOf(parse, FeedAll(attempts(d).events)))
  {
    hide Outcome, Delivers, ResponseOf, FeedAll;
    d := OutcomeFrom(parse, attempts, 0, None);
  }

  lemma {:induction false} ErrorFrom(
      parse: string -> Option<Json>, attempts: nat -> Attempt, k: nat, last: Option<string>) returns (d: nat)
    requires k <= MAX_STREAM_RETRIES + 1 && (k > 0 ==> last.Some?)
    ensures k <= d <= MAX_STREAM_RETRIES + 1 && forall j :: k <= j < d ==> Retried(attempts(j))
    ensures Outcome(parse, attempts, k, last).Err? ==>
              var message := Outcome(parse, attempts, k, last).error;
              if d <= MAX_STREAM_RETRIES && !Retried(attempts(d)) && attempts(d).failure.Some? then
                message == attempts(d).failure.value.message
              else
                && (d > MAX_STREAM_RETRIES || (attempts(d).failure.None? && Blank(FeedAll(attempts(d).events))))
                && if d == k then last == Some(message)
                   else attempts(d - 1).failure.Some? && message == attempts(d - 1).failure.value.message
    decreases MAX_STREAM_RETRIES + 1 - k
  {
    hide FeedAll, ResponseOf;
    d := k;
    if k <= MAX_STREAM_RETRIES && Retried(attempts(k)) {
      d := ErrorFrom(parse, attempts, k + 1, Some(attempts(k).failure.value.message));
    }
  }

  /**
    An error is that of the first attempt that was not retried; or, if that streamed nothing
    and yet ended cleanly, or all seven were retried, that of the attempt before.
   */
  lemma ErrorsSayWhy(parse: string -> Option<Json>, attempts: nat -> Attempt) returns (d: nat)
    requires Outcome(parse, attempts, 0, None).Err?
    ensures d <= MAX_STREAM_RETRIES + 1 && forall j :: 0 <= j < d ==> Retried(attempts(j))
    ensures var message := Outcome(parse, attempts, 0, None).error;
            if d <= MAX_STREAM_RETRIES && !Retried(attempts(d)) && attempts(d).failure.Some? then
              message == attempts(d).failure.value.message
            else
              && d > 0 && attempts(d - 1).failure.Some? && message == attempts(d - 1).failure.value.message
              && (d > MAX_STREAM_RETRIES || (attempts(d).failure.None? && Blank(FeedAll(attempts(d).events))))
  {
    hide Outcome, Retried, FeedAll;
    d := ErrorFrom(parse, attempts, 0, None);
  }

  /** The smallest case of an error reported for a stream that ended cleanly: one retry, then no blocks. */
  lemma EmptyReplyAfterRetry(parse: string -> Option<Json>, attempts: nat -> Attempt)
    requires attempts(0) == Attempt([], Some(StreamError(true, "overloaded")))
    requires attempts(1) == Attempt([MessageStop], None)
    ensures Outcome(parse, attempts, 0, None) == Err("overloaded")
  {
    assert [MessageStop][..0] == [];
    assert FeedAll([MessageStop]) == Feed(FeedAll([]), MessageStop);
  }

  /** A text or thinking delta, which is passed on whether or not its block was started. */
  predicate PassedOn(e: StreamEvent) {
    e.TextDelta? || e.ThinkingDelta?
  }

  /** Every such delta follows the start of its block. */
  predicate DeltasFollowStarts(events: seq<StreamEvent>) {
    forall k :: 0 <= k < |events| && PassedOn(events[k]) ==>
      exists j :: 0 <= j < k && Starts(events[j], events[k].index) && !events[j].OtherStart?
  }

  lemma {:induction false} BlankMeansNoStarts(events: seq<StreamEvent>, j: nat)
    requires j < |events| && Blank(FeedAll(events))
    ensures !events[j].TextStart? && !events[j].ToolStart? && !events[j].ThinkingStart?
    ensures Blank(FeedAll(events[..|events| - 1]))
  {
    var n := |events| - 1;
    var b, e := FeedAll(events[..n]), events[n];
    StartLeavesAMark(b, e);
    if j < n {
      BlankMeansNoStarts(events[..n], j);
    }
  }

  lemma StartLeavesAMark(b: Blocks, e: StreamEvent)
    ensures e.TextStart? || e.ToolStart? || e.ThinkingStart? ==> !Blank(Feed(b, e))
    ensures Blank(Feed(b, e)) ==> Blank(b)
  {
    var c := Feed(b, e);
    assert b.texts.Keys <= c.texts.Keys && b.tools.Keys <= c.tools.Keys && b.thoughts.Keys <= c.thoughts.Keys;
    match e {
      case TextStart(i) => assert i in c.texts;
      case ToolStart(i, _, _) => assert i in c.tools;
      case ThinkingStart(i) => assert i in c.thoughts;
      case _ =>
    }
  }

  lemma {:induction false} SilentIffNothingPassedOn(events: seq<StreamEvent>)
    requires Blank(FeedAll(events))
    ensures EmittedAll(events) == [] <==> forall k :: 0 <= k < |events| ==> !PassedOn(events[k])
  {
    if events != [] {
      var n := |events| - 1;
      var b, e := FeedAll(events[..n]), events[n];
      StartLeavesAMark(b, e);
      SilentIffNothingPassedOn(events[..n]);
      assert Emitted(b, e) == [] <==> !PassedOn(e);
      assert forall k :: 0 <= k < n ==> events[..n][k] == events[k];
    }
  }

  /** In streams whose deltas follow their starts, an attempt that is retried has shown the caller nothing. */
  lemma RetriedAttemptsShowNothing(a: Attempt)
    requires Retried(a)
    ensures EmittedAll(a.events) == [] <==> forall k :: 0 <= k < |a.events| ==> !PassedOn(a.events[k])
    ensures DeltasFollowStarts(a.events) ==> EmittedAll(a.events) == []
  {
    SilentIffNothingPassedOn(a.events);
    forall k | 0 <= k < |a.events| && DeltasFollowStarts(a.events) ensures !PassedOn(a.events[k]) {
      if PassedOn(a.events[k]) {
        var j :| 0 <= j < k && Starts(a.events[j], a.events[k].index) && !a.events[j].OtherStart?;
        BlankMeansNoStarts(a.events, j);
      }
    }
  }
}
