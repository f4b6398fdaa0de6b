/**
  The line format of the file journal: one batch per line, each line the base64 of a
  JSON array (sections 5 and 7 of RFC 8259) of the events' own base64 texts.
 */
module Framing {
  import opened Common
  import opened Base64

  const NEWLINE: byte := 10
  const QUOTE: byte := 34
  const BACKSLASH: byte := 92
  const COMMA: byte := 44
  const OPEN: byte := 91
  const CLOSE: byte := 93

  // ---- JSON arrays of strings -------------------------------------------------

  /** A byte that stands for itself inside a JSON string. */
  predicate Plain(c: byte) {
    32 <= c < 128 && c != QUOTE && c != BACKSLASH
  }

  predicate AllPlain(text: Bytes) {
    forall i :: 0 <= i < |text| ==> Plain(text[i])
  }

  predicate Blank(c: byte) {
    c == 32 || c == 9 || c == 10 || c == 13
  }

  /** Where a reader of an array of strings stands, with the strings read so far. */
  datatype Reader =
    | Before
    | Opened
    | InString(done: seq<Bytes>, current: Bytes)
    | AfterString(done: seq<Bytes>)
    | AfterComma(done: seq<Bytes>)
    | Closed(done: seq<Bytes>)
    | Broken

  function Read(r: Reader, c: byte): Reader {
    match r
    case Before => if Blank(c) then r else if c == OPEN then Opened else Broken
    case Opened =>
      if Blank(c) then r else if c == QUOTE then InString([], [])
      else if c == CLOSE then Closed([]) else Broken
    case InString(done, current) =>
      if c == QUOTE then AfterString(done + [current])
      else if Plain(c) then InString(done, current + [c]) else Broken
    case AfterString(done) =>
      if Blank(c) then r else if c == COMMA then AfterComma(done)
      else if c == CLOSE then Closed(done) else Broken
    case AfterComma(done) =>
      if Blank(c) then r else if c == QUOTE then InString(done, []) else Broken
    case Closed(_) => if Blank(c) then r else Broken
    case Broken => Broken
  }

  function ReadAll(r: Reader, text: Bytes): Reader
    decreases text
  {
    if text == [] then r else ReadAll(Read(r, text[0]), text[1..])
  }

  function ParseStrings(text: Bytes): Option<seq<Bytes>> {
    var r := ReadAll(Before, text);
    if r.Closed? then Some(r.done) else None
  }

  function Quoted(s: Bytes): Bytes {
    [QUOTE] + s + [QUOTE]
  }

  /** The strings after the first, each behind its comma. */
  function RestOfArray(strings: seq<Bytes>): Bytes {
    if strings == [] then [CLOSE] else [COMMA] + Quoted(strings[0]) + RestOfArray(strings[1..])
  }

  function PrintStrings(strings: seq<Bytes>): Bytes {
    if strings == [] then [OPEN, CLOSE] else [OPEN] + Quoted(strings[0]) + RestOfArray(strings[1..])
  }

  lemma {:induction false} ReadAllConcat(r: Reader, a: Bytes, b: Bytes)
    ensures ReadAll(r, a + b) == ReadAll(ReadAll(r, a), b)
    decreases a
  {
    if a == [] {
      assert a + b == b;
    } else {
      assert (a + b)[1..] == a[1..] + b;
      ReadAllConcat(Read(r, a[0]), a[1..], b);
    }
  }

  lemma {:induction false} ReadPlain(done: seq<Bytes>, current: Bytes, s: Bytes)
    requires AllPlain(s)
    ensures ReadAll(InString(done, current), s) == InString(done, current + s)
    decreases s
  {
    if s == [] {
      assert current + s == current;
    } else {
      ReadPlain(done, current + [s[0]], s[1..]);
      assert current + [s[0]] + s[1..] == current + s;
    }
  }

  lemma ReadOne(r: Reader, c: byte)
    ensures ReadAll(r, [c]) == Read(r, c)
  {
    assert [c][1..] == [];
  }

  lemma ReadQuoted(r: Reader, s: Bytes, done: seq<Bytes>)
    requires AllPlain(s)
    requires Read(r, QUOTE) == InString(done, [])
    ensures ReadAll(r, Quoted(s)) == AfterString(done + [s])
  {
    assert Quoted(s) == [QUOTE] + (s + [QUOTE]);
    ReadAllConcat(r, [QUOTE], s + [QUOTE]);
    ReadOne(r, QUOTE);
    ReadAllConcat(InString(done, []), s, [QUOTE]);
    ReadPlain(done, [], s);
    assert [] + s == s;
    ReadOne(InString(done, s), QUOTE);
  }

  lemma {:induction false} ReadRest(done: seq<Bytes>, strings: seq<Bytes>)
    requires forall s :: s in strings ==> AllPlain(s)
    ensures ReadAll(AfterString(done), RestOfArray(strings)) == Closed(done + strings)
    decreases strings
  {
    var r := AfterString(done);
    if strings == [] {
      ReadOne(r, CLOSE);
      assert done + strings == done;
    } else {
      var tail := RestOfArray(strings[1..]);
      assert RestOfArray(strings) == [COMMA] + (Quoted(strings[0]) + tail);
      ReadAllConcat(r, [COMMA], Quoted(strings[0]) + tail);
      ReadOne(r, COMMA);
      ReadAllConcat(AfterComma(done), Quoted(strings[0]), tail);
      ReadQuoted(AfterComma(done), strings[0], done);
      ReadRest(done + [strings[0]], strings[1..]);
      assert done + [strings[0]] + strings[1..] == done + strings;
    }
  }

  /** Parsing inverts printing for strings that need no escape. */
  lemma ParsePrint(strings: seq<Bytes>)
    requires forall s :: s in strings ==> AllPlain(s)
    ensures ParseStrings(PrintStrings(strings)) == Some(strings)
  {
    if strings == [] {
      ReadAllConcat(Before, [OPEN], [CLOSE]);
      assert [OPEN] + [CLOSE] == [OPEN, CLOSE];
      ReadOne(Before, OPEN);
      ReadOne(Opened, CLOSE);
    } else {
      var tail := RestOfArray(strings[1..]);
      assert PrintStrings(strings) == [OPEN] + (Quoted(strings[0]) + tail);
      ReadAllConcat(Before, [OPEN], Quoted(strings[0]) + tail);
      ReadOne(Before, OPEN);
      ReadAllConcat(Opened, Quoted(strings[0]), tail);
      ReadQuoted(Opened, strings[0], []);
      assert [] + [strings[0]] == [strings[0]];
      ReadRest([strings[0]], strings[1..]);
      assert [strings[0]] + strings[1..] == strings;
    }
  }

  lemma {:induction false} BrokenStays(text: Bytes)
    ensures ReadAll(Broken, text) == Broken
  {
    if text != [] {
      BrokenStays(text[1..]);
    }
  }

  lemma {:induction false} NeverBackToStart(r: Reader, text: Bytes)
    requires r != Before
    ensures ReadAll(r, text) != Before
    decreases text
  {
    if text != [] {
      NeverBackToStart(Read(r, text[0]), text[1..]);
    }
  }

  lemma ArrayStart(strings: seq<Bytes>) returns (rest: Bytes)
    requires strings != []
    ensures PrintStrings(strings) ==
            [OPEN] + ([QUOTE] + ([if strings[0] == [] then QUOTE else strings[0][0]] + rest))
  {
    hide RestOfArray;
    var s, tail := strings[0], RestOfArray(strings[1..]);
    var third := if s == [] then QUOTE else s[0];
    var inner := s + [QUOTE];
    rest := inner[1..] + tail;
    assert inner == [third] + inner[1..];
    Assoc([QUOTE], s, [QUOTE]);
    Assoc([OPEN], [QUOTE] + inner, tail);
    Assoc([QUOTE], inner, tail);
    Assoc([third], inner[1..], tail);
  }

  /** A second array never continues a first one, wherever the first was cut. */
  lemma SecondArrayBreaks(r: Reader, strings: seq<Bytes>)
    requires r != Before && strings != [] && AllPlain(strings[0])
    requires strings[0] != [] ==> !Blank(strings[0][0]) && strings[0][0] != COMMA && strings[0][0] != CLOSE
    ensures ReadAll(r, PrintStrings(strings)) == Broken
  {
    hide ReadAll, Read, PrintStrings;
    var third := if strings[0] == [] then QUOTE else strings[0][0];
    var one := Read(r, OPEN);
    var two := Read(one, QUOTE);
    var rest := ArrayStart(strings);
    ReadAllConcat(r, [OPEN], [QUOTE] + ([third] + rest));
    ReadOne(r, OPEN);
    ReadAllConcat(one, [QUOTE], [third] + rest);
    ReadOne(one, QUOTE);
    ReadAllConcat(two, [third], rest);
    ReadOne(two, third);
    ThirdByteBreaks(r, third);
    BrokenStays(rest);
  }

  lemma ThirdByteBreaks(r: Reader, third: byte)
    requires r != Before && (!Blank(third) && third != COMMA && third != CLOSE)
    ensures Read(Read(Read(r, OPEN), QUOTE), third) == Broken
  {
  }

  // ---- Batches and lines ------------------------------------------------------

  function EncodeEach(events: seq<Bytes>): (r: seq<Bytes>)
    ensures |r| == |events|
    ensures forall i :: 0 <= i < |r| ==> r[i] == Encode(events[i])
  {
    if events == [] then [] else [Encode(events[0])] + EncodeEach(events[1..])
  }

  function BatchJson(events: seq<Bytes>): Bytes {
    PrintStrings(EncodeEach(events))
  }

  /** A batch's line without its newline. */
  function LineBody(events: seq<Bytes>): Bytes {
    Encode(BatchJson(events))
  }

  function Line(events: seq<Bytes>): Bytes {
    LineBody(events) + [NEWLINE]
  }

  /** On disk, the batch of the two events `f` and `fo` is one line: the base64 of `["Zg==","Zm8="]`, and a newline. */
  lemma LineOnDisk()
    ensures BatchJson([[102], [102, 111]]) ==
            [91, 34, 90, 103, 61, 61, 34, 44, 34, 90, 109, 56, 61, 34, 93]
    ensures Line([[102], [102, 111]]) ==
            [87, 121, 74, 97, 90, 122, 48, 57, 73, 105, 119, 105]
            + [87, 109, 48, 52, 80, 83, 74, 100, 10]
  {
    hide Encode;
    StandardVectors();
    var strings := EncodeEach([[102], [102, 111]]);
    assert strings == [[90, 103, PAD, PAD], [90, 109, 56, PAD]];
    JsonOfTwo(strings[0], strings[1]);
    var json := BatchJson([[102], [102, 111]]);
    assert strings == [strings[0]] + [strings[1]];
    JsonBytes(json);
  }

  lemma JsonOfTwo(a: Bytes, b: Bytes)
    ensures PrintStrings([a, b]) == [OPEN] + Quoted(a) + ([COMMA] + Quoted(b) + [CLOSE])
  {
    hide Quoted;
    var rest: seq<Bytes> := [b];
    assert [a, b][1..] == rest && rest[1..] == [];
    assert RestOfArray([]) == [CLOSE];
    assert RestOfArray(rest) == [COMMA] + Quoted(b) + [CLOSE];
  }

  lemma JsonBytes(json: Bytes)
    requires json == [91, 34, 90, 103, 61, 61, 34, 44, 34, 90, 109, 56, 61, 34, 93]
    ensures Encode(json) ==
            [87, 121, 74, 97, 90, 122, 48, 57, 73, 105, 119, 105]
            + [87, 109, 48, 52, 80, 83, 74, 100]
  {
    EncodeStep(json);
    EncodeStep(json[3..]);
    EncodeStep(json[6..]);
    EncodeStep(json[9..]);
    EncodeStep(json[12..]);
    assert json[3..] == json[3..];
    assert json[3..][3..] == json[6..];
    assert json[6..][3..] == json[9..];
    assert json[9..][3..] == json[12..];
    assert json[12..][3..] == [];
  }

  function Lines(batches: seq<seq<Bytes>>): Bytes {
    if batches == [] then [] else Line(batches[0]) + Lines(batches[1..])
  }

  /** What a reader takes from one line: the events before the first bad one, and whether all were good. */
  datatype LineContent = LineContent(events: seq<Bytes>, intact: bool)

  function DecodeEach(strings: seq<Bytes>): LineContent {
    if strings == [] then LineContent([], true)
    else if Decode(strings[0]).None? then LineContent([], false)
    else
      var rest := DecodeEach(strings[1..]);
      LineContent([Decode(strings[0]).value] + rest.events, rest.intact)
  }

  function DecodeLine(line: Bytes): LineContent {
    if line == [] || Decode(line).None? || ParseStrings(Decode(line).value).None? then LineContent([], false)
    else DecodeEach(ParseStrings(Decode(line).value).value)
  }

  /** The events up to the first line that is not intact. */
  function DecodeLines(lines: seq<Bytes>): seq<Bytes> {
    if lines == [] then []
    else
      var first := DecodeLine(lines[0]);
      if first.intact then first.events + DecodeLines(lines[1..]) else first.events
  }

  predicate NoNewline(text: Bytes) {
    NEWLINE !in text
  }

  /** The lines that a newline ends; whatever follows the last newline is left out. */
  function CompleteLines(content: Bytes): seq<Bytes> {
    SplitFrom(content, [])
  }

  function SplitFrom(content: Bytes, pending: Bytes): seq<Bytes> {
    if content == [] then []
    else if content[0] == NEWLINE then [pending] + SplitFrom(content[1..], [])
    else SplitFrom(content[1..], pending + [content[0]])
  }

  /** Every event a file yields, from sequence number 1. */
  function Recovered(content: Bytes): seq<Bytes> {
    DecodeLines(CompleteLines(content))
  }

  function After<T>(events: seq<T>, n: nat): seq<T> {
    if n <= |events| then events[n..] else []
  }

  lemma AlphabetIsPlain(c: byte)
    requires InAlphabet(c)
    ensures Plain(c) && !Blank(c) && c != COMMA && c != CLOSE && c != NEWLINE
  {
  }

  lemma EncodedIsPlain(data: Bytes)
    ensures AllPlain(Encode(data)) && NoNewline(Encode(data))
    ensures forall i :: 0 <= i < |Encode(data)| ==>
              var c := Encode(data)[i]; !Blank(c) && c != COMMA && c != CLOSE
  {
    EncodeShape(data);
    forall i | 0 <= i < |Encode(data)|
      ensures var c := Encode(data)[i]; Plain(c) && !Blank(c) && c != COMMA && c != CLOSE && c != NEWLINE
    {
      AlphabetIsPlain(Encode(data)[i]);
    }
  }

  lemma {:induction false} DecodeEncodeEach(events: seq<Bytes>)
    ensures DecodeEach(EncodeEach(events)) == LineContent(events, true)
  {
    if events != [] {
      RoundTrip(events[0]);
      DecodeEncodeEach(events[1..]);
      assert EncodeEach(events)[1..] == EncodeEach(events[1..]);
    }
  }

  lemma BatchJsonParses(events: seq<Bytes>)
    ensures ParseStrings(BatchJson(events)) == Some(EncodeEach(events))
  {
    forall s | s in EncodeEach(events) ensures AllPlain(s) {
      var i :| 0 <= i < |events| && s == Encode(events[i]);
      EncodedIsPlain(events[i]);
    }
    ParsePrint(EncodeEach(events));
  }

  lemma BatchJsonIsSomething(events: seq<Bytes>)
    ensures BatchJson(events) != []
  {
    hide EncodeEach;
  }

  lemma LineBodyDecodes(events: seq<Bytes>)
    ensures LineBody(events) != [] && DecodeLine(LineBody(events)) == LineContent(events, true)
  {
    hide Encode, Decode, BatchJson, ParseStrings, DecodeEach;
    EncodeShape(BatchJson(events));
    BatchJsonIsSomething(events);
    RoundTrip(BatchJson(events));
    BatchJsonParses(events);
    DecodeEncodeEach(events);
  }

  lemma {:induction false} SplitAtNewline(text: Bytes, rest: Bytes, pending: Bytes)
    requires NoNewline(text)
    ensures SplitFrom(text + [NEWLINE] + rest, pending) == [pending + text] + SplitFrom(rest, [])
  {
    var whole := text + [NEWLINE] + rest;
    if text == [] {
      assert whole[1..] == rest;
      assert pending + text == pending;
    } else {
      assert whole[1..] == text[1..] + [NEWLINE] + rest;
      SplitAtNewline(text[1..], rest, pending + [text[0]]);
      assert pending + [text[0]] + text[1..] == pending + text;
    }
  }

  lemma {:induction false} SplitTail(text: Bytes, pending: Bytes)
    requires NoNewline(text)
    ensures SplitFrom(text, pending) == []
  {
    if text != [] {
      SplitTail(text[1..], pending + [text[0]]);
    }
  }

  lemma FirstLine(text: Bytes, rest: Bytes)
    requires NoNewline(text)
    ensures CompleteLines(text + [NEWLINE] + rest) == [text] + CompleteLines(rest)
    ensures Recovered(text + [NEWLINE] + rest) ==
            if DecodeLine(text).intact then DecodeLine(text).events + Recovered(rest) else DecodeLine(text).events
  {
    hide NoNewline, SplitFrom, DecodeLine;
    SplitAtNewline(text, rest, []);
    assert [] + text == text;
    assert ([text] + CompleteLines(rest))[1..] == CompleteLines(rest);
  }

  lemma RecoverLine(batch: seq<Bytes>, rest: Bytes)
    ensures Recovered(Line(batch) + rest) == batch + Recovered(rest)
  {
    hide Recovered, Encode, BatchJson, DecodeLine, NoNewline, AllPlain;
    EncodedIsPlain(BatchJson(batch));
    LineBodyDecodes(batch);
    FirstLine(LineBody(batch), rest);
  }

  /** Whole batches in front are read in full, whatever follows them. */
  lemma {:induction false} RecoverAfterBatches(batches: seq<seq<Bytes>>, rest: Bytes)
    ensures Recovered(Lines(batches) + rest) == Flatten(batches) + Recovered(rest)
  {
    hide Recovered, Line;
    if batches == [] {
      assert Lines(batches) + rest == rest;
      assert Flatten(batches) + Recovered(rest) == Recovered(rest);
    } else {
      Assoc(Line(batches[0]), Lines(batches[1..]), rest);
      RecoverLine(batches[0], Lines(batches[1..]) + rest);
      RecoverAfterBatches(batches[1..], rest);
      Assoc(batches[0], Flatten(batches[1..]), Recovered(rest));
    }
  }

  /** Reading back what was written, uncut, gives exactly the events written. */
  lemma ReadBack(batches: seq<seq<Bytes>>)
    ensures Recovered(Lines(batches)) == Flatten(batches)
  {
    hide Lines;
    RecoverAfterBatches(batches, []);
    assert Recovered([]) == [];
    assert Lines(batches) + [] == Lines(batches);
    assert Flatten(batches) + [] == Flatten(batches);
  }

  /** A final write cut anywhere, even just before its newline, drops that batch and no other. */
  lemma TornWrite(batches: seq<seq<Bytes>>, torn: seq<Bytes>, cut: nat, n: nat)
    requires cut < |Line(torn)|
    ensures Recovered(Lines(batches) + Line(torn)[..cut]) == Flatten(batches)
    ensures After(Recovered(Lines(batches) + Line(torn)[..cut]), n) == After(Flatten(batches), n)
  {
    hide Encode, BatchJson, Lines, SplitFrom, AllPlain;
    var tail := Line(torn)[..cut];
    EncodedIsPlain(BatchJson(torn));
    assert tail == LineBody(torn)[..cut];
    SplitTail(tail, []);
    RecoverAfterBatches(batches, tail);
    assert Flatten(batches) + [] == Flatten(batches);
  }

  lemma {:induction false} LinesConcat(a: seq<seq<Bytes>>, b: seq<seq<Bytes>>)
    ensures Lines(a + b) == Lines(a) + Lines(b)
  {
    if a == [] {
      assert a + b == b;
    } else {
      assert (a + b)[1..] == a[1..] + b;
      LinesConcat(a[1..], b);
    }
  }

  /** The symbol every line of a non-empty batch begins with. */
  const FIRST: byte := 87

  lemma LinesBeginAlike(events: seq<Bytes>)
    requires events != []
    ensures LineBody(events) != [] && LineBody(events)[0] == FIRST
  {
    hide EncodeEach, RestOfArray;
    var json := BatchJson(events);
    var _ := ArrayStart(EncodeEach(events));
    EncodeShape(json);
    FirstSymbol(json);
  }

  lemma FirstSymbol(json: Bytes)
    requires |json| >= 3 && json[0] == OPEN
    ensures Encode(json) != [] && Encode(json)[0] == FIRST
  {
    hide Encode;
    EncodeStep(json);
    assert Symbol(G0(OPEN)) == FIRST;
  }

  /** What appends that never completed leave behind the last newline. */
  predicate TornTail(tail: Bytes) {
    tail != [] && tail[0] == FIRST && NoNewline(tail)
  }

  lemma TornIsTail(torn: seq<Bytes>, cut: nat)
    requires torn != [] && 0 < cut <= |LineBody(torn)|
    ensures TornTail(LineBody(torn)[..cut])
  {
    hide LineBody, Encode;
    LinesBeginAlike(torn);
    BodyHasNoNewline(torn);
  }

  lemma BodyHasNoNewline(events: seq<Bytes>)
    ensures NoNewline(LineBody(events))
  {
    EncodedIsPlain(BatchJson(events));
  }

  /** Whatever such a first byte leads to, the reader is past the start of an array. */
  lemma PastTheStart(x: Bytes)
    requires x != [] && x[0] >> 2 == 22
    ensures ReadAll(Before, x) != Before
  {
    assert Read(Before, x[0]) != Before;
    NeverBackToStart(Read(Before, x[0]), x[1..]);
  }

  /** A whole line appended to a torn tail, however often it was torn, is never readable. */
  lemma MergedTailIsUnreadable(tail: Bytes, next: seq<Bytes>)
    requires TornTail(tail) && next != []
    ensures DecodeLine(tail + LineBody(next)) == LineContent([], false)
  {
    hide Encode, Decode, ReadAll, PrintStrings;
    var more := BatchJson(next);
    BatchJsonIsSomething(next);
    var x := FrontThenWhole(tail, more);
    if Decode(tail + LineBody(next)).Some? {
      assert Group(FIRST) == Some(22);
      PastTheStart(x);
      EncodedIsPlain(next[0]);
      SecondArrayBreaks(ReadAll(Before, x), EncodeEach(next));
      ReadAllConcat(Before, x, more);
    }
  }

  /** The line that forms when a whole line is appended to a torn one is never readable. */
  lemma MergedLineIsUnreadable(torn: seq<Bytes>, cut: nat, next: seq<Bytes>)
    requires torn != [] && next != []
    requires 0 < cut <= |LineBody(torn)|
    ensures DecodeLine(LineBody(torn)[..cut] + LineBody(next)) == LineContent([], false)
  {
    hide LineBody, DecodeLine;
    TornIsTail(torn, cut);
    MergedTailIsUnreadable(LineBody(torn)[..cut], next);
  }

  /** Whole lines, then one that cannot be read: nothing after it is ever read. */
  lemma BadLineEndsReading(batches: seq<seq<Bytes>>, bad: Bytes, rest: Bytes)
    requires NoNewline(bad) && DecodeLine(bad) == LineContent([], false)
    ensures Recovered(Lines(batches) + (bad + [NEWLINE] + rest)) == Flatten(batches)
  {
    hide Lines, DecodeLine, CompleteLines, NoNewline;
    FirstLine(bad, rest);
    RecoverAfterBatches(batches, bad + [NEWLINE] + rest);
    assert Flatten(batches) + [] == Flatten(batches);
  }

  /**
    Appending to a file that a crash left with a torn tail: the tail is not cut off first,
    so the appended batch, and every later one, is never read again.
   */
  lemma AppendAfterTornTailIsLost(
      batches: seq<seq<Bytes>>, torn: seq<Bytes>, cut: nat, next: seq<Bytes>, later: seq<seq<Bytes>>)
    requires torn != [] && next != []
    requires 0 < cut <= |LineBody(torn)|
    ensures Recovered(Lines(batches) + LineBody(torn)[..cut] + Lines([next] + later)) == Flatten(batches)
  {
    hide LineBody, DecodeLine, Lines, Recovered, NoNewline;
    var tail := LineBody(torn)[..cut];
    var merged := tail + LineBody(next);
    BodyHasNoNewline(torn);
    BodyHasNoNewline(next);
    NoNewlineJoins(LineBody(torn), cut, LineBody(next));
    LinesOfOneMore(next, later);
    Assoc(tail, Line(next), Lines(later));
    Assoc(tail, LineBody(next), [NEWLINE]);
    Assoc(Lines(batches), tail, Lines([next] + later));
    MergedLineIsUnreadable(torn, cut, next);
    BadLineEndsReading(batches, merged, Lines(later));
  }

  lemma NoNewlineJoins(text: Bytes, cut: nat, more: Bytes)
    requires NoNewline(text) && NoNewline(more) && cut <= |text|
    ensures NoNewline(text[..cut] + more)
  {
  }

  lemma LinesOfOneMore(next: seq<Bytes>, later: seq<seq<Bytes>>)
    ensures Lines([next] + later) == Line(next) + Lines(later)
  {
    assert ([next] + later)[1..] == later;
  }

  lemma OneMoreLine(batches: seq<seq<Bytes>>, next: seq<Bytes>)
    ensures Lines(batches + [next]) == Lines(batches) + Line(next)
    ensures Recovered(Lines(batches) + Line(next)) == Flatten(batches) + next
  {
    hide Line, Recovered;
    LinesConcat(batches, [next]);
    LinesOfOneMore(next, []);
    assert [next] + [] == [next] && Line(next) + [] == Line(next);
    ReadBack(batches + [next]);
    FlattenSnoc(batches, next);
  }

  /**
    An append is recovered exactly when the file ended in a newline or was empty: with
    whole lines followed by the first `cut` bytes of another, exactly when `cut` is 0.
   */
  lemma AppendRecoveredIff(batches: seq<seq<Bytes>>, torn: seq<Bytes>, cut: nat, next: seq<Bytes>)
    requires torn != [] && next != [] && cut <= |LineBody(torn)|
    ensures Recovered(Lines(batches) + LineBody(torn)[..cut] + Line(next)) == Flatten(batches) + next
            <==> cut == 0
  {
    hide LineBody, Line, Lines, Recovered;
    if cut == 0 {
      assert Lines(batches) + LineBody(torn)[..cut] == Lines(batches);
      OneMoreLine(batches, next);
    } else {
      AppendAfterTornTailIsLost(batches, torn, cut, next, []);
      LinesOfOneMore(next, []);
      NoLines();
      assert Line(next) + [] == Line(next);
      assert |Flatten(batches) + next| > |Flatten(batches)|;
    }
  }

  lemma NoLines()
    ensures Lines([]) == []
  {
  }
}
