/** Frames on the control socket: four bytes of big-endian length, then that many bytes of payload. */
module Frames {
  import opened Common

  type Octet = b: int | 0 <= b < 256

  const LIMIT: nat := 0x1_0000_0000

  /** How values become payloads, where they do, and back. */
  datatype Codec<!T> = Codec(encode: T -> Option<seq<Octet>>, decode: seq<Octet> -> Option<T>)

  datatype FrameError = NotEncodable | TooLong | Truncated | NotDecodable

  function BigEndian(n: nat): (r: seq<Octet>)
    requires n < LIMIT
    ensures |r| == 4
  {
    [n / 0x100_0000, n / 0x1_0000 % 0x100, n / 0x100 % 0x100, n % 0x100]
  }

  function FromBigEndian(s: seq<Octet>): nat
    requires |s| == 4
  {
    s[0] as int * 0x100_0000 + s[1] as int * 0x1_0000 + s[2] as int * 0x100 + s[3] as int
  }

  lemma LengthRoundTrips(n: nat)
    requires n < LIMIT
    ensures FromBigEndian(BigEndian(n)) == n
  {
    assert n / 0x100 == n / 0x1_0000 * 0x100 + n / 0x100 % 0x100;
    assert n / 0x1_0000 == n / 0x100_0000 * 0x100 + n / 0x1_0000 % 0x100;
  }

  /** The most significant byte goes first. */
  lemma LengthOnTheWire(n: nat)
    requires n < LIMIT
    ensures var s := BigEndian(n);
            n == ((s[0] as int * 256 + s[1] as int) * 256 + s[2] as int) * 256 + s[3] as int
    ensures n < 256 ==> BigEndian(n) == [0, 0, 0, n]
    ensures BigEndian(0x0102_0304) == [1, 2, 3, 4]
  {
    LengthRoundTrips(n);
  }

  function Frame(payload: seq<Octet>): (r: seq<Octet>)
    requires |payload| < LIMIT
    ensures |r| == 4 + |payload|
  {
    BigEndian(|payload|) + payload
  }

  /** What one read yields, and what of the stream is left. */
  datatype Read<T> = Read(result: Result<Option<T>, FrameError>, rest: seq<Octet>)

  /** A read that finds too little takes what there is. */
  function ReadOne<T>(codec: Codec<T>, stream: seq<Octet>): Read<T> {
    if |stream| < 4 then Read(Ok(None), [])
    else
      var n := FromBigEndian(stream[..4]);
      if |stream| - 4 < n then Read(Err(Truncated), [])
      else
        var decoded := codec.decode(stream[4..4 + n]);
        Read(if decoded.Some? then Ok(Some(decoded.value)) else Err(NotDecodable), stream[4 + n..])
  }

  /** A whole frame is one read, whether its payload decodes or not, and what follows it is left. */
  lemma WholeFrameIsRead<T>(codec: Codec<T>, payload: seq<Octet>, rest: seq<Octet>)
    requires |payload| < LIMIT
    ensures var decoded := codec.decode(payload);
            ReadOne(codec, Frame(payload) + rest) ==
            Read(if decoded.Some? then Ok(Some(decoded.value)) else Err(NotDecodable), rest)
  {
    var stream := Frame(payload) + rest;
    LengthRoundTrips(|payload|);
    assert stream[..4] == BigEndian(|payload|);
    assert stream[4..4 + |payload|] == payload && stream[4 + |payload|..] == rest;
  }

  // ---- The socket -----------------------------------------------------------------------------

  /** A byte stream: what was written and not yet read. */
  class Stream {
    var pending: seq<Octet>

    constructor (bytes: seq<Octet>)
      ensures pending == bytes
    {
      pending := bytes;
    }

    method WriteAll(bytes: seq<Octet>)
      modifies this
      ensures pending == old(pending) + bytes
    {
      pending := pending + bytes;
    }

    /** Fills a buffer of `n` bytes, or fails at the end of the stream having consumed the rest. */
    method ReadExact(n: nat) returns (r: Option<seq<Octet>>)
      modifies this
      ensures if n <= |old(pending)| then r == Some(old(pending)[..n]) && pending == old(pending)[n..]
              else r == None && pending == []
    {
      if |pending| < n {
        pending := [];
        return None;
      }
      r := Some(pending[..n]);
      pending := pending[n..];
    }

    method WriteFrame<T>(codec: Codec<T>, value: T) returns (r: Result<(), FrameError>)
      modifies this
      ensures var bytes := codec.encode(value);
              if bytes.None? then r == Err(NotEncodable) && pending == old(pending)
              else if |bytes.value| >= LIMIT then r == Err(TooLong) && pending == old(pending)
              else r == Ok(()) && pending == old(pending) + Frame(bytes.value)
    {
      var bytes := codec.encode(value);
      if bytes.None? {
        return Err(NotEncodable);
      }
      if |bytes.value| >= LIMIT {
        return Err(TooLong);
      }
      Assoc(pending, BigEndian(|bytes.value|), bytes.value);
      WriteAll(BigEndian(|bytes.value|));
      WriteAll(bytes.value);
      return Ok(());
    }

    method ReadFrame<T>(codec: Codec<T>) returns (r: Result<Option<T>, FrameError>)
      modifies this
      ensures Read(r, pending) == ReadOne(codec, old(pending))
    {
      var header := ReadExact(4);
      if header.None? {
        return Ok(None);
      }
      var n := FromBigEndian(header.value);
      var body := ReadExact(n);
      if body.None? {
        return Err(Truncated);
      }
      assert old(pending)[4..][..n] == old(pending)[4..4 + n];
      assert old(pending)[4..][n..] == old(pending)[4 + n..];
      var decoded := codec.decode(body.value);
      if decoded.None? {
        return Err(NotDecodable);
      }
      return Ok(Some(decoded.value));
    }
  }

  // ---- Reading back what was written ------------------------------------------------------------

  /** Values that can be framed and whose payloads decode to them again. */
  predicate Framable<T(==)>(codec: Codec<T>, v: T) {
    var bytes := codec.encode(v);
    bytes.Some? && |bytes.value| < LIMIT && codec.decode(bytes.value) == Some(v)
  }

  ghost predicate AllFramable<T>(codec: Codec<T>, vs: seq<T>) {
    forall i :: 0 <= i < |vs| ==> Framable(codec, vs[i])
  }

  /** The bytes of the values' frames, one after another. */
  ghost function Framed<T>(codec: Codec<T>, vs: seq<T>): seq<Octet>
    requires AllFramable(codec, vs)
  {
    if vs == [] then [] else Frame(codec.encode(vs[0]).value) + Framed(codec, vs[1..])
  }

  datatype Ending = CleanEnd | Failed(error: FrameError)

  datatype ReadBack<T> = ReadBack(values: seq<T>, ending: Ending)

  /** Reads frames until there is none or one is bad. */
  function ReadAll<T>(codec: Codec<T>, stream: seq<Octet>): ReadBack<T>
    decreases |stream|
  {
    var one := ReadOne(codec, stream);
    match one.result
    case Ok(None) => ReadBack([], CleanEnd)
    case Err(e) => ReadBack([], Failed(e))
    case Ok(Some(v)) =>
      var more := ReadAll(codec, one.rest);
      ReadBack([v] + more.values, more.ending)
  }

  lemma ReadsFrame<T>(codec: Codec<T>, v: T, rest: seq<Octet>)
    requires Framable(codec, v)
    ensures ReadOne(codec, Frame(codec.encode(v).value) + rest) == Read(Ok(Some(v)), rest)
  {
    hide FromBigEndian, BigEndian;
    var payload := codec.encode(v).value;
    var stream := Frame(payload) + rest;
    LengthRoundTrips(|payload|);
    assert stream[..4] == BigEndian(|payload|);
    assert stream[4..4 + |payload|] == payload && stream[4 + |payload|..] == rest;
  }

  lemma TruncatedFrame<T>(codec: Codec<T>, v: T, k: nat)
    requires Framable(codec, v) && 4 <= k < |Frame(codec.encode(v).value)|
    ensures ReadOne(codec, Frame(codec.encode(v).value)[..k]) == Read(Err(Truncated), [])
  {
    hide FromBigEndian, BigEndian;
    var payload := codec.encode(v).value;
    LengthRoundTrips(|payload|);
    assert Frame(payload)[..k][..4] == BigEndian(|payload|);
  }

  /** How many of the frames lie wholly within the first `k` bytes. */
  ghost function Whole<T>(codec: Codec<T>, vs: seq<T>, k: nat): (m: nat)
    requires AllFramable(codec, vs)
    ensures m <= |vs| && |Framed(codec, vs[..m])| <= k
    ensures m < |vs| ==> k < |Framed(codec, vs[..m + 1])|
  {
    if vs == [] || k < |Frame(codec.encode(vs[0]).value)| then
      assert vs == [] || (vs[..1] == [vs[0]] && [vs[0]][1..] == []);
      0
    else
      var m := Whole(codec, vs[1..], k - |Frame(codec.encode(vs[0]).value)|);
      assert vs[..m + 1][1..] == vs[1..][..m];
      assert m + 1 < |vs| ==> vs[..m + 2][1..] == vs[1..][..m + 1];
      m + 1
  }

  lemma ReadsNothing<T>(codec: Codec<T>, stream: seq<Octet>)
    requires |stream| < 4
    ensures ReadAll(codec, stream) == ReadBack([], CleanEnd)
  {
  }

  lemma Unframed<T>(codec: Codec<T>, vs: seq<T>)
    requires AllFramable(codec, vs) && vs != []
    ensures codec.encode(vs[0]).Some? && |codec.encode(vs[0]).value| < LIMIT
    ensures AllFramable(codec, vs[1..])
    ensures Framed(codec, vs) == Frame(codec.encode(vs[0]).value) + Framed(codec, vs[1..])
  {
    assert Framable(codec, vs[0]);
  }

  lemma ReadsOn<T>(codec: Codec<T>, v: T, rest: seq<Octet>)
    requires Framable(codec, v)
    ensures var more := ReadAll(codec, rest);
            ReadAll(codec, Frame(codec.encode(v).value) + rest) == ReadBack([v] + more.values, more.ending)
  {
    hide ReadOne;
    ReadsFrame(codec, v, rest);
  }

  lemma FirstFrameCut<T>(codec: Codec<T>, vs: seq<T>, k: nat)
    requires AllFramable(codec, vs) && vs != [] && k < |Frame(codec.encode(vs[0]).value)|
    ensures k <= |Framed(codec, vs)| && Whole(codec, vs, k) == 0
    ensures ReadAll(codec, Framed(codec, vs)[..k]) == ReadBack([], if k < 4 then CleanEnd else Failed(Truncated))
  {
    hide ReadOne, Frame;
    Unframed(codec, vs);
    var first := Frame(codec.encode(vs[0]).value);
    assert Framed(codec, vs)[..k] == first[..k];
    if k < 4 {
      ReadsNothing(codec, first[..k]);
    } else {
      TruncatedFrame(codec, vs[0], k);
    }
  }

  lemma {:induction false} CutReadsBack<T>(codec: Codec<T>, vs: seq<T>, k: nat)
    requires AllFramable(codec, vs) && k <= |Framed(codec, vs)|
    ensures var m := Whole(codec, vs, k);
            ReadAll(codec, Framed(codec, vs)[..k]) ==
            ReadBack(vs[..m], if k - |Framed(codec, vs[..m])| < 4 then CleanEnd else Failed(Truncated))
    decreases |vs|
  {
    hide ReadOne, ReadAll, Frame;
    if vs == [] {
      ReadsNothing(codec, []);
    } else if k < |Frame(codec.encode(vs[0]).value)| {
      FirstFrameCut(codec, vs, k);
    } else {
      Unframed(codec, vs);
      var first := Frame(codec.encode(vs[0]).value);
      var rest := Framed(codec, vs[1..])[..k - |first|];
      assert Framed(codec, vs)[..k] == first + rest;
      ReadsOn(codec, vs[0], rest);
      CutReadsBack(codec, vs[1..], k - |first|);
      var m := Whole(codec, vs[1..], k - |first|);
      assert vs[..m + 1] == [vs[0]] + vs[1..][..m];
      Unframed(codec, vs[..m + 1]);
      assert vs[..m + 1][1..] == vs[1..][..m];
    }
  }

  /**
    Reading back a concatenation of frames gives exactly the values written. Cut at any byte,
    it gives exactly the values whose frames are whole, and then the end of the stream if
    fewer than four bytes are left, and an error otherwise.
   */
  lemma FramesReadBack<T>(codec: Codec<T>, vs: seq<T>, k: nat)
    requires AllFramable(codec, vs) && k <= |Framed(codec, vs)|
    ensures ReadAll(codec, Framed(codec, vs)) == ReadBack(vs, CleanEnd)
    ensures var m := Whole(codec, vs, k);
            && ReadAll(codec, Framed(codec, vs)[..k]).values == vs[..m]
            && (ReadAll(codec, Framed(codec, vs)[..k]).ending == CleanEnd <==> k - |Framed(codec, vs[..m])| < 4)
            && (ReadAll(codec, Framed(codec, vs)[..k]).ending != CleanEnd ==>
                  ReadAll(codec, Framed(codec, vs)[..k]).ending == Failed(Truncated))
  {
    hide ReadAll, Framable;
    var n := |Framed(codec, vs)|;
    CutReadsBack(codec, vs, k);
    CutReadsBack(codec, vs, n);
    assert Framed(codec, vs)[..n] == Framed(codec, vs);
    var m := Whole(codec, vs, n);
    if m < |vs| {
      FramedGrows(codec, vs, m + 1);
    }
    assert vs[..m] == vs;
  }

  lemma {:induction false} FramedGrows<T>(codec: Codec<T>, vs: seq<T>, m: nat)
    requires AllFramable(codec, vs) && m <= |vs|
    ensures |Framed(codec, vs[..m])| <= |Framed(codec, vs)|
    decreases |vs|
  {
    hide Framable;
    if m > 0 {
      assert vs[..m][1..] == vs[1..][..m - 1];
      FramedGrows(codec, vs[1..], m - 1);
    }
  }
}
