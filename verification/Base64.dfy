/**
  The standard base64 alphabet with canonical padding (section 4 of RFC 4648), as the
  file journal's engine applies it: a decoder that accepts a text exactly when the
  encoder can produce it.
 */
module Base64 {
  import opened Common

  const PAD: byte := 61

  /** The symbol for a 6-bit group. */
  function Symbol(v: byte): byte
    requires v < 64
  {
    if v < 26 then 65 + v
    else if v < 52 then 97 + (v - 26)
    else if v < 62 then 48 + (v - 52)
    else if v == 62 then 43
    else 47
  }

  /** The 6-bit group a symbol stands for; `None` outside the alphabet, padding included. */
  function Group(c: byte): (r: Option<byte>)
    ensures r.Some? ==> r.value < 64 && Symbol(r.value) == c
  {
    if 65 <= c <= 90 then Some(c - 65)
    else if 97 <= c <= 122 then Some(c - 97 + 26)
    else if 48 <= c <= 57 then Some(c - 48 + 52)
    else if c == 43 then Some(62)
    else if c == 47 then Some(63)
    else None
  }

  lemma GroupOfSymbol(v: byte)
    requires v < 64
    ensures Group(Symbol(v)) == Some(v)
  {
  }

  predicate InAlphabet(c: byte) {
    Group(c).Some? || c == PAD
  }

  /** The symbols are those of table 1 of RFC 4648: upper case, lower case, digits, plus and slash. */
  lemma SymbolsAreStandard(v: byte)
    requires v < 64
    ensures v < 26 ==> Symbol(v) as int == 'A' as int + v as int
    ensures 26 <= v < 52 ==> Symbol(v) as int == 'a' as int + v as int - 26
    ensures 52 <= v < 62 ==> Symbol(v) as int == '0' as int + v as int - 52
    ensures v == 62 ==> Symbol(v) as int == '+' as int
    ensures v == 63 ==> Symbol(v) as int == '/' as int
  {
    assert 'A' as int == 65 && 'a' as int == 97 && '0' as int == 48 && '+' as int == 43 && '/' as int == 47;
  }

  // The four groups of a triple, and the bytes back from the groups.

  function G0(x: byte): (r: byte) ensures r < 64 { x >> 2 }

  function G1(x: byte, y: byte): (r: byte) ensures r < 64 { ((x & 3) << 4) | (y >> 4) }

  function G2(y: byte, z: byte): (r: byte) ensures r < 64 { ((y & 15) << 2) | (z >> 6) }

  function G3(z: byte): (r: byte) ensures r < 64 { z & 63 }

  function B0(v: byte, w: byte): byte { (v << 2) | (w >> 4) }

  function B1(w: byte, x: byte): byte { ((w & 15) << 4) | (x >> 2) }

  function B2(x: byte, y: byte): byte { ((x & 3) << 6) | y }

  function EncodeTriple(x: byte, y: byte, z: byte): (r: Bytes)
    ensures |r| == 4
  {
    [Symbol(G0(x)), Symbol(G1(x, y)), Symbol(G2(y, z)), Symbol(G3(z))]
  }

  function Encode(data: Bytes): Bytes {
    if |data| == 0 then []
    else if |data| == 1 then [Symbol(G0(data[0])), Symbol(G1(data[0], 0)), PAD, PAD]
    else if |data| == 2 then
      [Symbol(G0(data[0])), Symbol(G1(data[0], data[1])), Symbol(G2(data[1], 0)), PAD]
    else EncodeTriple(data[0], data[1], data[2]) + Encode(data[3..])
  }

  /** The last quantum when it ends in padding: the unused low bits must be zero. */
  function DecodePadded(text: Bytes): Option<Bytes>
    requires |text| == 4 && text[3] == PAD
  {
    var v, w, x := Group(text[0]), Group(text[1]), Group(text[2]);
    if v.None? || w.None? then None
    else if text[2] == PAD then
      if w.value & 15 == 0 then Some([B0(v.value, w.value)]) else None
    else if x.None? || x.value & 3 != 0 then None
    else Some([B0(v.value, w.value), B1(w.value, x.value)])
  }

  function DecodeQuad(text: Bytes): (r: Option<Bytes>)
    requires |text| == 4
    ensures r.Some? ==> |r.value| == 3
  {
    var v, w, x, y := Group(text[0]), Group(text[1]), Group(text[2]), Group(text[3]);
    if v.None? || w.None? || x.None? || y.None? then None
    else Some([B0(v.value, w.value), B1(w.value, x.value), B2(x.value, y.value)])
  }

  function Decode(text: Bytes): Option<Bytes> {
    if |text| == 0 then Some([])
    else if |text| < 4 then None
    else if |text| == 4 && text[3] == PAD then DecodePadded(text)
    else
      var head, tail := DecodeQuad(text[..4]), Decode(text[4..]);
      if head.None? || tail.None? then None else Some(head.value + tail.value)
  }

  lemma Unpack(v: byte, w: byte, x: byte, y: byte)
    requires v < 64 && w < 64 && x < 64 && y < 64
    ensures G0(B0(v, w)) == v && G1(B0(v, w), B1(w, x)) == w
    ensures G2(B1(w, x), B2(x, y)) == x && G3(B2(x, y)) == y
    ensures w & 15 == 0 ==> G1(B0(v, w), 0) == w
    ensures x & 3 == 0 ==> G2(B1(w, x), 0) == x
  {
  }

  lemma Pack(x: byte, y: byte, z: byte)
    ensures B0(G0(x), G1(x, y)) == x && B1(G1(x, y), G2(y, z)) == y && B2(G2(y, z), G3(z)) == z
    ensures G1(x, 0) & 15 == 0 && G2(y, 0) & 3 == 0
  {
  }

  lemma QuadOfTriple(x: byte, y: byte, z: byte)
    ensures DecodeQuad(EncodeTriple(x, y, z)) == Some([x, y, z])
    ensures EncodeTriple(x, y, z)[3] != PAD
  {
    Pack(x, y, z);
    GroupOfSymbol(G0(x));
    GroupOfSymbol(G1(x, y));
    GroupOfSymbol(G2(y, z));
    GroupOfSymbol(G3(z));
  }

  lemma EncodeStep(data: Bytes)
    requires |data| >= 3
    ensures Encode(data) == EncodeTriple(data[0], data[1], data[2]) + Encode(data[3..])
  {
    hide EncodeTriple, Symbol;
  }

  /** The test vectors of section 10 of RFC 4648: the encodings of the prefixes of `foobar`. */
  lemma StandardVectors()
    ensures Encode([]) == []
    ensures Encode([102]) == [90, 103, PAD, PAD]
    ensures Encode([102, 111]) == [90, 109, 56, PAD]
    ensures Encode([102, 111, 111]) == [90, 109, 57, 118]
    ensures Encode([102, 111, 111, 98]) == [90, 109, 57, 118, 89, 103, PAD, PAD]
    ensures Encode([102, 111, 111, 98, 97]) == [90, 109, 57, 118, 89, 109, 69, PAD]
    ensures Encode([102, 111, 111, 98, 97, 114]) == [90, 109, 57, 118, 89, 109, 70, 121]
  {
    var foo: Bytes := [102, 111, 111];
    FooFirst([]);
    FooFirst([98]);
    FooFirst([98, 97]);
    FooFirst([98, 97, 114]);
    assert foo + [] == foo && foo + [98] == [102, 111, 111, 98];
    assert foo + [98, 97] == [102, 111, 111, 98, 97] && foo + [98, 97, 114] == [102, 111, 111, 98, 97, 114];
    EncodeStep([98, 97, 114]);
    assert [98, 97, 114][3..] == [];
  }

  lemma FooFirst(rest: Bytes)
    ensures Encode([102, 111, 111] + rest) == [90, 109, 57, 118] + Encode(rest)
  {
    var data := [102, 111, 111] + rest;
    EncodeStep(data);
    assert data[3..] == rest;
  }

  lemma DecodeStep(head: Bytes, text: Bytes)
    requires |head| == 4 && head[3] != PAD
    ensures Decode(head + text) ==
            if DecodeQuad(head).None? || Decode(text).None? then None
            else Some(DecodeQuad(head).value + Decode(text).value)
  {
    hide DecodePadded, DecodeQuad;
    assert (head + text)[..4] == head && (head + text)[4..] == text;
  }

  /** Whole triples in front of a text decode independently of what follows them. */
  lemma {:induction false} DecodeAfterTriples(data: Bytes, text: Bytes)
    requires |data| % 3 == 0
    ensures Decode(Encode(data) + text) ==
            if Decode(text).None? then None else Some(data + Decode(text).value)
  {
    hide Encode, Decode, EncodeTriple, DecodeQuad;
    if data == [] {
      NothingEncoded(text);
      if Decode(text).Some? {
        assert [] + Decode(text).value == Decode(text).value;
      }
    } else {
      var head, triple := EncodeTriple(data[0], data[1], data[2]), [data[0], data[1], data[2]];
      QuadOfTriple(data[0], data[1], data[2]);
      EncodeStep(data);
      Assoc(head, Encode(data[3..]), text);
      DecodeStep(head, Encode(data[3..]) + text);
      DecodeAfterTriples(data[3..], text);
      assert data == triple + data[3..];
      if Decode(text).Some? {
        Assoc(triple, data[3..], Decode(text).value);
      }
    }
  }

  lemma NothingEncoded(text: Bytes)
    ensures Encode([]) == [] && Encode([]) + text == text
  {
  }

  /** Splits the data into whole triples and a shorter rest. */
  lemma {:induction false} EncodeSplit(data: Bytes, k: nat)
    requires 3 * k <= |data|
    ensures Encode(data) == Encode(data[..3 * k]) + Encode(data[3 * k..])
    ensures |Encode(data[..3 * k])| == 4 * k
  {
    hide Encode, EncodeTriple;
    if k == 0 {
      assert data[0..] == data && data[..0] == [];
      NothingEncoded(Encode(data));
    } else {
      var front := data[..3 * k];
      EncodeSplit(data[3..], k - 1);
      assert data[3..][..3 * (k - 1)] == front[3..];
      assert data[3..][3 * (k - 1)..] == data[3 * k..];
      EncodeStep(data);
      EncodeStep(front);
      Assoc(EncodeTriple(data[0], data[1], data[2]), Encode(front[3..]), Encode(data[3 * k..]));
    }
  }

  lemma DecodeOne(x: byte)
    ensures DecodePadded([Symbol(G0(x)), Symbol(G1(x, 0)), PAD, PAD]) == Some([x])
  {
    Pack(x, 0, 0);
    GroupOfSymbol(G0(x));
    GroupOfSymbol(G1(x, 0));
  }

  lemma DecodeTwo(x: byte, y: byte)
    ensures DecodePadded([Symbol(G0(x)), Symbol(G1(x, y)), Symbol(G2(y, 0)), PAD]) == Some([x, y])
  {
    Pack(x, y, 0);
    GroupOfSymbol(G0(x));
    GroupOfSymbol(G1(x, y));
    GroupOfSymbol(G2(y, 0));
    assert Group(PAD) == None;
  }

  lemma DecodeNothing()
    ensures Decode([]) == Some([])
  {
  }

  lemma DecodeQuantum(text: Bytes)
    requires |text| == 4 && text[3] == PAD
    ensures Decode(text) == DecodePadded(text)
  {
  }

  lemma DecodeEncodeShort(data: Bytes)
    requires |data| < 3
    ensures Decode(Encode(data)) == Some(data)
  {
    hide Decode, Symbol, Group, DecodePadded;
    if |data| == 0 {
      DecodeNothing();
    } else {
      DecodeQuantum(Encode(data));
    }
    if |data| == 1 {
      DecodeOne(data[0]);
      assert data == [data[0]];
    } else if |data| == 2 {
      DecodeTwo(data[0], data[1]);
      assert data == [data[0], data[1]];
    }
  }

  /** Decoding inverts encoding. */
  lemma RoundTrip(data: Bytes)
    ensures Decode(Encode(data)) == Some(data)
  {
    hide Encode, Decode;
    var k := |data| / 3;
    EncodeSplit(data, k);
    DecodeAfterTriples(data[..3 * k], Encode(data[3 * k..]));
    DecodeEncodeShort(data[3 * k..]);
    assert data[..3 * k] + data[3 * k..] == data;
  }

  lemma CanonicalQuad(text: Bytes)
    requires |text| == 4 && DecodeQuad(text).Some?
    ensures var d := DecodeQuad(text).value; EncodeTriple(d[0], d[1], d[2]) == text
  {
    Unpack(Group(text[0]).value, Group(text[1]).value, Group(text[2]).value, Group(text[3]).value);
  }

  lemma CanonicalPadded(text: Bytes)
    requires |text| == 4 && text[3] == PAD && DecodePadded(text).Some?
    ensures Encode(DecodePadded(text).value) == text
  {
    var x := if text[2] == PAD then 0 else Group(text[2]).value;
    Unpack(Group(text[0]).value, Group(text[1]).value, x, 0);
  }

  /** The decoder accepts nothing but what the encoder writes: padding and spare bits are canonical. */
  lemma {:induction false} Canonical(text: Bytes)
    requires Decode(text).Some?
    ensures Encode(Decode(text).value) == text
  {
    if |text| == 0 {
    } else if |text| == 4 && text[3] == PAD {
      CanonicalPadded(text);
    } else {
      CanonicalQuad(text[..4]);
      Canonical(text[4..]);
      var d := DecodeQuad(text[..4]).value;
      assert (d + Decode(text[4..]).value)[3..] == Decode(text[4..]).value;
      assert text == text[..4] + text[4..];
    }
  }

  lemma SymbolInAlphabet(v: byte)
    requires v < 64
    ensures InAlphabet(Symbol(v))
  {
    GroupOfSymbol(v);
  }

  lemma PaddingAllowed()
    ensures InAlphabet(PAD)
  {
  }

  /** Every byte the encoder writes is a symbol or padding, and texts come in whole quanta. */
  lemma {:induction false} EncodeShape(data: Bytes)
    ensures |Encode(data)| == (|data| + 2) / 3 * 4
    ensures forall i :: 0 <= i < |Encode(data)| ==> InAlphabet(Encode(data)[i])
  {
    hide Symbol, InAlphabet, G0, G1, G2, G3;
    forall v: byte | v < 64 ensures InAlphabet(Symbol(v)) {
      SymbolInAlphabet(v);
    }
    PaddingAllowed();
    if |data| >= 3 {
      EncodeShape(data[3..]);
    }
  }

  lemma {:induction false} DecodeNeedsWholeQuanta(text: Bytes)
    requires |text| % 4 != 0
    ensures Decode(text) == None
  {
    if |text| > 4 {
      DecodeNeedsWholeQuanta(text[4..]);
    }
  }

  /** Padding is accepted only at the very end. */
  lemma PaddingInsideFails(data: Bytes, text: Bytes)
    requires |data| % 3 != 0 && text != []
    ensures Decode(Encode(data) + text) == None
  {
    hide Encode, Decode;
    var k := |data| / 3;
    EncodeSplit(data, k);
    var rest := Encode(data[3 * k..]) + text;
    Assoc(Encode(data[..3 * k]), Encode(data[3 * k..]), text);
    DecodeAfterTriples(data[..3 * k], rest);
    ShortEndsInPadding(data[3 * k..]);
    PaddedQuantumFirst(Encode(data[3 * k..]), text);
  }

  lemma ShortEndsInPadding(data: Bytes)
    requires 0 < |data| < 3
    ensures |Encode(data)| == 4 && Encode(data)[3] == PAD
  {
    hide Symbol;
  }

  lemma PaddedQuantumFirst(quantum: Bytes, text: Bytes)
    requires |quantum| == 4 && quantum[3] == PAD && text != []
    ensures Decode(quantum + text) == None
  {
    hide DecodePadded;
    assert (quantum + text)[..4] == quantum;
    assert Group(PAD) == None;
  }

  /** A cut on a triple boundary encodes exactly the triples before it. */
  lemma CutOnTriple(data: Bytes, k: nat, more: Bytes)
    requires 3 * k <= |data|
    ensures 4 * k <= |Encode(data)|
    ensures Decode(Encode(data)[..4 * k] + Encode(more)) == Some(data[..3 * k] + more)
  {
    EncodeSplit(data, k);
    assert Encode(data)[..4 * k] == Encode(data[..3 * k]);
    DecodeAfterTriples(data[..3 * k], Encode(more));
    RoundTrip(more);
  }

  lemma NoWholeQuanta(quanta: nat, cut: nat)
    requires cut % 4 != 0
    ensures (cut + 4 * quanta) % 4 != 0
  {
  }

  /**
    What a decoder sees when a cut-off encoding is followed by a complete one: nothing
    decodable, unless the cut fell on a triple boundary of the first.
   */
  lemma DecodeCutThenWhole(data: Bytes, cut: nat, more: Bytes)
    requires 0 < cut <= |Encode(data)| && more != []
    ensures var seen := Decode(Encode(data)[..cut] + Encode(more));
            seen == None || exists k: nat :: 0 < 3 * k <= |data| && seen == Some(data[..3 * k] + more)
  {
    hide *;
    EncodeShape(data);
    EncodeShape(more);
    if cut % 4 != 0 {
      NoWholeQuanta(|Encode(more)| / 4, cut);
      DecodeNeedsWholeQuanta(Encode(data)[..cut] + Encode(more));
    } else if 3 * (cut / 4) <= |data| {
      CutOnTriple(data, cut / 4, more);
    } else {
      assert Encode(data)[..cut] == Encode(data);
      PaddingInsideFails(data, Encode(more));
    }
  }

  lemma TopBits(v: byte, w: byte)
    requires v < 64 && w < 64
    ensures B0(v, w) >> 2 == v
  {
  }

  /**
    What a decoder sees when anything at all is followed by a complete encoding: nothing
    decodable, or some bytes that begin as the first symbol says and then the encoded data.
   */
  lemma {:induction false} FrontThenWhole(front: Bytes, more: Bytes) returns (x: Bytes)
    requires front != [] && more != []
    ensures var seen := Decode(front + Encode(more));
            seen.Some? ==>
              && x != [] && seen == Some(x + more)
              && Group(front[0]).Some? && x[0] >> 2 == Group(front[0]).value
    decreases |front|
  {
    hide Decode, Encode, DecodePadded, Symbol;
    EncodeShape(more);
    x := [];
    if |front| % 4 != 0 {
      NoWholeQuanta(|Encode(more)| / 4, |front|);
      DecodeNeedsWholeQuanta(front + Encode(more));
    } else {
      var head, rest := front[..4], front[4..];
      Assoc(head, rest, Encode(more));
      assert front == head + rest;
      if head[3] == PAD {
        PaddedQuantumFirst(head, rest + Encode(more));
      } else {
        DecodeStep(head, rest + Encode(more));
        if DecodeQuad(head).Some? {
          var triple := DecodeQuad(head).value;
          TopBits(Group(head[0]).value, Group(head[1]).value);
          if rest == [] {
            RoundTrip(more);
            assert [] + Encode(more) == Encode(more);
            x := triple;
          } else {
            var y := FrontThenWhole(rest, more);
            Assoc(triple, y, more);
            x := triple + y;
          }
        }
      }
    }
  }
}
