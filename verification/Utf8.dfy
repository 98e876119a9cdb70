/**
 The text codec both brokers rely on: a fatal UTF-8 decoder that silently drops one leading byte
 order mark, and the encoder that writes a decoded text back.

 A text is a sequence of Unicode scalar values, a file a sequence of bytes. The two are inverse on
 every byte sequence the decoder accepts, except that the byte order mark (section 6 of RFC 3629)
 does not come back. Everything the snapshot and apply-back modules say about that mark rests on
 `ReencodeLosesOnlyTheBom` below.
 */
module Utf8 {
  import opened Results

  type Byte = b: int | 0 <= b < 256

  type Scalar = c: int | 0 <= c < 0xD800 || 0xE000 <= c < 0x11_0000

  datatype Head = Head(scalar: Scalar, length: nat)

  const BOM: seq<Byte> := [0xEF, 0xBB, 0xBF]

  predicate HasBom(b: seq<Byte>) {
    BOM <= b
  }

  function StripBom(b: seq<Byte>): seq<Byte> {
    if HasBom(b) then b[|BOM|..] else b
  }

  /** Section 3 of RFC 3629: one scalar value as one to four bytes. */
  function EncodeScalar(c: Scalar): (b: seq<Byte>)
    ensures 1 <= |b| <= 4
  {
    if c < 0x80 then [c]
    else if c < 0x800 then [0xC0 + c / 64, 0x80 + c % 64]
    else if c < 0x1_0000 then [0xE0 + c / 4096, 0x80 + c / 64 % 64, 0x80 + c % 64]
    else [0xF0 + c / 26_2144, 0x80 + c / 4096 % 64, 0x80 + c / 64 % 64, 0x80 + c % 64]
  }

  function Encode(text: seq<Scalar>): seq<Byte> {
    if text == [] then [] else EncodeScalar(text[0]) + Encode(text[1..])
  }

  predicate Continuation(b: seq<Byte>, i: nat) {
    i < |b| && 0x80 <= b[i] < 0xC0
  }

  /** The six payload bits of a continuation byte. */
  function Six(b: seq<Byte>, i: nat): (v: int)
    requires Continuation(b, i)
    ensures 0 <= v < 64
  {
    var x: int := b[i];
    x - 0x80
  }

  function Lead(b: seq<Byte>, base: int): int
    requires b != []
  {
    var x: int := b[0];
    x - base
  }

  /** The first scalar of `b`; overlong forms, surrogates and values past 0x10FFFF are errors. */
  function DecodeHead(b: seq<Byte>): (h: Option<Head>)
    requires b != []
    ensures h.Some? ==> 1 <= h.value.length <= |b|
  {
    if b[0] < 0x80 then Some(Head(b[0], 1))
    else if 0xC2 <= b[0] < 0xE0 && Continuation(b, 1) then
      Some(Head(Lead(b, 0xC0) * 64 + Six(b, 1), 2))
    else if 0xE0 <= b[0] < 0xF0 && Continuation(b, 1) && Continuation(b, 2) then
      var v := Lead(b, 0xE0) * 4096 + Six(b, 1) * 64 + Six(b, 2);
      if 0x800 <= v && !(0xD800 <= v < 0xE000) then Some(Head(v, 3)) else None
    else if 0xF0 <= b[0] < 0xF5 && Continuation(b, 1) && Continuation(b, 2) && Continuation(b, 3) then
      var v := Lead(b, 0xF0) * 26_2144 + Six(b, 1) * 4096 + Six(b, 2) * 64 + Six(b, 3);
      if 0x1_0000 <= v < 0x11_0000 then Some(Head(v, 4)) else None
    else None
  }

  function Decode(b: seq<Byte>): Option<seq<Scalar>>
    decreases |b|
  {
    if b == [] then Some([])
    else match DecodeHead(b)
      case None => None
      case Some(h) =>
        match Decode(b[h.length..])
        case None => None
        case Some(rest) => Some([h.scalar] + rest)
  }

  /** What the brokers' decoder returns: fatal on malformed input, one leading mark dropped. */
  function DecodeText(b: seq<Byte>): Option<seq<Scalar>> {
    Decode(StripBom(b))
  }

  lemma EncodeUndoesTwo(b: seq<Byte>)
    requires b != [] && 0xC2 <= b[0] < 0xE0 && Continuation(b, 1)
    ensures EncodeScalar(Lead(b, 0xC0) * 64 + Six(b, 1)) == b[..2]
  {
    assert [b[0], b[1]] == b[..2];
  }

  lemma EncodeUndoesThree(b: seq<Byte>, v: Scalar)
    requires b != [] && 0xE0 <= b[0] < 0xF0 && Continuation(b, 1) && Continuation(b, 2)
    requires v == Lead(b, 0xE0) * 4096 + Six(b, 1) * 64 + Six(b, 2) && 0x800 <= v
    ensures EncodeScalar(v) == b[..3]
  {
    assert v / 64 == Lead(b, 0xE0) * 64 + Six(b, 1);
    assert EncodeScalar(v) == [b[0], b[1], b[2]] == b[..3];
  }

  lemma EncodeUndoesFour(b: seq<Byte>, v: Scalar)
    requires b != [] && 0xF0 <= b[0] < 0xF5 && Continuation(b, 1) && Continuation(b, 2) && Continuation(b, 3)
    requires v == Lead(b, 0xF0) * 26_2144 + Six(b, 1) * 4096 + Six(b, 2) * 64 + Six(b, 3) && 0x1_0000 <= v
    ensures EncodeScalar(v) == b[..4]
  {
    assert v / 64 == Lead(b, 0xF0) * 4096 + Six(b, 1) * 64 + Six(b, 2);
    assert v / 4096 == Lead(b, 0xF0) * 64 + Six(b, 1);
    assert EncodeScalar(v) == [b[0], b[1], b[2], b[3]] == b[..4];
  }

  lemma EncodeUndoesHead(b: seq<Byte>)
    requires b != [] && DecodeHead(b).Some?
    ensures EncodeScalar(DecodeHead(b).value.scalar) == b[..DecodeHead(b).value.length]
  {
    var h := DecodeHead(b).value;
    if h.length == 2 {
      EncodeUndoesTwo(b);
    } else if h.length == 3 {
      EncodeUndoesThree(b, h.scalar);
    } else if h.length == 4 {
      EncodeUndoesFour(b, h.scalar);
    }
  }

  /** Base-64 digits of a scalar, most significant first. */
  lemma Digits(c: Scalar)
    ensures c == c / 64 * 64 + c % 64
    ensures c == c / 4096 * 4096 + c / 64 % 64 * 64 + c % 64
    ensures c == c / 26_2144 * 26_2144 + c / 4096 % 64 * 4096 + c / 64 % 64 * 64 + c % 64
  {
    var x := c / 64;
    assert x / 64 == c / 4096;
    assert x / 64 / 64 == c / 26_2144;
  }

  lemma HeadUndoesEncode(c: Scalar, b: seq<Byte>)
    requires EncodeScalar(c) <= b
    ensures DecodeHead(b) == Some(Head(c, |EncodeScalar(c)|))
  {
    var e := EncodeScalar(c);
    Digits(c);
    assert forall i | 0 <= i < |e| :: b[i] == e[i];
    if 0x80 <= c < 0x800 {
      assert Continuation(b, 1) && Six(b, 1) == c % 64;
    } else if 0x800 <= c < 0x1_0000 {
      assert Continuation(b, 1) && Six(b, 1) == c / 64 % 64;
      assert Continuation(b, 2) && Six(b, 2) == c % 64;
    } else if 0x1_0000 <= c {
      assert Continuation(b, 1) && Six(b, 1) == c / 4096 % 64;
      assert Continuation(b, 2) && Six(b, 2) == c / 64 % 64;
      assert Continuation(b, 3) && Six(b, 3) == c % 64;
    }
  }

  lemma EncodeCons(c: Scalar, rest: seq<Scalar>)
    ensures Encode([c] + rest) == EncodeScalar(c) + Encode(rest)
  {
    assert ([c] + rest)[1..] == rest;
  }

  lemma DecodeCons(b: seq<Byte>)
    requires b != [] && Decode(b).Some?
    ensures DecodeHead(b).Some?
    ensures var h := DecodeHead(b).value;
            Decode(b[h.length..]).Some? && Decode(b).value == [h.scalar] + Decode(b[h.length..]).value
  {
  }

  lemma HeadThenRest(b: seq<Byte>, h: Head)
    requires b != [] && DecodeHead(b) == Some(h)
    ensures EncodeScalar(h.scalar) + b[h.length..] == b
  {
    EncodeUndoesHead(b);
    assert b == b[..h.length] + b[h.length..];
  }

  lemma {:induction false} EncodeUndoesDecode(b: seq<Byte>)
    requires Decode(b).Some?
    ensures Encode(Decode(b).value) == b
    decreases |b|
  {
    if b != [] {
      var h := DecodeHead(b).value;
      var rest := b[h.length..];
      DecodeCons(b);
      EncodeUndoesDecode(rest);
      EncodeCons(h.scalar, Decode(rest).value);
      HeadThenRest(b, h);
    }
  }

  lemma {:induction false} DecodeUndoesEncode(text: seq<Scalar>)
    ensures Decode(Encode(text)) == Some(text)
  {
    if text != [] {
      var head, rest := EncodeScalar(text[0]), Encode(text[1..]);
      var b := head + rest;
      DecodeUndoesEncode(text[1..]);
      HeadUndoesEncode(text[0], b);
      assert b[|head|..] == rest;
      assert Decode(b) == Some([text[0]] + text[1..]);
      assert text == [text[0]] + text[1..];
    }
  }

  /** Section 3 of RFC 3629: the lead byte tells the length, and the payload bits, joined, are the value, in the shortest form. */
  lemma ScalarIsItsBits(c: Scalar)
    ensures var b := EncodeScalar(c);
            && (|b| == 1 ==> b[0] == c && c < 0x80)
            && (|b| == 2 ==> Payload(b, 0xC0, 0xE0) == c && 0x80 <= c < 0x800)
            && (|b| == 3 ==> Payload(b, 0xE0, 0xF0) == c && 0x800 <= c < 0x1_0000)
            && (|b| == 4 ==> Payload(b, 0xF0, 0xF8) == c && 0x1_0000 <= c)
            && (|b| > 1 ==> forall i | 1 <= i < |b| :: 0x80 <= b[i] < 0xC0)
  {
    Digits(c);
    var b := EncodeScalar(c);
    if |b| == 2 {
      assert b[..1] == [b[0]];
    } else if |b| == 3 {
      assert b[..2] == [b[0], b[1]] && b[..2][..1] == [b[0]];
      assert Payload(b[..2], 0xE0, 0xF0) == c / 4096 * 64 + c / 64 % 64;
    } else if |b| == 4 {
      assert b[..3] == [b[0], b[1], b[2]] && b[..3][..2] == [b[0], b[1]] && b[..3][..2][..1] == [b[0]];
      assert Payload(b[..3][..2], 0xF0, 0xF8) == c / 26_2144 * 64 + c / 4096 % 64;
      assert Payload(b[..3], 0xF0, 0xF8) == (c / 26_2144 * 64 + c / 4096 % 64) * 64 + c / 64 % 64;
    }
  }

  /** The payload of a lead byte in that range, followed by six bits of each further byte; -1 for another lead. */
  function Payload(b: seq<Byte>, from: int, to: int): int
    requires b != []
  {
    if |b| == 1 then (if from <= b[0] < to then b[0] as int - from else -1)
    else if Payload(b[..|b| - 1], from, to) < 0 then -1
    else Payload(b[..|b| - 1], from, to) * 64 + (b[|b| - 1] as int - 0x80)
  }

  /** The decoder accepts exactly the encodings of texts. */
  lemma DecodesIff(b: seq<Byte>)
    ensures Decode(b).Some? <==> exists text :: Encode(text) == b
  {
    if Decode(b).Some? { EncodeUndoesDecode(b); }
    if text :| Encode(text) == b { DecodeUndoesEncode(text); }
  }

  /** Writing a decoded text back gives the original bytes exactly when there was no mark to lose. */
  lemma ReencodeLosesOnlyTheBom(b: seq<Byte>)
    requires DecodeText(b).Some?
    ensures Encode(DecodeText(b).value) == StripBom(b)
    ensures Encode(DecodeText(b).value) == b <==> !HasBom(b)
  {
    EncodeUndoesDecode(StripBom(b));
  }
}
