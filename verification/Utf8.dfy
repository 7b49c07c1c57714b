/**
 Incremental UTF-8 as in section 4 of RFC 3629: what a decoder fed byte by byte yields, and that it
 inverts the encoding of section 3, both ways.
 */
module Utf8 {
  import opened Domain

  type Byte = b: nat | b < 256

  predicate Continues(b: Byte) { 0x80 <= b <= 0xBF }

  /** How many bytes a character with this first byte has; 0 for a byte that starts none. */
  function Width(lead: Byte): nat {
    if lead < 0x80 then 1
    else if 0xC2 <= lead <= 0xDF then 2
    else if 0xE0 <= lead <= 0xEF then 3
    else if 0xF0 <= lead <= 0xF4 then 4
    else 0
  }

  /** Overlong forms, surrogates and values above U+10FFFF show in the second byte. */
  predicate SecondOk(lead: Byte, b: Byte) {
    if lead == 0xE0 then 0xA0 <= b <= 0xBF
    else if lead == 0xED then 0x80 <= b <= 0x9F
    else if lead == 0xF0 then 0x90 <= b <= 0xBF
    else if lead == 0xF4 then 0x80 <= b <= 0x8F
    else Continues(b)
  }

  /** The first bytes of a character that is not complete yet, or nothing. */
  predicate Partial(p: seq<Byte>) {
    p == [] || (|p| < Width(p[0]) && (|p| >= 2 ==> SecondOk(p[0], p[1])) && forall i :: 2 <= i < |p| ==> Continues(p[i]))
  }

  predicate Whole(p: seq<Byte>) {
    p != [] && |p| == Width(p[0]) && (|p| >= 2 ==> SecondOk(p[0], p[1])) && forall i :: 2 <= i < |p| ==> Continues(p[i])
  }

  /** The number that the bytes stand for: a Unicode scalar value. */
  function Number(p: seq<Byte>): (n: int)
    requires Whole(p)
    ensures 0 <= n < 0x11_0000 && !(0xD800 <= n < 0xE000)
  {
    var a: int := p[0];
    if |p| == 1 then a
    else
      var b: int := p[1];
      if |p| == 2 then (a - 0xC0) * 64 + (b - 0x80)
      else
        var c: int := p[2];
        if |p| == 3 then (a - 0xE0) * 4096 + (b - 0x80) * 64 + (c - 0x80)
        else
          var d: int := p[3];
          (a - 0xF0) * 262144 + (b - 0x80) * 4096 + (c - 0x80) * 64 + (d - 0x80)
  }

  function Value(p: seq<Byte>): char
    requires Whole(p)
  {
    Number(p) as char
  }

  datatype Decoded = Decoded(text: string, pending: seq<Byte>)

  /** Decode bytes after those still pending; `None` when they cannot be UTF-8. */
  function Decode(pending: seq<Byte>, bytes: seq<Byte>): (r: Option<Decoded>)
    requires Partial(pending)
    ensures r.Some? ==> Partial(r.value.pending)
    decreases |bytes|
  {
    if bytes == [] then Some(Decoded([], pending))
    else
      var p := pending + [bytes[0]];
      if Whole(p) then
        match Decode([], bytes[1..])
        case None => None
        case Some(d) => Some(Decoded([Value(p)] + d.text, d.pending))
      else if Partial(p) then Decode(p, bytes[1..])
      else None
  }

  /** Decoding piece by piece gives what decoding the whole gives. */
  lemma {:induction false} DecodeConcat(pending: seq<Byte>, a: seq<Byte>, b: seq<Byte>)
    requires Partial(pending)
    ensures Decode(pending, a).None? ==> Decode(pending, a + b).None?
    ensures Decode(pending, a).Some? ==>
      var d := Decode(pending, a).value;
      Decode(pending, a + b) == match Decode(d.pending, b)
                                case None => None
                                case Some(e) => Some(Decoded(d.text + e.text, e.pending))
    decreases |a|
  {
    if a == [] {
      assert a + b == b;
      var e := Decode(pending, b);
      assert e.Some? ==> [] + e.value.text == e.value.text;
    } else {
      assert (a + b)[1..] == a[1..] + b;
      var p := pending + [a[0]];
      if Whole(p) {
        DecodeConcat([], a[1..], b);
        if Decode([], a[1..]).Some? {
          var d := Decode([], a[1..]).value;
          var e := Decode(d.pending, b);
          assert e.Some? ==> [Value(p)] + (d.text + e.value.text) == ([Value(p)] + d.text) + e.value.text;
        }
      } else if Partial(p) {
        DecodeConcat(p, a[1..], b);
      }
    }
  }

  function Bytes(n: int): seq<Byte>
    requires 0 <= n < 0x11_0000
  {
    if n < 0x80 then [n]
    else if n < 0x800 then [0xC0 + n / 64, 0x80 + n % 64]
    else if n < 0x10000 then [0xE0 + n / 4096, 0x80 + n / 64 % 64, 0x80 + n % 64]
    else [0xF0 + n / 262144, 0x80 + n / 4096 % 64, 0x80 + n / 64 % 64, 0x80 + n % 64]
  }

  lemma NumberBytes3(n: int)
    requires 0x800 <= n < 0x10000 && !(0xD800 <= n < 0xE000)
    ensures Whole(Bytes(n)) && Number(Bytes(n)) == n
  {
    var x, y, z := n / 4096, n / 64 % 64, n % 64;
    assert n / 64 == 64 * x + y && n == 64 * (n / 64) + z;
    assert Bytes(n) == [0xE0 + x, 0x80 + y, 0x80 + z];
  }

  lemma NumberBytes4(n: int)
    requires 0x10000 <= n < 0x11_0000
    ensures Whole(Bytes(n)) && Number(Bytes(n)) == n
  {
    var w, x, y, z := n / 262144, n / 4096 % 64, n / 64 % 64, n % 64;
    assert n / 4096 == 64 * w + x && n / 64 == 64 * (n / 4096) + y && n == 64 * (n / 64) + z;
    assert Bytes(n) == [0xF0 + w, 0x80 + x, 0x80 + y, 0x80 + z];
  }

  lemma NumberBytes(n: int)
    requires 0 <= n < 0x11_0000 && !(0xD800 <= n < 0xE000)
    ensures Whole(Bytes(n)) && Number(Bytes(n)) == n
  {
    if n < 0x80 {
    } else if n < 0x800 {
      assert Bytes(n) == [0xC0 + n / 64, 0x80 + n % 64];
    } else {
      hide Bytes, Whole, Number;
      if n < 0x10000 { NumberBytes3(n); } else { NumberBytes4(n); }
    }
  }

  function Encode(c: char): seq<Byte> { Bytes(c as int) }

  function EncodeText(text: string): seq<Byte> {
    if text == [] then [] else Encode(text[0]) + EncodeText(text[1..])
  }

  lemma BytesNumber3(p: seq<Byte>)
    requires Whole(p) && |p| == 3
    ensures Bytes(Number(p)) == p
  {
    var n := Number(p);
    var a: int, b: int, c: int := p[0], p[1], p[2];
    assert n / 64 == (a - 0xE0) * 64 + (b - 0x80) && n % 64 == c - 0x80;
    assert n / 4096 == a - 0xE0;
  }

  lemma BytesNumber4(p: seq<Byte>)
    requires Whole(p) && |p| == 4
    ensures Bytes(Number(p)) == p
  {
    var n := Number(p);
    var a: int, b: int, c: int, d: int := p[0], p[1], p[2], p[3];
    assert n / 64 == (a - 0xF0) * 4096 + (b - 0x80) * 64 + (c - 0x80) && n % 64 == d - 0x80;
    assert n / 4096 == (a - 0xF0) * 64 + (b - 0x80);
    assert n / 262144 == a - 0xF0;
  }

  /** No two byte sequences stand for one character. */
  lemma BytesNumber(p: seq<Byte>)
    requires Whole(p)
    ensures Bytes(Number(p)) == p
  {
    if |p| <= 2 {
      var n := Number(p);
      if |p| == 2 { assert n / 64 == p[0] as int - 0xC0 && n % 64 == p[1] as int - 0x80; }
    } else {
      assert |p| == 3 || |p| == 4;
      hide Bytes, Number, Whole;
      if |p| == 3 { BytesNumber3(p); } else { BytesNumber4(p); }
    }
  }

  /** The parts of a character that comes in pieces are kept until it is whole. */
  lemma {:induction false} DecodePartial(p: seq<Byte>, k: nat, rest: seq<Byte>)
    requires Whole(p) && k < |p|
    ensures Partial(p[..k])
    ensures Decode(p[..k], p[k..] + rest) == match Decode([], rest)
                                             case None => None
                                             case Some(d) => Some(Decoded([Value(p)] + d.text, d.pending))
    decreases |p| - k
  {
    var bytes := p[k..] + rest;
    assert p[..k] + [bytes[0]] == p[..k + 1];
    if k + 1 == |p| {
      assert p[..k + 1] == p && bytes[1..] == rest;
    } else {
      assert bytes[1..] == p[k + 1..] + rest;
      DecodePartial(p, k + 1, rest);
      assert !Whole(p[..k + 1]);
    }
  }

  /** Decoding gives back every text, with nothing pending. */
  lemma {:induction false} DecodeEncode(text: string)
    ensures Decode([], EncodeText(text)) == Some(Decoded(text, []))
  {
    if text != [] {
      NumberBytes(text[0] as int);
      DecodeEncode(text[1..]);
      var p := Encode(text[0]);
      assert p[..0] == [] && p[0..] == p;
      DecodePartial(p, 0, EncodeText(text[1..]));
      assert [text[0]] + text[1..] == text;
    }
  }

  /** Only the encoding of a text decodes to it: there is no second way to write it. */
  lemma {:induction false} EncodeDecode(pending: seq<Byte>, bytes: seq<Byte>)
    requires Partial(pending) && Decode(pending, bytes).Some?
    ensures var d := Decode(pending, bytes).value;
            EncodeText(d.text) + d.pending == pending + bytes
    decreases |bytes|
  {
    hide Partial, Whole, Decode, EncodeText, Value;
    if bytes == [] {
      DecodeNothing(pending);
    } else {
      DecodeFirst(pending, bytes);
      var p := pending + [bytes[0]];
      FirstByte(pending, bytes);
      if Whole(p) {
        EncodeDecode([], bytes[1..]);
        var d := Decode([], bytes[1..]).value;
        EncodeFirst(p, d.text, d.pending, bytes[1..]);
      } else {
        EncodeDecode(p, bytes[1..]);
      }
    }
  }

  lemma DecodeNothing(pending: seq<Byte>)
    requires Partial(pending)
    ensures Decode(pending, []) == Some(Decoded([], pending)) && EncodeText([]) + pending == pending + []
  {
  }

  lemma FirstByte(pending: seq<Byte>, bytes: seq<Byte>)
    requires bytes != []
    ensures pending + bytes == (pending + [bytes[0]]) + bytes[1..]
  {
  }

  /** What the first byte does. */
  lemma DecodeFirst(pending: seq<Byte>, bytes: seq<Byte>)
    requires Partial(pending) && bytes != [] && Decode(pending, bytes).Some?
    ensures Partial([])
    ensures var p, rest := pending + [bytes[0]], bytes[1..];
            if Whole(p) then
              Decode([], rest).Some? && Decode(pending, bytes) == Some(Decoded([Value(p)] + Decode([], rest).value.text, Decode([], rest).value.pending))
            else Partial(p) && Decode(pending, bytes) == Decode(p, rest)
  {
    hide Value;
  }

  lemma EncodeFirst(p: seq<Byte>, text: string, pending: seq<Byte>, rest: seq<Byte>)
    requires Whole(p) && EncodeText(text) + pending == [] + rest
    ensures EncodeText([Value(p)] + text) + pending == p + rest
  {
    hide Whole;
    BytesNumber(p);
    assert ([Value(p)] + text)[1..] == text && ([Value(p)] + text)[0] == Value(p);
    assert EncodeText([Value(p)] + text) == p + EncodeText(text);
    hide EncodeText;
    assert (p + EncodeText(text)) + pending == p + (EncodeText(text) + pending);
  }
}
