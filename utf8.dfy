/** The UTF-8 form of a wide string, as WideCharToMultiByte with CP_UTF8
    produces it for text made of Unicode scalar values. */
module Utf8 {
  import opened Wrappers
  import opened InjectorApi

  type Text = seq<char>

  /** The one to four bytes of one scalar value: a lead byte carrying the
      length and the top bits, then six bits per continuation byte. */
  function EncodeChar(c: char): (b: seq<Byte>)
    ensures 1 <= |b| <= 4
    ensures |b| == 1 <==> c as int < 0x80
  {
    var v := c as int;
    var q1 := v / 64;
    var q2 := q1 / 64;
    if v < 0x80 then [v]
    else if v < 0x800 then [0xC0 + q1, 0x80 + v % 64]
    else if v < 0x10000 then [0xE0 + q2, 0x80 + q1 % 64, 0x80 + v % 64]
    else [0xF0 + q2 / 64, 0x80 + q2 % 64, 0x80 + q1 % 64, 0x80 + v % 64]
  }

  /** The UTF-8 form of a string: each character's bytes, in order. */
  function Encode(t: Text): seq<Byte>
  {
    if t == [] then [] else EncodeChar(t[0]) + Encode(t[1..])
  }

  /** How many bytes the sequence led by `b` takes, 0 for a byte that
      cannot lead one. */
  function LeadLength(b: Byte): nat
  {
    if b < 0x80 then 1
    else if b < 0xC0 then 0
    else if b < 0xE0 then 2
    else if b < 0xF0 then 3
    else if b < 0xF8 then 4
    else 0
  }

  function Continuation(b: Byte): nat
  {
    if 0x80 <= b < 0xC0 then b - 0x80 else 0
  }

  /** The value a complete sequence of `n` bytes carries. */
  function SequenceValue(b: seq<Byte>, n: nat): int
    requires 1 <= n <= |b| && n <= 4
  {
    if n == 1 then b[0]
    else if n == 2 then (b[0] - 0xC0) * 64 + Continuation(b[1])
    else if n == 3 then (b[0] - 0xE0) * 4096 + Continuation(b[1]) * 64 + Continuation(b[2])
    else (b[0] - 0xF0) * 262144 + Continuation(b[1]) * 4096 + Continuation(b[2]) * 64 + Continuation(b[3])
  }

  /** A reader of UTF-8: None for a byte that cannot lead, a truncated
      sequence or a value that is not a scalar value. */
  function Decode(b: seq<Byte>): Option<Text>
  {
    if b == [] then Some([])
    else
      var n := LeadLength(b[0]);
      if n == 0 || |b| < n then None
      else
        var v := SequenceValue(b, n);
        if v < 0 || v > 0x10FFFF || 0xD800 <= v < 0xE000 then None
        else
          match Decode(b[n..])
          case None => None
          case Some(rest) => Some([v as char] + rest)
  }

  /** One character's bytes are led by a byte announcing their number and
      carry the character's value. */
  lemma EncodeCharReads(c: char)
    ensures var b := EncodeChar(c);
      LeadLength(b[0]) == |b| && SequenceValue(b, |b|) == c as int
  {
    var v := c as int;
    var q1 := v / 64;
    var q2 := q1 / 64;
    assert v == q1 * 64 + v % 64;
    assert q1 == q2 * 64 + q1 % 64;
    assert q2 == (q2 / 64) * 64 + q2 % 64;
  }

  /** Reading a character's bytes and then more bytes gives the character
      and then what the further bytes read as. */
  lemma DecodeStep(c: char, more: seq<Byte>)
    ensures Decode(EncodeChar(c) + more) ==
      match Decode(more)
      case None => None
      case Some(rest) => Some([c] + rest)
  {
    var b := EncodeChar(c) + more;
    var n := |EncodeChar(c)|;
    EncodeCharReads(c);
    assert b[0] == EncodeChar(c)[0];
    assert SequenceValue(b, n) == SequenceValue(EncodeChar(c), n);
    assert b[n..] == more;
  }

  /** The UTF-8 form of every string reads back as that string. */
  lemma {:induction false} DecodeEncode(t: Text)
    ensures Decode(Encode(t)) == Some(t)
  {
    if t != [] {
      DecodeEncode(t[1..]);
      DecodeStep(t[0], Encode(t[1..]));
      assert [t[0]] + t[1..] == t;
    }
  }

  /** Every character takes at least one and at most four bytes; the empty
      string takes none. */
  lemma {:induction false} EncodeLength(t: Text)
    ensures |t| <= |Encode(t)| <= 4 * |t|
    ensures Encode(t) == [] <==> t == []
  {
    if t != [] {
      EncodeLength(t[1..]);
    }
  }
}
