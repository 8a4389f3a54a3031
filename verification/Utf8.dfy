/** What `Encoding.ValidUtf8` accepts: exactly the texts, encoded by the table of section 3 of RFC 3629. */
module Utf8 {
  import opened Encoding

  /** Surrogates are no characters. */
  type Scalar = c: nat | c < 0xD800 || 0xDFFF < c <= 0x10FFFF

  /** Six bits of a character behind its first byte. */
  function TailOf(c: nat): byte {
    0x80 + c % 64
  }

  function EncodeScalar(c: Scalar): (bs: Bytes)
    ensures 1 <= |bs| <= 4
  {
    if c < 0x80 then [c]
    else if c < 0x800 then [0xC0 + c / 64, TailOf(c)]
    else if c < 0x1_0000 then [0xE0 + c / 64 / 64, TailOf(c / 64), TailOf(c)]
    else [0xF0 + c / 64 / 64 / 64, TailOf(c / 64 / 64), TailOf(c / 64), TailOf(c)]
  }

  function EncodeText(cs: seq<Scalar>): Bytes {
    if cs == [] then [] else EncodeScalar(cs[0]) + EncodeText(cs[1..])
  }

  /** Adds the bits of one more byte. */
  function Join(c: nat, tail: byte): (d: nat)
    requires Tail(tail)
    ensures d / 64 == c && TailOf(d) == tail && 64 * c <= d < 64 * (c + 1)
  {
    64 * c + (tail - 0x80)
  }

  /** The character that well-formed bytes begin with. */
  function DecodeScalar(bs: Bytes): (c: nat)
    requires bs != [] && Utf8Length(bs) > 0
  {
    var n, b: int := Utf8Length(bs), bs[0];
    if n == 1 then b
    else if n == 2 then Join(b - 0xC0, bs[1])
    else if n == 3 then Join(Join(b - 0xE0, bs[1]), bs[2])
    else Join(Join(Join(b - 0xF0, bs[1]), bs[2]), bs[3])
  }

  lemma DecodedIsScalar(bs: Bytes)
    requires bs != [] && Utf8Length(bs) > 0
    ensures var c := DecodeScalar(bs);
            (c < 0xD800 || 0xDFFF < c <= 0x10FFFF) && EncodeScalar(c) == bs[..Utf8Length(bs)]
  {
    hide TailOf;
  }

  lemma Rejoined(c: nat)
    ensures Tail(TailOf(c)) && Join(c / 64, TailOf(c)) == c
  {
  }

  lemma ScalarIsWellFormed(c: Scalar, rest: Bytes)
    ensures Utf8Length(EncodeScalar(c) + rest) == |EncodeScalar(c)|
    ensures DecodeScalar(EncodeScalar(c) + rest) == c
  {
    Rejoined(c);
    Rejoined(c / 64);
    Rejoined(c / 64 / 64);
  }

  function DecodeText(bs: Bytes): seq<Scalar>
    requires ValidUtf8(bs)
  {
    if bs == [] then []
    else
      DecodedIsScalar(bs);
      [DecodeScalar(bs)] + DecodeText(bs[Utf8Length(bs)..])
  }

  lemma {:induction false} TextIsValid(cs: seq<Scalar>)
    ensures ValidUtf8(EncodeText(cs)) && DecodeText(EncodeText(cs)) == cs
  {
    hide EncodeScalar, DecodeScalar, Utf8Length;
    if cs != [] {
      var head, tail := EncodeScalar(cs[0]), EncodeText(cs[1..]);
      ScalarIsWellFormed(cs[0], tail);
      assert (head + tail)[|head|..] == tail;
      TextIsValid(cs[1..]);
    }
  }

  lemma {:induction false} ValidIsText(bs: Bytes)
    requires ValidUtf8(bs)
    ensures EncodeText(DecodeText(bs)) == bs
  {
    hide EncodeScalar, DecodeScalar, Utf8Length;
    if bs != [] {
      var n := Utf8Length(bs);
      ValidIsText(bs[n..]);
      DecodedIsScalar(bs);
      assert bs == bs[..n] + bs[n..];
    }
  }

  /** Bytes are accepted if and only if they are the encoding of some text, and of one only. */
  lemma ValidMeansText(bs: Bytes)
    ensures ValidUtf8(bs) <==> exists cs: seq<Scalar> :: EncodeText(cs) == bs
    ensures forall cs: seq<Scalar>, ds: seq<Scalar> :: EncodeText(cs) == bs && EncodeText(ds) == bs ==> cs == ds
  {
    hide ValidUtf8, EncodeText, DecodeText;
    if ValidUtf8(bs) {
      ValidIsText(bs);
    }
    forall cs: seq<Scalar> | EncodeText(cs) == bs ensures ValidUtf8(bs) && DecodeText(bs) == cs {
      TextIsValid(cs);
    }
  }
}
