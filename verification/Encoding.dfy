/** The wire codec: unsigned LEB128 integers (section 7.6 of DWARF 5) in 64 bits, and
    length-prefixed fields.

    The source has two implementations of it. Both are here with their loops, and both are proved
    against one specification function, which in turn is proved against an independent reading of
    what the bytes mean: the little-endian value of their low seven bits. */
module Encoding {

  type byte = x: int | 0 <= x < 256
  type Bytes = seq<byte>

  const TWO_64 := 0x1_0000_0000_0000_0000
  type u64 = x: int | 0 <= x < TWO_64

  /** No slice is longer than this. */
  const MAX_SLICE := 0x7FFF_FFFF_FFFF_FFFF

  // ---------------------------------------------------------------- arithmetic of bits

  function Pow2(n: nat): (p: nat)
    ensures p > 0
  {
    if n == 0 then 1 else 2 * Pow2(n - 1)
  }

  function BitOr(a: nat, b: nat): nat {
    if a == 0 && b == 0 then 0
    else 2 * BitOr(a / 2, b / 2) + (if a % 2 == 1 || b % 2 == 1 then 1 else 0)
  }

  /** A left shift in 64 bits. */
  function Shl64(x: nat, shift: nat): u64 {
    (x * Pow2(shift)) % TWO_64
  }

  lemma {:induction false} OrIsSum(a: nat, b: nat, s: nat)
    requires a < Pow2(s)
    ensures BitOr(a, b * Pow2(s)) == a + b * Pow2(s)
    decreases s, b
  {
    if s == 0 {
      OrZero(b);
    } else {
      var half := b * Pow2(s - 1);
      assert b * Pow2(s) == 2 * half;
      OrIsSum(a / 2, b, s - 1);
    }
  }

  lemma OrZero(b: nat)
    ensures BitOr(0, b) == b
  {
  }

  lemma Pow2Sum(a: nat, b: nat)
    ensures Pow2(a + b) == Pow2(a) * Pow2(b)
  {
    if a > 0 {
      Pow2Sum(a - 1, b);
    }
  }

  lemma TwoTo64()
    ensures Pow2(64) == TWO_64 && Pow2(7) == 128
  {
    hide Pow2;
    SmallPowers();
    Pow2Sum(3, 4);
    Pow2Sum(4, 4);
    Pow2Sum(8, 8);
    Pow2Sum(16, 16);
    Pow2Sum(32, 32);
  }

  lemma SmallPowers()
    ensures Pow2(3) == 8 && Pow2(4) == 16
  {
    assert Pow2(2) == 4;
  }

  /** A shifted group of seven bits loses what exceeds 64 bits, and stays a multiple of its weight. */
  lemma ShlIsMultiple(x: nat, s: nat)
    requires s <= 64
    ensures Shl64(x, s) == (x % Pow2(64 - s)) * Pow2(s)
  {
    hide Pow2;
    Pow2Sum(s, 64 - s);
    TwoTo64();
    SplitGroup(0, x, Pow2(s), Pow2(64 - s));
  }

  lemma MulLess(a: nat, b: nat, c: nat)
    requires a < b && c > 0
    ensures 0 <= a * c < b * c
  {
  }

  lemma QuotientIsUnique(q: nat, rest: nat, k: nat, r: nat, m: nat)
    requires q * m + rest == k * m + r && rest < m && r < m
    ensures rest == r
  {
    if q > k {
      assert q * m == k * m + (q - k) * m;
      AtLeast(q - k, m);
    } else if q < k {
      assert k * m == q * m + (k - q) * m;
      AtLeast(k - q, m);
    }
  }

  lemma AtLeast(a: nat, b: nat)
    requires a > 0
    ensures a * b >= b
  {
  }

  lemma ModOfSum(k: nat, m: nat, r: nat)
    requires r < m
    ensures (k * m + r) % m == r
  {
    var x := k * m + r;
    QuotientIsUnique(x / m, x % m, k, r, m);
  }

  // ---------------------------------------------------------------- writing

  function EncodeUint(v: nat): (bs: Bytes)
    ensures |bs| > 0
  {
    if v < 128 then [v] else [v % 128 + 128] + EncodeUint(v / 128)
  }

  lemma HighBit(b: nat)
    requires b < 128
    ensures BitOr(b, 0x80) == b + 128
  {
    OrIsSum(b, 1, 7);
    TwoTo64();
  }

  /** The loop of `write_var_uint`. */
  method WriteVarUint(buf: Bytes, v: u64) returns (out: Bytes)
    ensures out == buf + EncodeUint(v)
  {
    hide BitOr, Pow2;
    out := buf;
    var value: nat := v;
    var more := true;
    while more
      invariant more ==> out + EncodeUint(value) == buf + EncodeUint(v)
      invariant !more ==> out == buf + EncodeUint(v)
      decreases more, value
    {
      ghost var before := value;
      var b: nat := value % 128;
      value := value / 128;
      if value > 0 {
        HighBit(b);
        b := BitOr(b, 0x80);
      }
      assert EncodeUint(before) == [b] + (if value == 0 then [] else EncodeUint(value));
      out := out + [b];
      more := value != 0;
    }
  }

  function EncodeField(bs: Bytes): Bytes {
    EncodeUint(|bs|) + bs
  }

  /** `write_var_string` and `write_var_uint8_array`, which write the same bytes. */
  method WriteVarBytes(buf: Bytes, bs: Bytes) returns (out: Bytes)
    requires |bs| <= MAX_SLICE
    ensures out == buf + EncodeField(bs)
  {
    out := WriteVarUint(buf, |bs|);
    out := out + bs;
  }

  // ---------------------------------------------------------------- reading

  datatype UintResult =
    | Uint(value: u64, next: nat)
    | UintEof(next: nat)
    | UintTooLarge(next: nat)

  /** The rest of the reader's loop, with `shift` bits of `acc` already read. */
  function ReadUintFrom(data: Bytes, pos: nat, shift: nat, acc: u64): UintResult
    decreases 64 - shift
  {
    if pos >= |data| then UintEof(pos)
    else
      var acc' := Or64(acc, Shl64(data[pos] % 128, shift));
      if data[pos] < 128 then Uint(acc', pos + 1)
      else if shift + 7 >= 64 then UintTooLarge(pos + 1)
      else ReadUintFrom(data, pos + 1, shift + 7, acc')
  }

  function ReadUint(data: Bytes, pos: nat): UintResult {
    ReadUintFrom(data, pos, 0, 0)
  }

  function Or64(a: u64, b: u64): (r: u64)
  {
    TwoTo64();
    OrFits(a, b, 64);
    BitOr(a, b)
  }

  lemma OrFits(a: nat, b: nat, n: nat)
    requires a < Pow2(n) && b < Pow2(n)
    ensures BitOr(a, b) < Pow2(n)
  {
    if n > 0 {
      OrFits(a / 2, b / 2, n - 1);
    }
  }

  /** A field: its bytes and the next position, an error, or - when position plus length do not fit
      in 64 bits - a panic, by the overflow check or else by the slice that it would make. */
  datatype FieldResult =
    | Field(bytes: Bytes, next: nat)
    | FieldError(next: nat)
    | FieldPanic

  function ReadBytes(data: Bytes, pos: nat): (r: FieldResult)
  {
    match ReadUint(data, pos)
    case Uint(len, p) =>
      if p + len >= TWO_64 then FieldPanic
      else if p + len > |data| then FieldError(p)
      else Field(data[p..p + len], p + len)
    case UintEof(p) => FieldError(p)
    case UintTooLarge(p) => FieldError(p)
  }

  /** UTF-8 as RFC 3629 defines it in section 4: no overlong forms, no surrogates, nothing above U+10FFFF. */
  predicate ValidUtf8(bs: Bytes) {
    bs == [] ||
    var n := Utf8Length(bs);
    n > 0 && ValidUtf8(bs[n..])
  }

  predicate Tail(b: byte) {
    0x80 <= b <= 0xBF
  }

  /** The length of the well-formed character that `bs` begins with, or 0. */
  function Utf8Length(bs: Bytes): (n: nat)
    requires bs != []
    ensures n <= |bs|
  {
    var b := bs[0];
    if b <= 0x7F then 1
    else if 0xC2 <= b <= 0xDF then if |bs| >= 2 && Tail(bs[1]) then 2 else 0
    else if 0xE0 <= b <= 0xEF then
      if |bs| >= 3 && Tail(bs[1]) && Tail(bs[2])
         && (b == 0xE0 ==> bs[1] >= 0xA0) && (b == 0xED ==> bs[1] <= 0x9F) then 3 else 0
    else if 0xF0 <= b <= 0xF4 then
      if |bs| >= 4 && Tail(bs[1]) && Tail(bs[2]) && Tail(bs[3])
         && (b == 0xF0 ==> bs[1] >= 0x90) && (b == 0xF4 ==> bs[1] <= 0x8F) then 4 else 0
    else 0
  }

  function ReadString(data: Bytes, pos: nat): FieldResult {
    match ReadBytes(data, pos)
    case Field(bs, p) => if ValidUtf8(bs) then Field(bs, p) else FieldError(p - |bs|)
    case r => r
  }

  // ---------------------------------------------------------------- what the bytes mean

  /** The little-endian value of the low seven bits of each byte. */
  function Value7(bs: Bytes): nat {
    if bs == [] then 0 else bs[0] % 128 + 128 * Value7(bs[1..])
  }

  /** `bs` is one whole integer: every byte but the last has its high bit set. */
  predicate Terminated(bs: Bytes) {
    bs != [] && bs[|bs|-1] < 128 && forall i :: 0 <= i < |bs| - 1 ==> bs[i] >= 128
  }

  /** Reading an integer means: some 1 to 10 bytes make a whole integer, and its value is theirs in 64 bits. */
  ghost predicate Spells(data: Bytes, pos: nat, v: u64, next: nat) {
    pos < next <= |data| && next <= pos + 10 && Terminated(data[pos..next]) && v == Value7(data[pos..next]) % TWO_64
  }

  lemma TailSpells(data: Bytes, pos: nat, next: nat)
    requires pos + 1 < next <= |data|
    ensures data[pos..next] == [data[pos]] + data[pos+1..next]
    ensures Terminated(data[pos..next]) <==> data[pos] >= 128 && Terminated(data[pos+1..next])
    ensures Value7(data[pos..next]) == data[pos] % 128 + 128 * Value7(data[pos+1..next])
  {
    var bs, tail := data[pos..next], data[pos+1..next];
    assert bs[1..] == tail;
    assert forall i :: 0 <= i < |tail| ==> tail[i] == bs[i+1];
    assert forall i :: 1 <= i < |bs| ==> bs[i] == tail[i-1];
  }

  lemma Value7Bound(bs: Bytes)
    ensures Value7(bs) < Pow2(7 * |bs|)
  {
    if bs != [] {
      Value7Bound(bs[1..]);
      Pow2Sum(7, 7 * (|bs| - 1));
      TwoTo64();
      assert 7 * |bs| == 7 + 7 * (|bs| - 1);
    }
  }

  /** One turn of the loop: `or`-ing the next group in adds it, in 64 bits. */
  lemma OrAddsGroup(acc: u64, g: nat, shift: nat)
    requires g < 128 && shift < 64 && acc < Pow2(shift)
    ensures Or64(acc, Shl64(g, shift)) == (acc + g * Pow2(shift)) % TWO_64
  {
    hide Pow2, BitOr, Shl64;
    var p, q := Pow2(shift), Pow2(64 - shift);
    ShlIsMultiple(g, shift);
    OrIsSum(acc, g % q, shift);
    TwoTo64();
    Pow2Sum(shift, 64 - shift);
    SplitGroup(acc, g, p, q);
  }

  lemma SplitGroup(acc: nat, g: nat, p: nat, q: nat)
    requires acc < p && q > 0
    ensures (acc + g * p) % (p * q) == acc + (g % q) * p < p * q
  {
    var low := (g % q) * p;
    assert acc + low < p * q by {
      assert (g % q + 1) * p == low + p;
      MulAtMost(g % q + 1, q, p);
    }
    GroupQuotient(g, p, q);
    ModOfSum(g / q, p * q, acc + low);
  }

  lemma GroupQuotient(g: nat, p: nat, q: nat)
    requires q > 0
    ensures g * p == (g / q) * (p * q) + (g % q) * p
  {
    var k, r := g / q, g % q;
    assert g == k * q + r;
    assert (k * q + r) * p == k * (p * q) + r * p by { Distribute(k, q, r, p); }
  }

  lemma Distribute(k: nat, q: nat, r: nat, p: nat)
    ensures (k * q + r) * p == k * (p * q) + r * p
  {
    assert (k * q) * p == k * (q * p);
  }

  lemma GroupFits(acc: nat, g: nat, shift: nat)
    requires g < 128 && shift + 7 < 64 && acc < Pow2(shift)
    ensures acc + g * Pow2(shift) < Pow2(shift + 7) < TWO_64
  {
    hide Pow2;
    var p := Pow2(shift);
    TwoTo64();
    Pow2Sum(7, shift);
    Pow2Sum(shift + 7, 64 - shift - 7);
    assert (g + 1) * p == g * p + p;
    MulAtMost(g + 1, 128, p);
    MulLess(1, 2, Pow2(shift + 7));
    MulAtMost(2, Pow2(64 - shift - 7), Pow2(shift + 7)) by { Pow2Sum(1, 64 - shift - 8); Pow2One(); AtLeast(Pow2(64 - shift - 8), 2); }
  }

  lemma Pow2One()
    ensures Pow2(1) == 2
  {
  }

  lemma MulAtMost(a: nat, b: nat, c: nat)
    requires a <= b
    ensures a * c <= b * c
  {
  }

  /** The loop from `shift` on spells the rest of the integer, weighed by what was read before. */
  lemma {:induction false} LoopMeaning(data: Bytes, pos: nat, shift: nat, acc: u64)
    requires shift < 64 && shift % 7 == 0 && acc < Pow2(shift)
    ensures var r := ReadUintFrom(data, pos, shift, acc);
            r.Uint? ==>
              && pos < r.next <= |data| && 7 * (r.next - pos - 1) <= 63 - shift && Terminated(data[pos..r.next])
              && r.value == (acc + Value7(data[pos..r.next]) * Pow2(shift)) % TWO_64
    decreases 64 - shift
  {
    hide Pow2, BitOr, Shl64, Or64;
    if pos < |data| {
      var g := data[pos] % 128;
      OrAddsGroup(acc, g, shift);
      if data[pos] < 128 {
        assert data[pos..pos+1] == [data[pos]];
        assert Value7([data[pos]]) == g;
      } else if shift + 7 < 64 {
        var acc' := Or64(acc, Shl64(g, shift));
        GroupFits(acc, g, shift);
        SmallMod(acc + g * Pow2(shift));
        LoopMeaning(data, pos + 1, shift + 7, acc');
        var r := ReadUintFrom(data, pos + 1, shift + 7, acc');
        if r.Uint? {
          TailSpells(data, pos, r.next);
          Pow2Sum(7, shift);
          TwoTo64();
          WeighedStep(g, Value7(data[pos+1..r.next]), Pow2(shift));
        }
      }
    }
  }

  lemma SmallMod(x: nat)
    requires x < TWO_64
    ensures x % TWO_64 == x
  {
  }

  lemma WeighedStep(g: nat, v: nat, p: nat)
    ensures (g + 128 * v) * p == g * p + v * (128 * p)
  {
  }

  /** Whole integers of few enough bytes are read to their end. */
  lemma {:induction false} LoopCompletes(data: Bytes, pos: nat, shift: nat, acc: u64, next: nat)
    requires shift < 64 && shift % 7 == 0
    requires pos < next <= |data| && 7 * (next - pos - 1) <= 63 - shift && Terminated(data[pos..next])
    ensures ReadUintFrom(data, pos, shift, acc).Uint? && ReadUintFrom(data, pos, shift, acc).next == next
    decreases next - pos
  {
    hide Or64, Shl64;
    var bs := data[pos..next];
    assert bs[0] == data[pos];
    if pos + 1 < next {
      TailSpells(data, pos, next);
      LoopCompletes(data, pos + 1, shift + 7, Or64(acc, Shl64(data[pos] % 128, shift)), next);
    }
  }

  /** The reader returns `v` and stops at `next` exactly when the bytes up to `next` spell `v`. */
  lemma ReadMeansSpells(data: Bytes, pos: nat, v: u64, next: nat)
    ensures ReadUint(data, pos) == Uint(v, next) <==> Spells(data, pos, v, next)
  {
    Pow2Zero();
    if ReadUint(data, pos) == Uint(v, next) || Spells(data, pos, v, next) {
      if Spells(data, pos, v, next) {
        LoopCompletes(data, pos, 0, 0, next);
      }
      LoopMeaning(data, pos, 0, 0);
    }
    hide ReadUintFrom, Terminated, Value7;
  }

  lemma Pow2Zero()
    ensures Pow2(0) == 1
  {
  }

  predicate AllHigh(data: Bytes, pos: nat, next: nat)
    requires pos <= next <= |data|
  {
    forall i :: pos <= i < next ==> data[i] >= 128
  }

  /** It fails exactly on a tenth byte that promises more, or on the end of the data before that,
      and never looks past the tenth byte. */
  lemma {:induction false} LoopFails(data: Bytes, pos: nat, shift: nat, acc: u64)
    requires shift < 64 && shift % 7 == 0 && pos <= |data|
    ensures var r, last := ReadUintFrom(data, pos, shift, acc), pos + (63 - shift) / 7 + 1;
            && (r.UintTooLarge? <==> last <= |data| && AllHigh(data, pos, last))
            && (r.UintEof? <==> |data| < last && AllHigh(data, pos, |data|))
            && r.next <= last && r.next <= |data| && (!r.Uint? ==> r.next == if |data| < last then |data| else last)
    decreases 64 - shift
  {
    hide Or64, Shl64;
    if pos < |data| && data[pos] >= 128 && shift + 7 < 64 {
      LoopFails(data, pos + 1, shift + 7, Or64(acc, Shl64(data[pos] % 128, shift)));
    }
  }

  lemma ReaderStopsWithinTen(data: Bytes, pos: nat)
    requires pos <= |data|
    ensures var r := ReadUint(data, pos);
            && r.next <= pos + 10 && r.next <= |data|
            && (r.UintTooLarge? <==> pos + 10 <= |data| && AllHigh(data, pos, pos + 10))
            && (r.UintEof? <==> |data| < pos + 10 && AllHigh(data, pos, |data|))
  {
    LoopFails(data, pos, 0, 0);
  }

  // ---------------------------------------------------------------- round trips

  lemma {:induction false} EncodingSpells(v: nat)
    ensures Terminated(EncodeUint(v)) && Value7(EncodeUint(v)) == v
  {
    if v >= 128 {
      EncodingSpells(v / 128);
      assert EncodeUint(v)[1..] == EncodeUint(v / 128);
    }
  }

  function Bits(v: nat): nat {
    if v == 0 then 0 else 1 + Bits(v / 2)
  }

  lemma HalfOfBits(v: nat)
    requires v > 0
    ensures Bits(v) == 1 + Bits(v / 2)
  {
  }

  lemma QuarterOfBits(v: nat)
    requires v >= 2
    ensures Bits(v) == 2 + Bits(v / 4)
  {
    hide Bits;
    HalfOfBits(v);
    HalfOfBits(v / 2);
    assert v / 2 / 2 == v / 4;
  }

  lemma BitsOfGroup(v: nat)
    requires v >= 128
    ensures Bits(v) == 7 + Bits(v / 128)
  {
    hide Bits;
    QuarterOfBits(v);
    QuarterOfBits(v / 4);
    QuarterOfBits(v / 16);
    HalfOfBits(v / 64);
    assert v / 4 / 4 == v / 16 && v / 16 / 4 == v / 64 && v / 64 / 2 == v / 128;
  }

  lemma {:induction false} BitsAtMost(v: nat, n: nat)
    ensures Bits(v) <= n <==> v < Pow2(n)
    decreases n
  {
    if n > 0 {
      BitsAtMost(v / 2, n - 1);
    }
  }

  /** One byte for each group of seven bits, and at least one. */
  lemma {:induction false} EncodedLength(v: nat)
    ensures |EncodeUint(v)| == if v == 0 then 1 else (Bits(v) + 6) / 7
  {
    TwoTo64();
    BitsAtMost(v, 7);
    BitsAtMost(v, 0);
    Pow2Zero();
    if v >= 128 {
      EncodedLength(v / 128);
      BitsOfGroup(v);
    }
    hide Bits, Pow2;
  }

  lemma EncodedAtMost(v: nat, k: nat)
    requires k > 0 && v < Pow2(7 * k)
    ensures |EncodeUint(v)| <= k
  {
    EncodedLength(v);
    BitsAtMost(v, 7 * k);
    hide Bits, Pow2, EncodeUint;
  }

  lemma U64TakesAtMostTen(v: u64)
    ensures |EncodeUint(v)| <= 10
  {
    TwoTo64();
    Pow2Sum(64, 6);
    EncodedAtMost(v, 10);
  }

  lemma SliceOfConcat(pre: Bytes, bs: Bytes, rest: Bytes)
    ensures (pre + bs + rest)[|pre|..|pre| + |bs|] == bs
  {
  }

  lemma EncodingSpellsThere(pre: Bytes, v: u64, rest: Bytes)
    ensures Spells(pre + EncodeUint(v) + rest, |pre|, v, |pre| + |EncodeUint(v)|)
  {
    hide EncodeUint, Value7, Terminated;
    EncodingSpells(v);
    U64TakesAtMostTen(v);
    SliceOfConcat(pre, EncodeUint(v), rest);
  }

  /** Whatever precedes and follows it, an encoded 64-bit value is read back, to the byte. */
  lemma UintRoundTrip(pre: Bytes, v: u64, rest: Bytes)
    ensures ReadUint(pre + EncodeUint(v) + rest, |pre|) == Uint(v, |pre| + |EncodeUint(v)|)
  {
    hide ReadUint, EncodeUint, Spells;
    EncodingSpellsThere(pre, v, rest);
    ReadMeansSpells(pre + EncodeUint(v) + rest, |pre|, v, |pre| + |EncodeUint(v)|);
  }

  /** Whatever is accepted, overlong or overflowing, re-encodes to no more bytes than were read. */
  lemma ReencodingIsNoLonger(data: Bytes, pos: nat, v: u64, next: nat)
    requires ReadUint(data, pos) == Uint(v, next)
    ensures |EncodeUint(v)| <= next - pos
  {
    hide ReadUint, EncodeUint, Pow2, Value7, Terminated;
    ReadMeansSpells(data, pos, v, next);
    Value7Bound(data[pos..next]);
    EncodedAtMost(v, next - pos);
  }

  lemma BytesRoundTrip(pre: Bytes, bs: Bytes, rest: Bytes)
    requires |pre| + |EncodeField(bs)| + |rest| <= MAX_SLICE
    ensures ReadBytes(pre + EncodeField(bs) + rest, |pre|) == Field(bs, |pre| + |EncodeField(bs)|)
  {
    hide ReadUint, EncodeUint;
    var data := pre + EncodeField(bs) + rest;
    assert data == pre + EncodeUint(|bs|) + (bs + rest);
    UintRoundTrip(pre, |bs|, bs + rest);
    var head := pre + EncodeUint(|bs|);
    assert data == head + bs + rest;
    SliceOfConcat(head, bs, rest);
  }

  lemma StringRoundTrip(pre: Bytes, bs: Bytes, rest: Bytes)
    requires |pre| + |EncodeField(bs)| + |rest| <= MAX_SLICE && ValidUtf8(bs)
    ensures ReadString(pre + EncodeField(bs) + rest, |pre|) == Field(bs, |pre| + |EncodeField(bs)|)
  {
    hide ReadBytes, ValidUtf8;
    BytesRoundTrip(pre, bs, rest);
  }
}
