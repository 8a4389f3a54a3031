/** When a length-prefixed field is read, when it is an error and when a panic, in terms of the data alone. */
module Fields {
  import opened Encoding

  /** No integer begins at `pos`: ten bytes promise more, or the data ends before that; the reader
      then stops at `next`. */
  ghost predicate SpellsNothing(data: Bytes, pos: nat, next: nat) {
    && pos <= next <= |data| && AllHigh(data, pos, next)
    && (next == pos + 10 || (next == |data| && |data| < pos + 10))
  }

  /** The reader of integers returns what is spelled, and fails exactly where nothing is. */
  lemma ReaderFailsOnNothing(data: Bytes, pos: nat, next: nat)
    requires pos <= |data|
    ensures ReadUint(data, pos) in {UintEof(next), UintTooLarge(next)} <==> SpellsNothing(data, pos, next)
  {
    hide ReadUintFrom;
    LoopFails(data, pos, 0, 0);
  }

  /** A field is read exactly if its length is spelled, and it fits in 64 bits and into the data. */
  lemma FieldIsSpelled(data: Bytes, pos: nat, bs: Bytes, next: nat)
    ensures ReadBytes(data, pos) == Field(bs, next)
       <==> exists p: nat :: |bs| < TWO_64 && Spells(data, pos, |bs|, p) && p + |bs| == next
                             && next < TWO_64 && next <= |data| && data[p..next] == bs
  {
    hide ReadUint, Spells;
    match ReadUint(data, pos)
    case Uint(len, p) =>
      ReadMeansSpells(data, pos, len, p);
      if ReadBytes(data, pos) == Field(bs, next) {
        assert Spells(data, pos, |bs|, p);
      }
      forall p': nat | |bs| < TWO_64 && Spells(data, pos, |bs|, p') ensures p' == p && |bs| == len {
        ReadMeansSpells(data, pos, |bs|, p');
      }
    case _ =>
      forall p: nat | |bs| < TWO_64 ensures !Spells(data, pos, |bs|, p) {
        ReadMeansSpells(data, pos, |bs|, p);
      }
  }

  /** Reading it panics exactly if the end of the field that the length spells does not fit in 64 bits. */
  lemma PanicIsOverflow(data: Bytes, pos: nat)
    ensures ReadBytes(data, pos).FieldPanic? <==> exists len: u64, p: nat :: Spells(data, pos, len, p) && p + len >= TWO_64
  {
    hide ReadUint, Spells;
    forall len: u64, p: nat ensures Spells(data, pos, len, p) <==> ReadUint(data, pos) == Uint(len, p) {
      ReadMeansSpells(data, pos, len, p);
    }
  }

  /** It is an error, with the reader at `next`, exactly if no length is spelled up to there, or one
      that goes beyond the data. */
  lemma ErrorIsTruncation(data: Bytes, pos: nat, next: nat)
    requires pos <= |data|
    ensures ReadBytes(data, pos) == FieldError(next)
       <==> SpellsNothing(data, pos, next)
            || exists len: u64 :: Spells(data, pos, len, next) && |data| < next + len < TWO_64
  {
    hide ReadUint, Spells, SpellsNothing;
    ReaderFailsOnNothing(data, pos, next);
    forall len: u64 ensures Spells(data, pos, len, next) <==> ReadUint(data, pos) == Uint(len, next) {
      ReadMeansSpells(data, pos, len, next);
    }
  }

  /** The same for texts: they are fields of UTF-8, and others are errors behind their length. */
  lemma TextIsUtf8Field(data: Bytes, pos: nat, bs: Bytes, next: nat)
    ensures ReadString(data, pos) == Field(bs, next) <==> ReadBytes(data, pos) == Field(bs, next) && ValidUtf8(bs)
    ensures ReadString(data, pos) == FieldError(next)
       <==> ReadBytes(data, pos) == FieldError(next)
            || exists text: Bytes :: ReadBytes(data, pos) == Field(text, next + |text|) && !ValidUtf8(text)
    ensures ReadString(data, pos).FieldPanic? <==> ReadBytes(data, pos).FieldPanic?
  {
    hide ReadBytes, ValidUtf8;
    match ReadBytes(data, pos)
    case Field(text, p) =>
      FieldEnds(data, pos, text, p);
      if !ValidUtf8(text) && p - |text| == next {
        assert ReadBytes(data, pos) == Field(text, next + |text|);
      }
    case _ =>
  }

  lemma FieldEnds(data: Bytes, pos: nat, bs: Bytes, next: nat)
    requires ReadBytes(data, pos) == Field(bs, next)
    ensures |bs| <= next <= |data|
  {
    hide ReadUint;
  }

  // ---------------------------------------------------------------- what is cut off

  /** An integer that is cut off is no integer. */
  lemma TruncatedUint(pre: Bytes, v: u64, n: nat)
    requires n < |EncodeUint(v)|
    ensures ReadUint(pre + EncodeUint(v)[..n], |pre|).UintEof?
  {
    hide ReadUint, EncodeUint, Value7;
    var data := pre + EncodeUint(v)[..n];
    EncodingSpells(v);
    U64TakesAtMostTen(v);
    assert forall i :: |pre| <= i < |data| ==> data[i] == EncodeUint(v)[i - |pre|];
    ReaderStopsWithinTen(data, |pre|);
  }

  /** A field that is cut off anywhere is an error, not a panic. */
  lemma TruncatedField(pre: Bytes, bs: Bytes, n: nat)
    requires n < |EncodeField(bs)| && |pre| + |EncodeField(bs)| <= MAX_SLICE
    ensures ReadBytes(pre + EncodeField(bs)[..n], |pre|).FieldError?
    ensures ReadString(pre + EncodeField(bs)[..n], |pre|).FieldError?
  {
    hide ReadUint, EncodeUint;
    var size := |EncodeUint(|bs|)|;
    if n < size {
      TruncatedUint(pre, |bs|, n);
      assert EncodeField(bs)[..n] == EncodeUint(|bs|)[..n];
    } else {
      assert pre + EncodeField(bs)[..n] == pre + EncodeUint(|bs|) + bs[..n - size];
      UintRoundTrip(pre, |bs|, bs[..n - size]);
    }
  }
}
