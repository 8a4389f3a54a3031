/** What a frame makes a connection do, byte by byte, for the frames that clients send and those that
    no builder writes: tokens, unknown types, cut-off fields, fields that are no texts or do not fit. */
module ReceiverOutcomes {
  import opened Encoding
  import opened Fields
  import opened Frames
  import opened MessageReceivers

  /** A number of one byte. */
  lemma ByteAt(data: Bytes, pos: nat, v: byte)
    requires pos < |data| && data[pos] == v < 128
    ensures ReadUint(data, pos) == Uint(v, pos + 1)
  {
    hide ReadUint;
    assert data[pos..pos+1] == [v] && Value7([v]) == v + 128 * Value7([v][1..]);
    ReadMeansSpells(data, pos, v, pos + 1);
  }

  lemma NothingAtEnd(data: Bytes)
    ensures ReadUint(data, |data|) == UintEof(|data|)
  {
  }

  /** Behind its address a frame means what its body means. */
  lemma AddressIsSkipped(key: Bytes, body: Bytes, env: Env)
    requires ValidUtf8(key) && |EncodeField(key) + body| <= MAX_SLICE
    ensures Typed(EncodeField(key) + body, env) == TypedBody(EncodeField(key) + body, |EncodeField(key)|, env)
  {
    hide ReadString, EncodeField, ValidUtf8, TypedBody;
    StringRoundTrip([], key, body);
    assert [] + EncodeField(key) + body == EncodeField(key) + body;
  }

  // ---------------------------------------------------------------- tokens

  /** The token of a client comes to the token callback, whatever the world is like, also by way of
      the error text. */
  lemma TokenIsSynced(key: Bytes, token: Bytes, rest: Bytes, env: Env)
    requires ValidUtf8(key) && ValidUtf8(token) && |EncodeField(key) + ([2, 0] + EncodeField(token) + rest)| <= MAX_SLICE
    ensures var action := Typed(EncodeField(key) + ([2, 0] + EncodeField(token) + rest), env);
            action == OnTokenSync(token) && Dispatch(InBand(action)) == OnTokenSync(token)
  {
    hide ReadUint, ReadString, EncodeField, ValidUtf8, Typed, Dispatch, InBand;
    var body := [2, 0] + EncodeField(token) + rest;
    var data, p := EncodeField(key) + body, |EncodeField(key)|;
    AddressIsSkipped(key, body, env);
    assert data[p] == 2 && data[p+1] == 0;
    ByteAt(data, p, 2);
    ByteAt(data, p + 1, 0);
    assert data == (EncodeField(key) + [2, 0]) + EncodeField(token) + rest;
    StringRoundTrip(EncodeField(key) + [2, 0], token, rest);
    DispatchIsFaithful(OnTokenSync(token));
  }

  /** Any other authentication message is ignored, whatever follows. */
  lemma OtherAuthIsIgnored(key: Bytes, subType: u64, rest: Bytes, env: Env)
    requires ValidUtf8(key) && |EncodeField(key) + ([2] + EncodeUint(subType) + rest)| <= MAX_SLICE
    requires subType != 0
    ensures Typed(EncodeField(key) + ([2] + EncodeUint(subType) + rest), env) == Keep(Ignored)
  {
    hide ReadUint, ReadString, EncodeField, EncodeUint, ValidUtf8, Typed;
    var body := [2] + EncodeUint(subType) + rest;
    var data, p := EncodeField(key) + body, |EncodeField(key)|;
    AddressIsSkipped(key, body, env);
    assert data[p] == 2;
    ByteAt(data, p, 2);
    assert data == (EncodeField(key) + [2]) + EncodeUint(subType) + rest;
    UintRoundTrip(EncodeField(key) + [2], subType, rest);
  }

  // ---------------------------------------------------------------- unknown types

  /** A message of any other type is ignored, status messages, pings and pongs included. */
  lemma UnknownTypeIsIgnored(key: Bytes, msgType: u64, rest: Bytes, env: Env)
    requires ValidUtf8(key) && |EncodeField(key) + (EncodeUint(msgType) + rest)| <= MAX_SLICE
    requires msgType > 7
    ensures Typed(EncodeField(key) + (EncodeUint(msgType) + rest), env) == Keep(Ignored)
  {
    hide ReadUint, ReadString, EncodeField, EncodeUint, ValidUtf8, Typed;
    AddressIsSkipped(key, EncodeUint(msgType) + rest, env);
    assert EncodeField(key) + (EncodeUint(msgType) + rest) == EncodeField(key) + EncodeUint(msgType) + rest;
    UintRoundTrip(EncodeField(key), msgType, rest);
  }

  /** A sync message of an unknown type comes before the hook like any other, and is an error then. */
  lemma UnknownSyncTypeCloses(key: Bytes, isReply: bool, syncType: u64, payload: Bytes, rest: Bytes, env: Env)
    requires ValidUtf8(key) && syncType > 2
    requires |EncodeField(key) + ([if isReply then 4 else 0] + EncodeUint(syncType) + (EncodeField(payload) + rest))| <= MAX_SLICE
    ensures Typed(EncodeField(key) + ([if isReply then 4 else 0] + EncodeUint(syncType) + (EncodeField(payload) + rest)), env)
         == CloseOnError(if env.beforeSync.Rejects? then env.beforeSync.text else UNKNOWN_SYNC_TYPE + Decimal(syncType))
  {
    hide ReadUint, ReadBytes, ReadString, EncodeField, EncodeUint, ValidUtf8, Typed, Decimal, Ascii;
    var t: byte := if isReply then 4 else 0;
    var body := [t] + EncodeUint(syncType) + (EncodeField(payload) + rest);
    var data, p := EncodeField(key) + body, |EncodeField(key)|;
    AddressIsSkipped(key, body, env);
    assert data[p] == t;
    ByteAt(data, p, t);
    assert data == (EncodeField(key) + [t]) + EncodeUint(syncType) + (EncodeField(payload) + rest);
    UintRoundTrip(EncodeField(key) + [t], syncType, EncodeField(payload) + rest);
    assert data == (EncodeField(key) + [t] + EncodeUint(syncType)) + EncodeField(payload) + rest;
    BytesRoundTrip(EncodeField(key) + [t] + EncodeUint(syncType), payload, rest);
  }

  // ---------------------------------------------------------------- fields that cannot be read

  /** The fields that the receiver reads. */
  datatype Wanted = Awareness | Stateless | BroadcastStateless | Token | SyncField(isReply: bool, syncType: byte)

  /** The message type and sub-type before the field. */
  function Head(w: Wanted): Bytes {
    match w
    case Awareness => [1]
    case Stateless => [5]
    case BroadcastStateless => [6]
    case Token => [2, 0]
    case SyncField(isReply, t) => [if isReply then 4 else 0, t]
  }

  predicate WantsText(w: Wanted) {
    w.Stateless? || w.BroadcastStateless? || w.Token?
  }

  /** What becomes of a frame whose field is an error: some frames are refused before it comes to reading it. */
  function Unread(w: Wanted, env: Env): Action {
    if w.BroadcastStateless? && env.fromConnection then CloseOnError(SERVER_INTERNAL)
    else if w.SyncField? && env.beforeSync.Rejects? then CloseOnError(env.beforeSync.text)
    else CloseOnError(env.ioError)
  }

  lemma HeadIsRead(key: Bytes, w: Wanted, rest: Bytes, env: Env) returns (data: Bytes, q: nat)
    requires ValidUtf8(key) && |EncodeField(key) + (Head(w) + rest)| <= MAX_SLICE && (w.SyncField? ==> w.syncType <= 2)
    ensures data == EncodeField(key) + (Head(w) + rest) == (EncodeField(key) + Head(w)) + rest
    ensures q == |EncodeField(key) + Head(w)|
    ensures var r := if WantsText(w) then ReadString(data, q) else ReadBytes(data, q);
            && (r.FieldError? ==> Typed(data, env) == Unread(w, env))
            && (r.FieldPanic? ==>
                  Typed(data, env)
                  == if w.BroadcastStateless? && env.fromConnection then CloseOnError(SERVER_INTERNAL) else Panicked)
  {
    hide ReadUint, ReadBytes, ReadString, EncodeField, ValidUtf8, Typed, Ascii;
    data, q := EncodeField(key) + (Head(w) + rest), |EncodeField(key) + Head(w)|;
    assert data == (EncodeField(key) + Head(w)) + rest;
    AddressIsSkipped(key, Head(w) + rest, env);
    var p := |EncodeField(key)|;
    assert data[p] == Head(w)[0];
    ByteAt(data, p, Head(w)[0]);
    if |Head(w)| == 2 {
      assert data[p+1] == Head(w)[1];
      ByteAt(data, p + 1, Head(w)[1]);
    }
  }

  /** A field that is cut off anywhere is an error: the frame closes the connection with the text of
      the decoder, unless a sync message is rejected before. */
  lemma CutOffCloses(key: Bytes, w: Wanted, bs: Bytes, n: nat, env: Env)
    requires ValidUtf8(key) && (w.SyncField? ==> w.syncType <= 2)
    requires n < |EncodeField(bs)| && |EncodeField(key)| + 2 + |EncodeField(bs)| <= MAX_SLICE
    ensures Typed(EncodeField(key) + (Head(w) + EncodeField(bs)[..n]), env) == Unread(w, env)
  {
    hide ReadBytes, ReadString, EncodeField, ValidUtf8, Typed, Unread, WantsText;
    var data, q := HeadIsRead(key, w, EncodeField(bs)[..n], env);
    TruncatedField(EncodeField(key) + Head(w), bs, n);
  }

  /** So is a text that is no UTF-8. */
  lemma NoTextCloses(key: Bytes, w: Wanted, bs: Bytes, rest: Bytes, env: Env)
    requires ValidUtf8(key) && WantsText(w) && !ValidUtf8(bs)
    requires |EncodeField(key) + (Head(w) + (EncodeField(bs) + rest))| <= MAX_SLICE
    ensures Typed(EncodeField(key) + (Head(w) + (EncodeField(bs) + rest)), env) == Unread(w, env)
  {
    hide ReadBytes, EncodeField, ValidUtf8, Typed, Unread;
    var data, q := HeadIsRead(key, w, EncodeField(bs) + rest, env);
    BytesRoundTrip(EncodeField(key) + Head(w), bs, rest);
    assert data == (EncodeField(key) + Head(w)) + EncodeField(bs) + rest;
  }

  /** A field whose end does not fit in 64 bits is a panic, which comes before the hook. */
  lemma OversizedPanics(key: Bytes, w: Wanted, len: u64, rest: Bytes, env: Env)
    requires ValidUtf8(key) && (w.SyncField? ==> w.syncType <= 2)
    requires |EncodeField(key) + (Head(w) + (EncodeUint(len) + rest))| <= MAX_SLICE
    requires |EncodeField(key) + Head(w) + EncodeUint(len)| + len >= TWO_64
    ensures Typed(EncodeField(key) + (Head(w) + (EncodeUint(len) + rest)), env)
         == if w.BroadcastStateless? && env.fromConnection then CloseOnError(SERVER_INTERNAL) else Panicked
  {
    hide ReadUint, EncodeUint, EncodeField, ValidUtf8, Typed, Ascii;
    var data, q := HeadIsRead(key, w, EncodeUint(len) + rest, env);
    UintRoundTrip(EncodeField(key) + Head(w), len, rest);
    assert data == (EncodeField(key) + Head(w)) + EncodeUint(len) + rest;
  }

  /** A frame that ends within its address, or before its types, closes the connection as well. */
  lemma HeadlessCloses(key: Bytes, n: nat, env: Env)
    requires |EncodeField(key)| <= MAX_SLICE - 1
    ensures n < |EncodeField(key)| ==> Typed(EncodeField(key)[..n], env) == CloseOnError(env.ioError)
    ensures !ValidUtf8(key) ==> forall rest: Bytes :: |EncodeField(key) + rest| <= MAX_SLICE ==>
              Typed(EncodeField(key) + rest, env) == CloseOnError(env.ioError)
    ensures ValidUtf8(key) ==> Typed(EncodeField(key), env) == CloseOnError(env.ioError)
    ensures ValidUtf8(key) ==> forall t: byte :: t in {0, 2, 4} ==>
              Typed(EncodeField(key) + [t], env) == CloseOnError(env.ioError)
  {
    hide ReadUint, ReadBytes, ReadString, EncodeField, ValidUtf8, Typed;
    if n < |EncodeField(key)| {
      CutOffAddress(key, n, env);
    }
    if ValidUtf8(key) {
      assert EncodeField(key) + [] == EncodeField(key);
      AddressIsSkipped(key, [], env);
      NothingAtEnd(EncodeField(key));
      forall t: byte | t in {0, 2, 4} ensures Typed(EncodeField(key) + [t], env) == CloseOnError(env.ioError) {
        var data := EncodeField(key) + [t];
        AddressIsSkipped(key, [t], env);
        ByteAt(data, |EncodeField(key)|, t);
        NothingAtEnd(data);
      }
    } else {
      forall rest: Bytes | |EncodeField(key) + rest| <= MAX_SLICE
        ensures Typed(EncodeField(key) + rest, env) == CloseOnError(env.ioError) {
        NoTextAddress(key, rest, env);
      }
    }
  }

  lemma CutOffAddress(key: Bytes, n: nat, env: Env)
    requires n < |EncodeField(key)| <= MAX_SLICE
    ensures Typed(EncodeField(key)[..n], env) == CloseOnError(env.ioError)
  {
    hide ReadString, EncodeField;
    TruncatedField([], key, n);
    assert [] + EncodeField(key)[..n] == EncodeField(key)[..n];
  }

  lemma NoTextAddress(key: Bytes, rest: Bytes, env: Env)
    requires !ValidUtf8(key) && |EncodeField(key) + rest| <= MAX_SLICE
    ensures Typed(EncodeField(key) + rest, env) == CloseOnError(env.ioError)
  {
    hide ReadBytes, EncodeField, ValidUtf8;
    BytesRoundTrip([], key, rest);
    assert [] + EncodeField(key) + rest == EncodeField(key) + rest;
  }

  // ---------------------------------------------------------------- numbers in error texts

  function OfDecimal(digits: Bytes): int {
    if digits == [] then 0 else 10 * OfDecimal(digits[..|digits|-1]) + (digits[|digits|-1] - '0' as int)
  }

  /** The digits of a number, without leading zeros. */
  lemma {:induction false} DecimalIsTheNumber(n: nat)
    ensures OfDecimal(Decimal(n)) == n && Decimal(n) != []
    ensures forall i :: 0 <= i < |Decimal(n)| ==> '0' as int <= Decimal(n)[i] <= '9' as int
    ensures n > 0 ==> Decimal(n)[0] != '0' as int
  {
    if n >= 10 {
      DecimalIsTheNumber(n / 10);
      assert Decimal(n)[..|Decimal(n)|-1] == Decimal(n / 10);
    } else {
      assert Decimal(n) == ['0' as int + n % 10];
    }
  }
}
