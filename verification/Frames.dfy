/** The frames that the server builds: an address, a message type, and the fields of that type. */
module Frames {
  import opened Encoding

  datatype Step = Step1(vector: Bytes) | Step2(update: Bytes) | Update(update: Bytes)

  /** What the builders of `OutgoingMessage` can write behind the address. */
  datatype Body =
    | Sync(isReply: bool, step: Step)
    | Awareness(update: Bytes)
    | QueryAwareness
    | TokenSyncRequest
    | Authenticated(readOnly: bool)
    | PermissionDenied(reason: Bytes)
    | Stateless(payload: Bytes)
    | BroadcastStateless(payload: Bytes)
    | SyncStatus(saved: bool)
    | Close(reason: Bytes)

  // message types
  const SYNC := 0
  const AWARENESS := 1
  const AUTH := 2
  const QUERY_AWARENESS := 3
  const SYNC_REPLY := 4
  const STATELESS := 5
  const BROADCAST_STATELESS := 6
  const CLOSE := 7
  const SYNC_STATUS := 8

  // authentication sub-types
  const TOKEN := 0
  const PERMISSION_DENIED := 1
  const AUTHENTICATED := 2

  /** The bytes of an ASCII text. */
  function Ascii(s: string): (bs: Bytes)
    ensures |bs| == |s|
  {
    seq(|s|, i requires 0 <= i < |s| => s[i] as int % 128)
  }

  function Scope(readOnly: bool): Bytes {
    if readOnly then Ascii("readonly") else Ascii("read-write")
  }

  function EncodeStep(step: Step): Bytes {
    match step
    case Step1(v) => EncodeUint(0) + EncodeField(v)
    case Step2(u) => EncodeUint(1) + EncodeField(u)
    case Update(u) => EncodeUint(2) + EncodeField(u)
  }

  function EncodeBody(b: Body): Bytes {
    match b
    case Sync(isReply, step) => EncodeUint(if isReply then SYNC_REPLY else SYNC) + EncodeStep(step)
    case Awareness(u) => EncodeUint(AWARENESS) + EncodeField(u)
    case QueryAwareness => EncodeUint(QUERY_AWARENESS)
    case TokenSyncRequest => EncodeUint(AUTH) + EncodeUint(TOKEN)
    case Authenticated(ro) => EncodeUint(AUTH) + (EncodeUint(AUTHENTICATED) + EncodeField(Scope(ro)))
    case PermissionDenied(r) => EncodeUint(AUTH) + (EncodeUint(PERMISSION_DENIED) + EncodeField(r))
    case Stateless(p) => EncodeUint(STATELESS) + EncodeField(p)
    case BroadcastStateless(p) => EncodeUint(BROADCAST_STATELESS) + EncodeField(p)
    case SyncStatus(saved) => EncodeUint(SYNC_STATUS) + EncodeUint(if saved then 1 else 0)
    case Close(r) => EncodeUint(CLOSE) + EncodeField(r)
  }

  function EncodeFrame(address: Bytes, b: Body): Bytes {
    EncodeField(address) + EncodeBody(b)
  }

  /** The texts of a frame are UTF-8, as Rust strings are. */
  predicate Textual(address: Bytes, b: Body) {
    ValidUtf8(address) && TextualBody(b)
  }

  predicate TextualBody(b: Body) {
    && (b.PermissionDenied? || b.Close? ==> ValidUtf8(b.reason))
    && (b.Stateless? || b.BroadcastStateless? ==> ValidUtf8(b.payload))
  }

  /** The numbers that go over the wire: message types, sync and authentication sub-types, flags. */
  lemma WireFormat(b: Body)
    ensures EncodeBody(b) ==
            match b
            case Sync(isReply, Step1(v)) => [if isReply then 4 else 0, 0] + EncodeField(v)
            case Sync(isReply, Step2(u)) => [if isReply then 4 else 0, 1] + EncodeField(u)
            case Sync(isReply, Update(u)) => [if isReply then 4 else 0, 2] + EncodeField(u)
            case Awareness(u) => [1] + EncodeField(u)
            case QueryAwareness => [3]
            case TokenSyncRequest => [2, 0]
            case PermissionDenied(r) => [2, 1] + EncodeField(r)
            case Authenticated(ro) => [2, 2] + EncodeField(Ascii(if ro then "readonly" else "read-write"))
            case Stateless(p) => [5] + EncodeField(p)
            case BroadcastStateless(p) => [6] + EncodeField(p)
            case Close(r) => [7] + EncodeField(r)
            case SyncStatus(saved) => [8, if saved then 1 else 0]
  {
    hide EncodeField, Ascii;
    match b
    case Sync(isReply, step) => TwoNumbers(EncodeBody(b), EncodeField(if step.Step1? then step.vector else step.update));
    case PermissionDenied(r) => TwoNumbers(EncodeBody(b), EncodeField(r));
    case Authenticated(ro) => TwoNumbers(EncodeBody(b), EncodeField(Scope(ro)));
    case _ =>
  }

  lemma TwoNumbers(bs: Bytes, rest: Bytes)
    ensures forall m: byte, n: byte :: bs == [m] + ([n] + rest) ==> bs == [m, n] + rest
  {
    forall m: byte, n: byte | bs == [m] + ([n] + rest) ensures bs == [m, n] + rest {
      assert [m] + ([n] + rest) == [m, n] + rest;
    }
  }

  // ---------------------------------------------------------------- the receiving end

  datatype Parsed<+T> = Parsed(value: T, next: nat) | Malformed

  function Text(data: Bytes, pos: nat): Parsed<Bytes> {
    match ReadString(data, pos)
    case Field(bs, p) => Parsed(bs, p)
    case _ => Malformed
  }

  function Blob(data: Bytes, pos: nat): Parsed<Bytes> {
    match ReadBytes(data, pos)
    case Field(bs, p) => Parsed(bs, p)
    case _ => Malformed
  }

  function Number(data: Bytes, pos: nat): Parsed<u64> {
    match ReadUint(data, pos)
    case Uint(v, p) => Parsed(v, p)
    case _ => Malformed
  }

  function ParseStep(data: Bytes, pos: nat): Parsed<Step> {
    match Number(data, pos)
    case Malformed => Malformed
    case Parsed(t, p) =>
      match Blob(data, p)
      case Malformed => Malformed
      case Parsed(bs, q) =>
        if t == 0 then Parsed(Step1(bs), q)
        else if t == 1 then Parsed(Step2(bs), q)
        else if t == 2 then Parsed(Update(bs), q)
        else Malformed
  }

  function ParseAuth(data: Bytes, pos: nat): Parsed<Body> {
    match Number(data, pos)
    case Malformed => Malformed
    case Parsed(t, p) =>
      if t == TOKEN then Parsed(TokenSyncRequest, p)
      else
        match Text(data, p)
        case Malformed => Malformed
        case Parsed(bs, q) =>
          if t == PERMISSION_DENIED then Parsed(PermissionDenied(bs), q)
          else if t == AUTHENTICATED && bs == Scope(true) then Parsed(Authenticated(true), q)
          else if t == AUTHENTICATED && bs == Scope(false) then Parsed(Authenticated(false), q)
          else Malformed
  }

  function OfText(t: u64, bs: Bytes): Body {
    if t == STATELESS then Stateless(bs) else if t == BROADCAST_STATELESS then BroadcastStateless(bs) else Close(bs)
  }

  function ParseBody(data: Bytes, pos: nat): Parsed<Body> {
    match Number(data, pos)
    case Malformed => Malformed
    case Parsed(t, p) =>
      if t == SYNC || t == SYNC_REPLY then
        match ParseStep(data, p)
        case Malformed => Malformed
        case Parsed(step, q) => Parsed(Sync(t == SYNC_REPLY, step), q)
      else if t == AWARENESS then
        match Blob(data, p)
        case Malformed => Malformed
        case Parsed(bs, q) => Parsed(Awareness(bs), q)
      else if t == QUERY_AWARENESS then Parsed(QueryAwareness, p)
      else if t == AUTH then ParseAuth(data, p)
      else if t == STATELESS || t == BROADCAST_STATELESS || t == CLOSE then
        match Text(data, p)
        case Malformed => Malformed
        case Parsed(bs, q) => Parsed(OfText(t, bs), q)
      else if t == SYNC_STATUS then
        match Number(data, p)
        case Malformed => Malformed
        case Parsed(v, q) => if v <= 1 then Parsed(SyncStatus(v == 1), q) else Malformed
      else Malformed
  }

  /** Address, body and the position behind them. */
  function ParseFrame(data: Bytes, pos: nat): Parsed<(Bytes, Body)> {
    match Text(data, pos)
    case Malformed => Malformed
    case Parsed(address, p) =>
      match ParseBody(data, p)
      case Malformed => Malformed
      case Parsed(b, q) => Parsed((address, b), q)
  }

  // ---------------------------------------------------------------- round trip

  /** `data` holds `bs` at `pos`. */
  ghost predicate At(data: Bytes, pos: nat, bs: Bytes) {
    pos + |bs| <= |data| <= MAX_SLICE && data[pos..pos + |bs|] == bs
  }

  lemma AtSplits(data: Bytes, pos: nat, a: Bytes, b: Bytes)
    requires At(data, pos, a + b)
    ensures At(data, pos, a) && At(data, pos + |a|, b)
  {
    var bs := data[pos..pos + |a + b|];
    assert bs[..|a|] == a && bs[|a|..] == b;
  }

  lemma NumberAt(data: Bytes, pos: nat, v: u64)
    requires At(data, pos, EncodeUint(v))
    ensures Number(data, pos) == Parsed(v, pos + |EncodeUint(v)|)
  {
    hide ReadUint, EncodeUint;
    var end := pos + |EncodeUint(v)|;
    UintRoundTrip(data[..pos], v, data[end..]);
    assert data == data[..pos] + EncodeUint(v) + data[end..];
  }

  lemma BlobAt(data: Bytes, pos: nat, bs: Bytes)
    requires At(data, pos, EncodeField(bs))
    ensures Blob(data, pos) == Parsed(bs, pos + |EncodeField(bs)|)
  {
    hide ReadBytes, EncodeField;
    var end := pos + |EncodeField(bs)|;
    BytesRoundTrip(data[..pos], bs, data[end..]);
    assert data == data[..pos] + EncodeField(bs) + data[end..];
  }

  lemma TextAt(data: Bytes, pos: nat, bs: Bytes)
    requires At(data, pos, EncodeField(bs)) && ValidUtf8(bs)
    ensures Text(data, pos) == Parsed(bs, pos + |EncodeField(bs)|)
  {
    hide ReadString, EncodeField;
    var end := pos + |EncodeField(bs)|;
    StringRoundTrip(data[..pos], bs, data[end..]);
    assert data == data[..pos] + EncodeField(bs) + data[end..];
  }

  lemma {:induction false} AsciiIsUtf8(bs: Bytes)
    requires forall i :: 0 <= i < |bs| ==> bs[i] < 128
    ensures ValidUtf8(bs)
  {
    if bs != [] {
      AsciiIsUtf8(bs[1..]);
    }
  }

  lemma ScopesDiffer()
    ensures Scope(true) != Scope(false)
  {
    assert |Scope(true)| == 8 && |Scope(false)| == 10;
  }

  lemma StepAt(data: Bytes, pos: nat, step: Step)
    requires At(data, pos, EncodeStep(step))
    ensures ParseStep(data, pos) == Parsed(step, pos + |EncodeStep(step)|)
  {
    hide Number, Blob, EncodeUint, EncodeField, At;
    var t: u64 := if step.Step1? then 0 else if step.Step2? then 1 else 2;
    var bs := if step.Step1? then step.vector else step.update;
    AtSplits(data, pos, EncodeUint(t), EncodeField(bs));
    NumberAt(data, pos, t);
    BlobAt(data, pos + |EncodeUint(t)|, bs);
  }

  lemma AuthAt(data: Bytes, pos: nat, b: Body, t: u64, text: Bytes)
    requires At(data, pos, EncodeUint(t) + EncodeField(text)) && ValidUtf8(text)
    requires (b.PermissionDenied? && t == PERMISSION_DENIED && text == b.reason)
             || (b.Authenticated? && t == AUTHENTICATED && text == Scope(b.readOnly))
    ensures ParseAuth(data, pos) == Parsed(b, pos + |EncodeUint(t) + EncodeField(text)|)
  {
    hide Number, Text, EncodeUint, EncodeField, At, ValidUtf8, Scope;
    AtSplits(data, pos, EncodeUint(t), EncodeField(text));
    NumberAt(data, pos, t);
    TextAt(data, pos + |EncodeUint(t)|, text);
    ScopesDiffer();
  }

  lemma BodyAt(data: Bytes, pos: nat, b: Body)
    requires At(data, pos, EncodeBody(b)) && TextualBody(b)
    ensures ParseBody(data, pos) == Parsed(b, pos + |EncodeBody(b)|)
  {
    hide Number, Blob, Text, ParseStep, ParseAuth, EncodeUint, EncodeField, EncodeStep, At, ValidUtf8, Scope;
    match b
    case Sync(isReply, step) =>
      var p := Tag(data, pos, if isReply then SYNC_REPLY else SYNC, EncodeStep(step));
      StepAt(data, p, step);
    case Awareness(u) =>
      var p := Tag(data, pos, AWARENESS, EncodeField(u));
      BlobAt(data, p, u);
    case QueryAwareness =>
      NumberAt(data, pos, QUERY_AWARENESS);
    case TokenSyncRequest =>
      var p := Tag(data, pos, AUTH, EncodeUint(TOKEN));
      TokenAt(data, p);
    case Authenticated(ro) =>
      ScopeIsUtf8(ro);
      var p := Tag(data, pos, AUTH, EncodeUint(AUTHENTICATED) + EncodeField(Scope(ro)));
      AuthAt(data, p, b, AUTHENTICATED, Scope(ro));
    case PermissionDenied(r) =>
      var p := Tag(data, pos, AUTH, EncodeUint(PERMISSION_DENIED) + EncodeField(r));
      AuthAt(data, p, b, PERMISSION_DENIED, r);
    case Stateless(t) =>
      var p := Tag(data, pos, STATELESS, EncodeField(t));
      TextAt(data, p, t);
    case BroadcastStateless(t) =>
      var p := Tag(data, pos, BROADCAST_STATELESS, EncodeField(t));
      TextAt(data, p, t);
    case SyncStatus(saved) =>
      var p := Tag(data, pos, SYNC_STATUS, EncodeUint(if saved then 1 else 0));
      NumberAt(data, p, if saved then 1 else 0);
    case Close(r) =>
      var p := Tag(data, pos, CLOSE, EncodeField(r));
      TextAt(data, p, r);
  }

  lemma Tag(data: Bytes, pos: nat, t: u64, rest: Bytes) returns (p: nat)
    requires At(data, pos, EncodeUint(t) + rest)
    ensures p == pos + |EncodeUint(t)| && Number(data, pos) == Parsed(t, p) && At(data, p, rest)
  {
    hide Number, EncodeUint, At;
    AtSplits(data, pos, EncodeUint(t), rest);
    NumberAt(data, pos, t);
    p := pos + |EncodeUint(t)|;
  }

  lemma TokenAt(data: Bytes, pos: nat)
    requires At(data, pos, EncodeUint(TOKEN))
    ensures ParseAuth(data, pos) == Parsed(TokenSyncRequest, pos + |EncodeUint(TOKEN)|)
  {
    hide Number, EncodeUint, At;
    NumberAt(data, pos, TOKEN);
  }

  lemma ScopeIsUtf8(ro: bool)
    ensures ValidUtf8(Scope(ro))
  {
    AsciiIsUtf8(Scope(ro));
  }

  /** Parsing what the builders wrote gives the same fields and consumes exactly the frame,
      wherever it lies and whatever follows. */
  lemma FrameRoundTrip(pre: Bytes, address: Bytes, b: Body, rest: Bytes)
    requires Textual(address, b) && |pre + EncodeFrame(address, b) + rest| <= MAX_SLICE
    ensures ParseFrame(pre + EncodeFrame(address, b) + rest, |pre|)
         == Parsed((address, b), |pre| + |EncodeFrame(address, b)|)
  {
    hide Text, ParseBody, EncodeField, EncodeBody, ValidUtf8;
    var data := pre + EncodeFrame(address, b) + rest;
    SliceOfConcat(pre, EncodeFrame(address, b), rest);
    AtSplits(data, |pre|, EncodeField(address), EncodeBody(b));
    TextAt(data, |pre|, address);
    BodyAt(data, |pre| + |EncodeField(address)|, b);
  }

  /** Frames are self-delimiting: no frame is another one, or the beginning of another one. */
  lemma FramesAreUnambiguous(a1: Bytes, b1: Body, r1: Bytes, a2: Bytes, b2: Body, r2: Bytes)
    requires Textual(a1, b1) && Textual(a2, b2) && |EncodeFrame(a1, b1) + r1| <= MAX_SLICE
    requires EncodeFrame(a1, b1) + r1 == EncodeFrame(a2, b2) + r2
    ensures a1 == a2 && b1 == b2 && r1 == r2
  {
    hide ParseFrame, EncodeFrame, Textual;
    var data := EncodeFrame(a1, b1) + r1;
    assert data == [] + EncodeFrame(a1, b1) + r1 == [] + EncodeFrame(a2, b2) + r2;
    FrameRoundTrip([], a1, b1, r1);
    FrameRoundTrip([], a2, b2, r2);
    assert r1 == data[|EncodeFrame(a1, b1)|..] && r2 == data[|EncodeFrame(a2, b2)|..];
  }
}
