/** What one incoming frame makes a connection do.

    The receiver returns some outcomes - a stateless message, a token, a request to close - in band,
    as error texts with a prefix, and the connection takes the prefix off again. `Typed` says what
    the frame means without that detour; the detour is proved to be faithful exactly as long as no
    genuine error text looks like a tag. */
module MessageReceivers {
  import opened Encoding
  import opened Frames
  import opened Decoders

  /** What the document does with a frame that is handled in place. */
  datatype Effect =
    | Ignored
    | AnswerStep1(vector: Bytes, askBack: bool)
    | ApplyUpdate(update: Bytes)
    | RejectUpdate(update: Bytes, isStep2: bool)
    | ApplyAwareness(update: Bytes)
    | SendAwareness
    | BroadcastText(payload: Bytes)

  datatype Hook = NoHook | Accepts | Rejects(text: Bytes)

  datatype Verdict = Fine | Refuses(text: Bytes)

  /** The outcomes of hooks and library calls on one frame; `ioError` is the text of a decoding error. */
  datatype Env = Env(
    fromConnection: bool,
    readOnly: bool,
    beforeSync: Hook,
    vectorDecodes: Verdict,
    updateApplies: Verdict,
    awarenessApplies: Verdict,
    ioError: Bytes)

  /** What the connection does about the frame in the end. */
  datatype Action =
    | Keep(effect: Effect)
    | OnStateless(payload: Bytes)
    | OnTokenSync(token: Bytes)
    | CloseAsRequested
    | CloseOnError(text: Bytes)
    | Panicked

  /** What the receiver returns. */
  datatype Result = Done(effect: Effect) | Failed(text: Bytes) | Crashed

  const UNKNOWN_SYNC_TYPE := Ascii("Received a sync message" + " with an unknown type: ")
  const SERVER_INTERNAL := Ascii("BroadcastStateless" + " is a server-internal opcode and cannot be sent from a client")
  const STATELESS_TAG := Ascii("stateless:")
  const TOKEN_TAG := Ascii("token_sync:")
  const CLOSE_TAG := Ascii("close_requested")

  function Decimal(n: nat): Bytes {
    (if n < 10 then [] else Decimal(n / 10)) + ['0' as int + n % 10]
  }

  // ---------------------------------------------------------------- what a frame means

  function OnField(r: FieldResult, env: Env, action: Bytes -> Action): Action {
    match r
    case Field(bs, _) => action(bs)
    case FieldError(_) => CloseOnError(env.ioError)
    case FieldPanic => Panicked
  }

  function Unless(v: Verdict, action: Action): Action {
    if v.Refuses? then CloseOnError(v.text) else action
  }

  function TypedStep(data: Bytes, pos: nat, t: u64, env: Env, askBack: bool): Action {
    if t == 0 then
      OnField(ReadBytes(data, pos), env, bs => Unless(env.vectorDecodes, Keep(AnswerStep1(bs, askBack))))
    else if t == 1 || t == 2 then
      OnField(ReadBytes(data, pos), env, bs =>
        if env.readOnly then Keep(RejectUpdate(bs, t == 1)) else Unless(env.updateApplies, Keep(ApplyUpdate(bs))))
    else CloseOnError(UNKNOWN_SYNC_TYPE + Decimal(t))
  }

  /** With a hook the payload is peeked at first, which can only matter by panicking. */
  function TypedSync(data: Bytes, pos: nat, env: Env, askBack: bool): Action {
    match ReadUint(data, pos)
    case Uint(t, p) =>
      if !env.beforeSync.NoHook? && ReadBytes(data, p).FieldPanic? then Panicked
      else if env.beforeSync.Rejects? then CloseOnError(env.beforeSync.text)
      else TypedStep(data, p, t, env, askBack)
    case _ => CloseOnError(env.ioError)
  }

  function TypedAuth(data: Bytes, pos: nat, env: Env): Action {
    match ReadUint(data, pos)
    case Uint(t, p) => if t == TOKEN then OnField(ReadString(data, p), env, bs => OnTokenSync(bs)) else Keep(Ignored)
    case _ => CloseOnError(env.ioError)
  }

  /** A query is answered by way of the reply, which the connections of clients do not pass. */
  function OnQuery(env: Env): Effect {
    if env.fromConnection then Ignored else SendAwareness
  }

  function TypedBody(data: Bytes, pos: nat, env: Env): Action {
    match ReadUint(data, pos)
    case Uint(t, p) =>
      if t == SYNC || t == SYNC_REPLY then TypedSync(data, p, env, t != SYNC_REPLY)
      else if t == AWARENESS then
        OnField(ReadBytes(data, p), env, bs => Unless(env.awarenessApplies, Keep(ApplyAwareness(bs))))
      else if t == QUERY_AWARENESS then Keep(OnQuery(env))
      else if t == STATELESS then OnField(ReadString(data, p), env, bs => OnStateless(bs))
      else if t == BROADCAST_STATELESS then
        if env.fromConnection then CloseOnError(SERVER_INTERNAL)
        else OnField(ReadString(data, p), env, bs => Keep(BroadcastText(bs)))
      else if t == CLOSE then CloseAsRequested
      else if t == AUTH then TypedAuth(data, p, env)
      else Keep(Ignored)
    case _ => CloseOnError(env.ioError)
  }

  function Typed(data: Bytes, env: Env): Action {
    match ReadString(data, 0)
    case Field(_, p) => TypedBody(data, p, env)
    case FieldError(_) => CloseOnError(env.ioError)
    case FieldPanic => Panicked
  }

  // ---------------------------------------------------------------- which frames panic

  predicate FieldPanics(data: Bytes, pos: nat) {
    ReadBytes(data, pos).FieldPanic?
  }

  predicate BodyPanics(data: Bytes, pos: nat) {
    match ReadUint(data, pos)
    case Uint(t, p) =>
      if t == SYNC || t == SYNC_REPLY then ReadUint(data, p).Uint? && FieldPanics(data, ReadUint(data, p).next)
      else if t == AUTH then
        ReadUint(data, p).Uint? && ReadUint(data, p).value == TOKEN && FieldPanics(data, ReadUint(data, p).next)
      else (t == AWARENESS || t == STATELESS) && FieldPanics(data, p)
    case _ => false
  }

  /** The frames on which the receiver of a connection panics: those with a field, where the
      receiver reads one, whose length does not fit. */
  predicate Panics(data: Bytes) {
    match ReadString(data, 0)
    case Field(_, p) => BodyPanics(data, p)
    case FieldError(_) => false
    case FieldPanic => true
  }

  /** That is up to the frame alone: the connections of clients always have a hook before a sync message. */
  lemma PanicsIsUpToTheFrame(data: Bytes, env: Env)
    requires env.fromConnection && !env.beforeSync.NoHook?
    ensures Typed(data, env).Panicked? <==> Panics(data)
  {
    hide ReadUint, ReadBytes, ValidUtf8, Ascii, Decimal;
  }

  // ---------------------------------------------------------------- the detour through error texts

  /** How the receiver hands an action to the connection. */
  function InBand(a: Action): Result {
    match a
    case Keep(e) => Done(e)
    case OnStateless(p) => Failed(STATELESS_TAG + p)
    case OnTokenSync(t) => Failed(TOKEN_TAG + t)
    case CloseAsRequested => Failed(CLOSE_TAG)
    case CloseOnError(text) => Failed(text)
    case Panicked => Crashed
  }

  /** How the connection reads it. */
  function Dispatch(r: Result): Action {
    match r
    case Done(e) => Keep(e)
    case Failed(text) =>
      if STATELESS_TAG <= text then OnStateless(text[|STATELESS_TAG|..])
      else if TOKEN_TAG <= text then OnTokenSync(text[|TOKEN_TAG|..])
      else if text == CLOSE_TAG then CloseAsRequested
      else CloseOnError(text)
    case Crashed => Panicked
  }

  predicate Tagged(text: Bytes) {
    STATELESS_TAG <= text || TOKEN_TAG <= text || text == CLOSE_TAG
  }

  lemma TagsDiffer()
    ensures !(STATELESS_TAG <= TOKEN_TAG) && STATELESS_TAG[0] != TOKEN_TAG[0]
    ensures CLOSE_TAG[0] != STATELESS_TAG[0] && CLOSE_TAG[0] != TOKEN_TAG[0]
  {
    assert STATELESS_TAG[0] == 's' as int && TOKEN_TAG[0] == 't' as int && CLOSE_TAG[0] == 'c' as int;
  }

  /** The detour changes nothing, for any payload and token, exactly when the error text - if it is
      one - is not itself a tag. */
  lemma DispatchIsFaithful(a: Action)
    ensures Dispatch(InBand(a)) == a <==> !(a.CloseOnError? && Tagged(a.text))
  {
    TagsDiffer();
    if a.OnTokenSync? {
      assert (TOKEN_TAG + a.token)[0] == TOKEN_TAG[0];
    }
    hide Ascii;
  }

  /** A rejection by the `beforeSync` hook with such a text is taken for what it looks like. */
  lemma TaggedErrorIsMisread(address: Bytes, payload: Bytes, env: Env)
    requires env.beforeSync == Rejects(STATELESS_TAG + payload)
    requires ValidUtf8(address) && |EncodeFrame(address, Sync(false, Step1([])))| <= MAX_SLICE
    ensures var a := Typed(EncodeFrame(address, Sync(false, Step1([]))), env);
            a == CloseOnError(STATELESS_TAG + payload) && Dispatch(InBand(a)) == OnStateless(payload)
  {
    hide Typed, EncodeFrame, ValidUtf8, Ascii;
    BuiltFrameMeans(address, Sync(false, Step1([])), env);
    assert (STATELESS_TAG + payload)[|STATELESS_TAG|..] == payload;
  }

  lemma UntaggedText(s: string, rest: Bytes)
    requires |s| >= 3 && (s[0] as int) < 128 && (s[2] as int) < 128
    requires s[0] != 't' && s[0] != 'c' && (s[0] != 's' || s[2] != 'a')
    ensures !Tagged(Ascii(s) + rest)
  {
    var text := Ascii(s) + rest;
    assert text[0] == s[0] as int && text[2] == s[2] as int;
    assert STATELESS_TAG[0] == 's' as int && STATELESS_TAG[2] == 'a' as int;
    assert TOKEN_TAG[0] == 't' as int && CLOSE_TAG[0] == 'c' as int;
    hide Ascii;
  }

  lemma NothingAdded(bs: Bytes)
    ensures bs + [] == bs
  {
  }

  /** The receiver's own errors, and those of its decoder, are never misread; the two about UTF-8 are
      worded by Rust's standard library, with some detail behind them. */
  lemma OwnErrorsAreUntagged(t: u64, detail: Bytes)
    ensures !Tagged(UNKNOWN_SYNC_TYPE + Decimal(t)) && !Tagged(SERVER_INTERNAL)
    ensures !Tagged(Ascii("unexpected end of data")) && !Tagged(Ascii("varuint too large"))
    ensures !Tagged(Ascii("string data truncated")) && !Tagged(Ascii("array data truncated"))
    ensures !Tagged(Ascii("invalid utf-8 sequence of ") + detail)
    ensures !Tagged(Ascii("incomplete utf-8 byte sequence from index ") + detail)
  {
    hide Ascii, Tagged;
    UntaggedText("invalid utf-8 sequence of ", detail);
    UntaggedText("incomplete utf-8 byte sequence from index ", detail);
    UntaggedText("Received a sync message" + " with an unknown type: ", Decimal(t));
    NothingAdded(SERVER_INTERNAL);
    UntaggedText("BroadcastStateless" + " is a server-internal opcode and cannot be sent from a client", []);
    NothingAdded(Ascii("unexpected end of data"));
    UntaggedText("unexpected end of data", []);
    NothingAdded(Ascii("varuint too large"));
    UntaggedText("varuint too large", []);
    NothingAdded(Ascii("string data truncated"));
    UntaggedText("string data truncated", []);
    NothingAdded(Ascii("array data truncated"));
    UntaggedText("array data truncated", []);
  }

  // ---------------------------------------------------------------- built frames

  /** What a frame with this body asks for. */
  function MeaningOf(b: Body, env: Env): Action {
    match b
    case Sync(isReply, step) =>
      if env.beforeSync.Rejects? then CloseOnError(env.beforeSync.text)
      else if step.Step1? then
        if env.vectorDecodes.Refuses? then CloseOnError(env.vectorDecodes.text)
        else Keep(AnswerStep1(step.vector, !isReply))
      else if env.readOnly then Keep(RejectUpdate(step.update, step.Step2?))
      else if env.updateApplies.Refuses? then CloseOnError(env.updateApplies.text)
      else Keep(ApplyUpdate(step.update))
    case Awareness(u) =>
      if env.awarenessApplies.Refuses? then CloseOnError(env.awarenessApplies.text) else Keep(ApplyAwareness(u))
    case QueryAwareness => Keep(if env.fromConnection then Ignored else SendAwareness)
    case TokenSyncRequest => CloseOnError(env.ioError)
    case Authenticated(_) => Keep(Ignored)
    case PermissionDenied(_) => Keep(Ignored)
    case Stateless(p) => OnStateless(p)
    case BroadcastStateless(p) => if env.fromConnection then CloseOnError(SERVER_INTERNAL) else Keep(BroadcastText(p))
    case SyncStatus(_) => Keep(Ignored)
    case Close(_) => CloseAsRequested
  }

  lemma BuiltSyncMeans(data: Bytes, pos: nat, isReply: bool, step: Step, env: Env)
    requires At(data, pos, EncodeStep(step))
    ensures TypedSync(data, pos, env, !isReply) == MeaningOf(Sync(isReply, step), env)
  {
    hide ReadUint, ReadBytes, EncodeField, EncodeUint, At;
    var bs := if step.Step1? then step.vector else step.update;
    var p := Tag(data, pos, if step.Step1? then 0 else if step.Step2? then 1 else 2, EncodeField(bs));
    BlobAt(data, p, bs);
  }

  lemma NothingToRead(data: Bytes)
    requires |data| <= MAX_SLICE
    ensures ReadString(data, |data|) == FieldError(|data|)
  {
  }

  /** The numbers behind the types that the receiver has no use for. */
  lemma BuiltAuthMeans(data: Bytes, pos: nat, b: Body, env: Env)
    requires At(data, pos, EncodeBody(b)) && pos + |EncodeBody(b)| == |data|
    requires b.TokenSyncRequest? || b.Authenticated? || b.PermissionDenied?
    ensures TypedBody(data, pos, env) == MeaningOf(b, env)
  {
    hide ReadUint, ReadString, EncodeField, EncodeUint, At, Scope;
    match b
    case TokenSyncRequest =>
      var p := Tag(data, pos, AUTH, EncodeUint(TOKEN));
      NumberAt(data, p, TOKEN);
      NothingToRead(data) by { AtIsShort(data, pos, EncodeBody(b)); }
    case Authenticated(ro) =>
      var p := Tag(data, pos, AUTH, EncodeUint(AUTHENTICATED) + EncodeField(Scope(ro)));
      var q := Tag(data, p, AUTHENTICATED, EncodeField(Scope(ro)));
    case PermissionDenied(r) =>
      var p := Tag(data, pos, AUTH, EncodeUint(PERMISSION_DENIED) + EncodeField(r));
      var q := Tag(data, p, PERMISSION_DENIED, EncodeField(r));
  }

  lemma AtIsShort(data: Bytes, pos: nat, bs: Bytes)
    requires At(data, pos, bs)
    ensures |data| <= MAX_SLICE
  {
  }

  lemma BuiltBodyMeans(data: Bytes, pos: nat, b: Body, env: Env)
    requires At(data, pos, EncodeBody(b)) && TextualBody(b) && pos + |EncodeBody(b)| == |data|
    ensures TypedBody(data, pos, env) == MeaningOf(b, env)
  {
    hide ReadUint, ReadBytes, ReadString, EncodeField, EncodeUint, EncodeStep, At, TypedSync, TypedAuth, Scope, ValidUtf8;
    match b
    case Sync(isReply, step) =>
      var p := Tag(data, pos, if isReply then SYNC_REPLY else SYNC, EncodeStep(step));
      BuiltSyncMeans(data, p, isReply, step, env);
    case Awareness(u) =>
      var p := Tag(data, pos, AWARENESS, EncodeField(u));
      BlobAt(data, p, u);
    case QueryAwareness =>
      NumberAt(data, pos, QUERY_AWARENESS);
    case Stateless(t) =>
      var p := Tag(data, pos, STATELESS, EncodeField(t));
      TextAt(data, p, t);
    case BroadcastStateless(t) =>
      var p := Tag(data, pos, BROADCAST_STATELESS, EncodeField(t));
      TextAt(data, p, t);
    case SyncStatus(saved) =>
      var p := Tag(data, pos, SYNC_STATUS, EncodeUint(if saved then 1 else 0));
    case Close(r) =>
      var p := Tag(data, pos, CLOSE, EncodeField(r));
    case _ =>
      BuiltAuthMeans(data, pos, b, env);
  }

  /** A frame that the builders wrote makes the receiver do what its body says, with its exact fields. */
  lemma BuiltFrameMeans(address: Bytes, b: Body, env: Env)
    requires Textual(address, b) && |EncodeFrame(address, b)| <= MAX_SLICE
    ensures Typed(EncodeFrame(address, b), env) == MeaningOf(b, env)
  {
    hide ReadString, TypedBody, EncodeField, EncodeBody, ValidUtf8, MeaningOf;
    var data := EncodeFrame(address, b);
    assert At(data, 0, EncodeField(address) + EncodeBody(b)) by { assert data[0..|data|] == data; }
    AtSplits(data, 0, EncodeField(address), EncodeBody(b));
    TextAt(data, 0, address);
    BuiltBodyMeans(data, |EncodeField(address)|, b, env);
  }

  /** In the end the connection does what the body of a built frame says, exactly when no error text is a tag. */
  lemma BuiltFrameIsDispatched(address: Bytes, b: Body, env: Env)
    requires Textual(address, b) && |EncodeFrame(address, b)| <= MAX_SLICE
    ensures Dispatch(InBand(Typed(EncodeFrame(address, b), env))) == MeaningOf(b, env)
       <==> !(MeaningOf(b, env).CloseOnError? && Tagged(MeaningOf(b, env).text))
  {
    hide Typed, EncodeFrame, MeaningOf, Dispatch, InBand, Tagged;
    BuiltFrameMeans(address, b, env);
    DispatchIsFaithful(MeaningOf(b, env));
  }

  // ---------------------------------------------------------------- the receiver

  /** The receiver in the shape of the program: it advances a decoder and calls out as it goes. */
  class MessageReceiver {
    const data: Bytes

    constructor (data: Bytes)
      ensures this.data == data
    {
      this.data := data;
    }

    method Apply(env: Env) returns (r: Result)
      ensures r == InBand(Typed(data, env))
    {
      hide ReadUint, ReadBytes, ReadString, TypedStep, InBand;
      var decoder := new Decoder(data);
      var key := decoder.ReadVarString();
      if key.Panic? { return InBand(Panicked); }
      if key.Err? { return InBand(CloseOnError(env.ioError)); }
      var msgType := decoder.ReadVarUint();
      if !msgType.Ok? { return InBand(CloseOnError(env.ioError)); }
      var t := msgType.value;
      if t == SYNC || t == SYNC_REPLY {
        r := ReadSyncMessage(decoder, env, t != SYNC_REPLY);
      } else if t == AWARENESS {
        var update := decoder.ReadVarBytes();
        r := InBand(OfOutcome(update, env, bs => Unless(env.awarenessApplies, Keep(ApplyAwareness(bs)))));
      } else if t == QUERY_AWARENESS {
        r := InBand(Keep(if env.fromConnection then Ignored else SendAwareness));
      } else if t == STATELESS {
        var payload := decoder.ReadVarString();
        r := InBand(OfOutcome(payload, env, bs => OnStateless(bs)));
      } else if t == BROADCAST_STATELESS {
        if env.fromConnection { return InBand(CloseOnError(SERVER_INTERNAL)); }
        var payload := decoder.ReadVarString();
        r := InBand(OfOutcome(payload, env, bs => Keep(BroadcastText(bs))));
      } else if t == CLOSE {
        r := InBand(CloseAsRequested);
      } else if t == AUTH {
        var authType := decoder.ReadVarUint();
        if !authType.Ok? { return InBand(CloseOnError(env.ioError)); }
        if authType.value == TOKEN {
          var token := decoder.ReadVarString();
          return InBand(OfOutcome(token, env, bs => OnTokenSync(bs)));
        }
        r := InBand(Keep(Ignored));
      } else {
        r := InBand(Keep(Ignored));
      }
    }

    static function OfOutcome(o: Outcome<Bytes>, env: Env, action: Bytes -> Action): Action {
      match o
      case Ok(bs) => action(bs)
      case Err => CloseOnError(env.ioError)
      case Panic => Panicked
    }

    method ReadSyncMessage(decoder: Decoder, env: Env, requestFirstSync: bool) returns (r: Result)
      modifies decoder
      ensures r == InBand(TypedSync(decoder.data, old(decoder.pos), env, requestFirstSync))
    {
      hide ReadUint, ReadBytes, InBand;
      var syncType := decoder.ReadVarUint();
      if !syncType.Ok? { return InBand(CloseOnError(env.ioError)); }
      if !env.beforeSync.NoHook? {
        var payload := decoder.PeekVarBytes();
        if payload.Panic? { return InBand(Panicked); }
        if env.beforeSync.Rejects? { return InBand(CloseOnError(env.beforeSync.text)); }
      }
      var t := syncType.value;
      if t == 0 {
        var vector := decoder.ReadVarBytes();
        r := InBand(OfOutcome(vector, env, bs => Unless(env.vectorDecodes, Keep(AnswerStep1(bs, requestFirstSync)))));
      } else if t == 1 || t == 2 {
        var update := decoder.ReadVarBytes();
        if env.readOnly {
          r := InBand(OfOutcome(update, env, bs => Keep(RejectUpdate(bs, t == 1))));
        } else {
          r := InBand(OfOutcome(update, env, bs => Unless(env.updateApplies, Keep(ApplyUpdate(bs)))));
        }
      } else {
        r := InBand(CloseOnError(UNKNOWN_SYNC_TYPE + Decimal(t)));
      }
    }
  }
}
