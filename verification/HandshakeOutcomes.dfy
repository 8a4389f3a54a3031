/** What one frame or cleanup does to the maps of a socket, said in terms of the maps before and after
    it. The frames of a socket fall into the cases of these theorems: it cannot be read, its key or
    document has a connection, it waits, or it is the Auth frame of its key. */
module HandshakeOutcomes {
  import opened Encoding
  import opened RoutingKeys
  import opened HandshakeModel
  import Fields
  import Frames
  import Queue = ConnectionQueueModel

  /** Nothing has changed about any other key. */
  ghost predicate OthersSame(s: State, s': State, key: Bytes) {
    forall k: Bytes | k != key :: SameAt(s, s', k)
  }

  /** After a panic nothing is read any more; a frame without address changes nothing, unless it panics. */
  lemma UnreadableFrame(s: State, f: Bytes, w: World)
    requires !s.alive || !Decodable(f)
    ensures Step(s, f, w) == s.(alive := s.alive && !ReadString(f, 0).FieldPanic?)
  {
  }

  /** A frame goes to the connection of its key, or else of its document, and to no other; the read
      loop outlives that exactly if the hook refuses the frame or the connection can handle it. */
  lemma FrameIsDelivered(s: State, f: Bytes, w: World, key: Bytes)
    requires s.alive && Bears(f, key) && (key in s.conns || DocumentName(key) in s.conns)
    ensures var s', target := Step(s, f, w), if key in s.conns then key else DocumentName(key);
            && s'.conns == s.conns[target := s.conns[target].(delivered := s.conns[target].delivered + [f])]
            && s'.queue == s.queue && s'.established == s.established && s'.payloads == s.payloads
            && (s'.alive <==> !(w.handles(0) && Queue.Harmful(s.conns[target].document, f)))
  {
    hide DocumentName, ReadString, Queue.Harmful;
  }

  /** A frame of a key without connection, other than its Auth frame, waits at the end of the queue
      if its type can be read, and is dropped otherwise. */
  lemma FrameWaits(s: State, f: Bytes, w: World, key: Bytes)
    requires s.alive && Bears(f, key) && key !in s.conns && DocumentName(key) !in s.conns && !AuthComes(s, f, key)
    ensures var s' := Step(s, f, w);
            && s'.alive && s'.conns == s.conns && s'.established == s.established
            && s'.queue == s.queue[key := Of(s.queue, key)
                                          + (if ReadUint(f, ReadString(f, 0).next).Uint? then [f] else [])]
            && s'.payloads == if key in s.queue then s.payloads else s.payloads + {key}
  {
    hide DocumentName, ReadString, ReadUint, Authenticate;
    ContactQueues(s, key);
    QueueingShape(FirstContact(s, key), key, f, ReadString(f, 0).next, w);
  }

  /** An Auth frame that is malformed, or panics, is used up, and nobody is connected. */
  lemma MalformedIsUsedUp(s: State, f: Bytes, w: World, key: Bytes)
    requires AuthComes(s, f, key) && !RestOfAuth(f).Fine?
    ensures var s' := Step(s, f, w);
            && s'.conns == s.conns && s'.established == s.established + {key}
            && s'.queue == s.queue[key := Of(s.queue, key)]
            && (s'.alive <==> RestOfAuth(f).Malformed?)
  {
    hide DocumentName, ReadString, ReadUint, AuthFields, FirstContact;
    AuthIsTaken(s, f, w, key);
    ContactShape(s, key);
  }

  lemma ContactShape(s: State, key: Bytes)
    ensures var s' := FirstContact(s, key);
            && s'.queue == s.queue[key := Of(s.queue, key)] && s'.conns == s.conns
            && s'.established == s.established && s'.alive == s.alive
  {
  }

  /** The first of the queued frames that the connection panics over, or their number if there is none. */
  ghost predicate IsFirstBreak(document: Bytes, fs: seq<Bytes>, w: World, n: nat) {
    && n <= |fs| && (forall k :: 0 <= k < n ==> !(w.handles(k) && Queue.Harmful(document, fs[k])))
    && (n < |fs| ==> w.handles(n) && Queue.Harmful(document, fs[n]))
  }

  lemma {:induction false} HandedOverToBreak(document: Bytes, fs: seq<Bytes>, w: World, k: nat, n: nat)
    requires k <= n && IsFirstBreak(document, fs, w, n)
    ensures HandedOver(document, fs, w, k) == if n < |fs| then n + 1 else n
    decreases n - k
  {
    hide Queue.Harmful;
    if k < n {
      HandedOverToBreak(document, fs, w, k + 1, n);
    }
  }

  lemma FilledToBreak(key: Bytes, fs: seq<Bytes>, w: World, n: nat)
    requires IsFirstBreak(DocumentName(key), fs, w, n)
    ensures Filled(key, fs, w)
         == if n < |fs| then Conn(DocumentName(key), fs[..n+1], fs[n+1..]) else Conn(DocumentName(key), fs, [])
    ensures DrainBreaks(DocumentName(key), fs, w) <==> n < |fs|
  {
    hide DocumentName, Queue.Harmful;
    HandedOverToBreak(DocumentName(key), fs, w, 0, n);
    assert fs[..|fs|] == fs && fs[|fs|..] == [];
  }

  /** An accepted key is connected to its document and leaves the queue; the connection gets the
      queued frames in order, up to and with the first that it panics over, and the read loop goes on
      exactly if there is no such frame. */
  lemma AcceptedKeyConnects(s: State, f: Bytes, w: World, key: Bytes, n: nat)
    requires AuthComes(s, f, key) && RestOfAuth(f).Fine?
    requires w.connects && w.authenticates && w.creates && !w.socketClosing
    requires IsFirstBreak(DocumentName(key), Of(s.queue, key), w, n)
    ensures var s', q := Step(s, f, w), Of(s.queue, key);
            && s'.conns == s.conns[key := if n < |q| then Conn(DocumentName(key), q[..n+1], q[n+1..])
                                          else Conn(DocumentName(key), q, [])]
            && s'.queue == s.queue - {key} && s'.established == s.established + {key}
            && (s'.alive <==> n == |q|)
  {
    hide DocumentName, ReadString, ReadUint, AuthFields, FirstContact, Filled, DrainBreaks, IsFirstBreak, Accepts;
    ConsentOfAll(w);
    AuthIsTaken(s, f, w, key);
    ContactShape(s, key);
    FilledToBreak(key, Of(s.queue, key), w, n);
    BreakIsWithin(DocumentName(key), Of(s.queue, key), w, n);
    assert s.queue[key := Of(s.queue, key)] - {key} == s.queue - {key};
  }

  lemma BreakIsWithin(document: Bytes, fs: seq<Bytes>, w: World, n: nat)
    requires IsFirstBreak(document, fs, w, n)
    ensures n <= |fs|
  {
  }

  /** If the socket turns out to be closing, the key is forgotten and with it all keys that have a
      connection; the others are not touched. */
  lemma ClosingSocketForgetsAll(s: State, f: Bytes, w: World, key: Bytes, k: Bytes)
    requires AuthComes(s, f, key) && RestOfAuth(f).Fine?
    requires w.connects && w.authenticates && w.creates && w.socketClosing
    ensures Step(s, f, w).conns == map[] && Step(s, f, w).alive
    ensures k == key || k in s.conns ==> Absent(Step(s, f, w), k)
    ensures k != key && k !in s.conns ==> SameAt(s, Step(s, f, w), k)
  {
    hide DocumentName, ReadString, ReadUint, AuthFields, FirstContact, Accepts;
    ConsentOfAll(w);
    AuthIsTaken(s, f, w, key);
    ContactQueues(s, key);
    ContactShape(s, key);
    if k != key {
      ContactAlone(s, key, k);
      EstablishedAlone(FirstContact(s, key), key, f, k);
    }
  }

  /** The cleanup of a closed connection forgets its key, and only that. */
  lemma CleanupForgets(s: State, key: Bytes)
    ensures key in s.conns ==> Absent(Handle(s, Cleanup(key)), key) && OthersSame(s, Handle(s, Cleanup(key)), key)
    ensures key !in s.conns ==> Handle(s, Cleanup(key)) == s
    ensures Handle(s, Cleanup(key)).alive == s.alive
  {
    hide DocumentName, SameAt;
    forall k: Bytes | k != key && key in s.conns ensures SameAt(s, Handle(s, Cleanup(key)), k) {
      ResetAlone(s, key, k);
    }
  }

  // ---------------------------------------------------------------- what an Auth frame is

  /** The bytes of an Auth frame up to what may follow the token. */
  function AuthHead(key: Bytes, subType: u64): Bytes {
    EncodeField(key) + [2] + EncodeUint(subType)
  }

  lemma AuthIsRead(key: Bytes, subType: u64, rest: Bytes) returns (f: Bytes, p: nat)
    requires ValidUtf8(key) && |AuthHead(key, subType) + rest| <= MAX_SLICE
    ensures f == AuthHead(key, subType) + rest && p == |AuthHead(key, subType)|
    ensures Bears(f, key) && IsAuth(f)
    ensures RestOfAuth(f) == match ReadString(f, p)
                             case Field(_, q) => if q < |f| && ReadString(f, q).FieldPanic? then Panics else Fine
                             case FieldError(_) => Malformed
                             case FieldPanic => Panics
  {
    hide ReadUint, ReadString, EncodeField, EncodeUint, ValidUtf8;
    f, p := AuthHead(key, subType) + rest, |AuthHead(key, subType)|;
    var start := EncodeField(key);
    assert f == [] + start + ([2] + EncodeUint(subType) + rest);
    StringRoundTrip([], key, [2] + EncodeUint(subType) + rest);
    assert f == start + EncodeUint(2) + (EncodeUint(subType) + rest) by { SmallNumber(); }
    UintRoundTrip(start, 2, EncodeUint(subType) + rest);
    assert f == (start + [2]) + EncodeUint(subType) + rest;
    SmallNumber();
    UintRoundTrip(start + [2], subType, rest);
  }

  lemma SmallNumber()
    ensures EncodeUint(2) == [2]
  {
  }

  /** With any sub-type and a token of UTF-8 it is acted on. What follows the token, such as a version
      of the provider, may be anything - unless it is a field of which the end does not fit in 64 bits. */
  lemma TokenIsEnough(key: Bytes, subType: u64, token: Bytes, more: Bytes)
    requires ValidUtf8(key) && ValidUtf8(token)
    requires |AuthHead(key, subType) + (EncodeField(token) + more)| <= MAX_SLICE
    ensures var f := AuthHead(key, subType) + (EncodeField(token) + more);
            && Bears(f, key) && IsAuth(f)
            && RestOfAuth(f) == if more != [] && ReadString(f, |f| - |more|).FieldPanic? then Panics else Fine
  {
    hide ReadString, EncodeField, EncodeUint, ValidUtf8, IsAuth, RestOfAuth, Bears;
    var f, p := AuthIsRead(key, subType, EncodeField(token) + more);
    assert f == AuthHead(key, subType) + EncodeField(token) + more;
    StringRoundTrip(AuthHead(key, subType), token, more);
  }

  /** Without a whole token of UTF-8, or without a sub-type, it is malformed. */
  lemma TokenIsNeeded(key: Bytes, subType: u64, token: Bytes, more: Bytes, n: nat)
    requires ValidUtf8(key) && |AuthHead(key, subType) + (EncodeField(token) + more)| <= MAX_SLICE
    ensures n < |EncodeField(token)| ==>
              var f := AuthHead(key, subType) + EncodeField(token)[..n]; IsAuth(f) && RestOfAuth(f).Malformed?
    ensures !ValidUtf8(token) ==>
              var f := AuthHead(key, subType) + (EncodeField(token) + more); IsAuth(f) && RestOfAuth(f).Malformed?
    ensures n < |EncodeUint(subType)| ==>
              var f := EncodeField(key) + [2] + EncodeUint(subType)[..n]; IsAuth(f) && RestOfAuth(f).Malformed?
  {
    hide ReadString, EncodeField, EncodeUint, ValidUtf8, IsAuth, RestOfAuth, Bears, AuthHead;
    if n < |EncodeField(token)| {
      var f, p := AuthIsRead(key, subType, EncodeField(token)[..n]);
      Fields.TruncatedField(AuthHead(key, subType), token, n);
    }
    if !ValidUtf8(token) {
      var f, p := AuthIsRead(key, subType, EncodeField(token) + more);
      assert f == AuthHead(key, subType) + EncodeField(token) + more;
      NoText(AuthHead(key, subType), token, more);
    }
    if n < |EncodeUint(subType)| {
      NoSubType(key, subType, n) by { HeadLength(key, subType); }
    }
  }

  lemma HeadLength(key: Bytes, subType: u64)
    ensures |AuthHead(key, subType)| == |EncodeField(key)| + 1 + |EncodeUint(subType)|
  {
  }

  lemma NoText(pre: Bytes, bs: Bytes, rest: Bytes)
    requires !ValidUtf8(bs) && |pre + EncodeField(bs) + rest| <= MAX_SLICE
    ensures ReadString(pre + EncodeField(bs) + rest, |pre|).FieldError?
  {
    hide ReadBytes, EncodeField, ValidUtf8;
    BytesRoundTrip(pre, bs, rest);
  }

  lemma NoSubType(key: Bytes, subType: u64, n: nat)
    requires ValidUtf8(key) && n < |EncodeUint(subType)| && |EncodeField(key)| + 1 + |EncodeUint(subType)| <= MAX_SLICE
    ensures var f := EncodeField(key) + [2] + EncodeUint(subType)[..n]; IsAuth(f) && RestOfAuth(f).Malformed?
  {
    hide ReadUint, ReadString, EncodeField, EncodeUint, ValidUtf8;
    var start, cut := EncodeField(key), EncodeUint(subType)[..n];
    var f := start + [2] + cut;
    assert f == [] + start + ([2] + cut);
    StringRoundTrip([], key, [2] + cut);
    SmallNumber();
    assert f == start + EncodeUint(2) + cut;
    UintRoundTrip(start, 2, cut);
    Fields.TruncatedUint(start + [2], subType, n);
  }
}
