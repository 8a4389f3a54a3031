/** The handshake of a socket: four maps by raw routing key, advanced one frame at a time by the
    sequential read loop. Hooks and the state of the socket are arbitrary; closing the connections
    of a socket is one step. The read loop waits until a connection has handled what it is given, so
    that a panic in there ends the read loop as well. */
module HandshakeModel {
  import opened Encoding
  import opened RoutingKeys
  import Frames
  import Queue = ConnectionQueueModel

  /** How the hooks, the document and the socket answer while a frame is handled; `handles` says for
      which of the frames that are given to a connection in the course of it the hook before handling
      accepts. */
  datatype World =
    World(connects: bool, authenticates: bool, creates: bool, socketClosing: bool, handles: nat -> bool)

  /** A connection: its document, the frames handed to it, in order, and those that were queued for
      it but lost when it panicked before they were handed over. */
  datatype Conn = Conn(document: Bytes, delivered: seq<Bytes>, dropped: seq<Bytes>)

  datatype State = State(
    conns: map<Bytes, Conn>,
    queue: map<Bytes, seq<Bytes>>,
    established: set<Bytes>,
    payloads: set<Bytes>,
    alive: bool,                       // the read loop has not panicked
    since: map<Bytes, seq<Bytes>>,     // the frames that came to this key since its last reset
    consumed: map<Bytes, nat>)         // which of them was taken as the Auth frame

  const INIT := State(map[], map[], {}, {}, true, map[], map[])

  function KeyOf(f: Bytes): Bytes {
    match ReadString(f, 0)
    case Field(key, _) => key
    case _ => []
  }

  predicate Decodable(f: Bytes) {
    ReadString(f, 0).Field?
  }

  predicate Bears(f: Bytes, key: Bytes) {
    Decodable(f) && KeyOf(f) == key
  }

  /** The type of the frame can be read. */
  predicate Typed(f: Bytes) {
    match ReadString(f, 0)
    case Field(_, p) => ReadUint(f, p).Uint?
    case _ => false
  }

  predicate IsAuth(f: Bytes) {
    match ReadString(f, 0)
    case Field(_, p) => ReadUint(f, p).Uint? && ReadUint(f, p).value == Frames.AUTH
    case _ => false
  }

  datatype Reading = Fine | Malformed | Panics

  /** The rest of an Auth frame: a sub-type, a token, and perhaps a provider version that may be malformed. */
  function AuthFields(f: Bytes, pos: nat): Reading {
    match ReadUint(f, pos)
    case Uint(_, p) =>
      (match ReadString(f, p)
       case Field(_, q) => if q < |f| && ReadString(f, q).FieldPanic? then Panics else Fine
       case FieldError(_) => Malformed
       case FieldPanic => Panics)
    case _ => Malformed
  }

  predicate Accepts(w: World) {
    w.connects && w.authenticates && w.creates
  }

  function Of(m: map<Bytes, seq<Bytes>>, key: Bytes): seq<Bytes> {
    if key in m then m[key] else []
  }

  /** The frames before the connection exists are queued only if their type can be read. */
  function Readable(fs: seq<Bytes>): seq<Bytes> {
    if fs == [] then [] else Readable(fs[..|fs|-1]) + (if Typed(fs[|fs|-1]) then [fs[|fs|-1]] else [])
  }

  /** The frame came to `target`. */
  function Note(s: State, target: Bytes, f: Bytes): State {
    s.(since := s.since[target := Of(s.since, target) + [f]])
  }

  /** The connection panics over the frame, unless its hook refuses it. */
  predicate Breaks(document: Bytes, f: Bytes, accepted: bool) {
    accepted && Queue.Harmful(document, f)
  }

  function Deliver(s: State, target: Bytes, f: Bytes, w: World): State
    requires target in s.conns
  {
    var c := s.conns[target];
    Note(s, target, f).(conns := s.conns[target := c.(delivered := c.delivered + [f])],
                        alive := s.alive && !Breaks(c.document, f, w.handles(0)))
  }

  /** How many of the frames are handed over, from the `k`-th on: all, or up to the first that breaks. */
  function HandedOver(document: Bytes, fs: seq<Bytes>, w: World, k: nat): (n: nat)
    requires k <= |fs|
    ensures k <= n <= |fs|
    decreases |fs| - k
  {
    if k == |fs| then k
    else if Breaks(document, fs[k], w.handles(k)) then k + 1
    else HandedOver(document, fs, w, k + 1)
  }

  predicate DrainBreaks(document: Bytes, fs: seq<Bytes>, w: World) {
    exists k :: 0 <= k < |fs| && Breaks(document, fs[k], w.handles(k))
  }

  function Reset(s: State, keys: set<Bytes>): State {
    State(s.conns - keys, s.queue - keys, s.established - keys, s.payloads - keys, s.alive,
          s.since - keys, s.consumed - keys)
  }

  function FirstContact(s: State, key: Bytes): State {
    if key in s.queue then s else s.(queue := s.queue[key := []], payloads := s.payloads + {key})
  }

  /** A new connection is given the frames of the queue. */
  function Filled(key: Bytes, fs: seq<Bytes>, w: World): Conn {
    var n := HandedOver(DocumentName(key), fs, w, 0);
    Conn(DocumentName(key), fs[..n], fs[n..])
  }

  function Connect(s: State, key: Bytes, w: World): State
    requires key in s.queue
  {
    if w.socketClosing then Reset(s, s.conns.Keys + {key})
    else s.(queue := s.queue - {key}, conns := s.conns[key := Filled(key, s.queue[key], w)],
            alive := s.alive && !DrainBreaks(DocumentName(key), s.queue[key], w))
  }

  function Authenticate(s: State, key: Bytes, f: Bytes, pos: nat, w: World): State
    requires key in s.queue
  {
    var s1 := Note(s, key, f).(established := s.established + {key},
                                    consumed := s.consumed[key := |Of(s.since, key)|]);
    match AuthFields(f, pos)
    case Malformed => s1
    case Panics => s1.(alive := false)
    case Fine => if Accepts(w) then Connect(s1, key, w) else Reset(s1, {key})
  }

  function Queueing(s: State, key: Bytes, f: Bytes, pos: nat, w: World): State
    requires key in s.queue
  {
    match ReadUint(f, pos)
    case Uint(t, p) =>
      if t != Frames.AUTH || key in s.established then
        Note(s, key, f).(queue := s.queue[key := s.queue[key] + [f]])
      else Authenticate(s, key, f, p, w)
    case _ => Note(s, key, f)
  }

  /** One turn of the read loop. */
  function Step(s: State, f: Bytes, w: World): State {
    if !s.alive then s
    else
      match ReadString(f, 0)
      case FieldPanic => s.(alive := false)
      case FieldError(_) => s
      case Field(key, p) =>
        if key in s.conns then Deliver(s, key, f, w)
        else if DocumentName(key) in s.conns then Deliver(s, DocumentName(key), f, w)
        else Queueing(FirstContact(s, key), key, f, p, w)
  }

  /** What the socket goes through: a frame is read, or a closed connection has been cleaned up. */
  datatype Event = Frame(bytes: Bytes, world: World) | Cleanup(key: Bytes)

  function Handle(s: State, e: Event): State {
    match e
    case Frame(f, w) => Step(s, f, w)
    case Cleanup(key) => if key in s.conns then Reset(s, {key}) else s
  }

  function Exec(events: seq<Event>): State
    decreases |events|
  {
    if events == [] then INIT
    else Handle(Exec(events[..|events|-1]), events[|events|-1])
  }

  // ---------------------------------------------------------------- the invariant of one key

  /** The frames that bear the key. */
  function Own(fs: seq<Bytes>, key: Bytes): seq<Bytes> {
    if fs == [] then [] else Own(fs[..|fs|-1], key) + (if KeyOf(fs[|fs|-1]) == key then [fs[|fs|-1]] else [])
  }

  predicate NoAuth(fs: seq<Bytes>) {
    forall f :: f in fs ==> !IsAuth(f)
  }

  ghost predicate ConnectedOk(c: Conn, since: seq<Bytes>, i: nat) {
    i < |since| && IsAuth(since[i]) && NoAuth(since[..i]) && c.delivered + c.dropped == Readable(since[..i]) + since[i+1..]
  }

  /** Frames are lost only behind one that made the connection panic, and with it the read loop. */
  ghost predicate DroppedOk(c: Conn, alive: bool) {
    c.dropped != [] ==>
      !alive && c.delivered != [] && Queue.Harmful(c.document, c.delivered[|c.delivered|-1])
  }

  ghost predicate StuckOk(q: seq<Bytes>, since: seq<Bytes>, i: nat) {
    i < |since| && IsAuth(since[i]) && NoAuth(since[..i]) && q == Readable(since[..i]) + Readable(since[i+1..])
  }

  /** Only once it is connected does a sessionless key get frames of others. */
  ghost function OwnBelow(s: State, key: Bytes): nat {
    if DocumentName(key) == key && key in s.conns && key in s.consumed then s.consumed[key] + 1
    else |Of(s.since, key)|
  }

  /** All of them address the document of the key, and the first ones bear the key itself. */
  ghost predicate OriginsOk(since: seq<Bytes>, key: Bytes, ownBelow: nat) {
    && (forall j :: 0 <= j < |since| ==>
          Decodable(since[j]) && DocumentName(KeyOf(since[j])) == DocumentName(key))
    && (forall j :: 0 <= j < |since| && j < ownBelow ==> KeyOf(since[j]) == key)
  }

  ghost predicate KeyOk(s: State, key: Bytes) {
    var since := Of(s.since, key);
    && (key in s.conns ==>
          && key in s.established && key !in s.queue && s.conns[key].document == DocumentName(key)
          && key in s.consumed && ConnectedOk(s.conns[key], since, s.consumed[key])
          && DroppedOk(s.conns[key], s.alive))
    && (key in s.established && key !in s.conns ==>
          key in s.queue && key in s.consumed && StuckOk(s.queue[key], since, s.consumed[key]))
    && (key in s.queue && key !in s.established ==> s.queue[key] == Readable(since) && NoAuth(since))
    && (key !in s.queue && key !in s.conns ==> since == [])
    && (key in s.queue || key in s.conns ==> key in s.payloads)
    && OriginsOk(since, key, OwnBelow(s, key))
  }

  ghost predicate Inv(s: State) {
    forall key: Bytes :: KeyOk(s, key)
  }

  /** A key of which nothing has changed. */
  ghost predicate SameAt(s: State, s': State, key: Bytes) {
    && (key in s.conns <==> key in s'.conns) && (key in s.conns ==> s'.conns[key] == s.conns[key])
    && (key in s.queue <==> key in s'.queue) && (key in s.queue ==> s'.queue[key] == s.queue[key])
    && (key in s.established <==> key in s'.established)
    && (key in s.payloads <==> key in s'.payloads)
    && (key in s.consumed <==> key in s'.consumed) && (key in s.consumed ==> s'.consumed[key] == s.consumed[key])
    && Of(s.since, key) == Of(s'.since, key)
  }

  lemma SameIsOk(s: State, s': State, key: Bytes)
    requires KeyOk(s, key) && SameAt(s, s', key) && (s'.alive ==> s.alive)
    ensures KeyOk(s', key)
  {
    hide Readable, OriginsOk, Decodable, KeyOf, DocumentName, IsAuth, NoAuth;
  }

  lemma ReadableGrows(fs: seq<Bytes>, f: Bytes)
    ensures Readable(fs + [f]) == Readable(fs) + (if Typed(f) then [f] else [])
  {
    assert (fs + [f])[..|fs|] == fs;
  }

  lemma OwnGrows(fs: seq<Bytes>, f: Bytes, key: Bytes)
    ensures Own(fs + [f], key) == Own(fs, key) + (if KeyOf(f) == key then [f] else [])
  {
    assert (fs + [f])[..|fs|] == fs;
  }

  lemma ResetIsOk(s: State, keys: set<Bytes>, key: Bytes)
    requires key in keys || KeyOk(s, key)
    ensures KeyOk(Reset(s, keys), key)
  {
    if key !in keys {
      SameIsOk(s, Reset(s, keys), key);
    }
  }

  // ---------------------------------------------------------------- every step keeps it

  lemma NoAuthGrows(fs: seq<Bytes>, f: Bytes)
    ensures NoAuth(fs + [f]) <==> NoAuth(fs) && !IsAuth(f)
  {
    hide IsAuth;
    assert f in fs + [f];
    assert forall g :: g in fs ==> g in fs + [f];
  }

  lemma OriginsGrow(since: seq<Bytes>, f: Bytes, key: Bytes, below: nat, below': nat)
    requires OriginsOk(since, key, below) && below' <= below + 1
    requires below' <= |since| || KeyOf(f) == key
    requires Decodable(f) && DocumentName(KeyOf(f)) == DocumentName(key)
    requires below < |since| ==> below' <= below
    ensures OriginsOk(since + [f], key, below')
  {
    hide Decodable, KeyOf, DocumentName;
  }

  lemma DeliverIsOk(s: State, target: Bytes, key: Bytes, f: Bytes, w: World, k: Bytes)
    requires KeyOk(s, k) && target in s.conns && s.alive
    requires Bears(f, key) && DocumentName(key) == DocumentName(target)
    requires target == key || DocumentName(target) == target
    ensures KeyOk(Deliver(s, target, f, w), k)
  {
    hide Readable, OriginsOk, KeyOf, Decodable, DocumentName, ConnectedOk, StuckOk, Breaks;
    var s' := Deliver(s, target, f, w);
    if k == target {
      var since, i := Of(s.since, k), s.consumed[k];
      assert Of(s'.since, k) == since + [f];
      ConnectedGrows(s.conns[k], since, i, f);
      OriginsGrow(since, f, k, OwnBelow(s, k), OwnBelow(s', k));
    } else {
      SameIsOk(s, s', k);
    }
  }

  lemma ConnectedGrows(c: Conn, since: seq<Bytes>, i: nat, f: Bytes)
    requires ConnectedOk(c, since, i) && c.dropped == []
    ensures i < |since| && ConnectedOk(c.(delivered := c.delivered + [f]), since + [f], i)
  {
    hide Readable, IsAuth, NoAuth;
    assert (since + [f])[..i] == since[..i] && (since + [f])[i+1..] == since[i+1..] + [f];
    assert c.delivered + [] == c.delivered && c.delivered + [f] + [] == c.delivered + [f];
  }

  lemma ContactIsOk(s: State, key: Bytes, k: Bytes)
    requires KeyOk(s, k) && key !in s.conns
    ensures KeyOk(FirstContact(s, key), k)
  {
    hide OriginsOk, Decodable, KeyOf, DocumentName, IsAuth;
    if k != key {
      SameIsOk(s, FirstContact(s, key), k);
    }
  }

  lemma StuckGrows(q: seq<Bytes>, since: seq<Bytes>, i: nat, f: Bytes)
    requires StuckOk(q, since, i)
    ensures StuckOk(q + (if Typed(f) then [f] else []), since + [f], i)
  {
    hide Readable, IsAuth, NoAuth, Typed;
    ReadableGrows(since[i+1..], f);
    assert (since + [f])[..i] == since[..i] && (since + [f])[i+1..] == since[i+1..] + [f];
  }

  /** A frame that waits in the queue, or is dropped from it because its type cannot be read. */
  lemma WaitingIsOk(s: State, s': State, key: Bytes, f: Bytes, k: Bytes)
    requires KeyOk(s, k) && key in s.queue && key !in s.conns
    requires Bears(f, key) && (IsAuth(f) ==> key in s.established)
    requires s' == Note(s, key, f).(queue := s.queue[key := s.queue[key] + (if Typed(f) then [f] else [])])
    ensures KeyOk(s', k)
  {
    hide Readable, OriginsOk, Decodable, KeyOf, DocumentName, IsAuth, NoAuth, Typed, StuckOk, ConnectedOk, DroppedOk;
    if k != key {
      SameIsOk(s, s', k);
    } else {
      var since := Of(s.since, k);
      NoAuthGrows(since, f);
      ReadableGrows(since, f);
      OriginsGrow(since, f, k, OwnBelow(s, k), OwnBelow(s', k));
      if key in s.established {
        StuckGrows(s.queue[key], since, s.consumed[k], f);
      }
    }
  }

  /** The state once the Auth frame is taken. */
  function Established(s: State, key: Bytes, f: Bytes): State {
    Note(s, key, f).(established := s.established + {key}, consumed := s.consumed[key := |Of(s.since, key)|])
  }

  lemma EstablishedIsOk(s: State, key: Bytes, f: Bytes, k: Bytes)
    requires KeyOk(s, k) && key in s.queue && key !in s.conns && key !in s.established
    requires Bears(f, key) && IsAuth(f)
    ensures KeyOk(Established(s, key, f), k)
    ensures k == key ==> Established(s, key, f).queue[key] == Readable(Of(s.since, key))
  {
    hide OriginsOk, Decodable, KeyOf, DocumentName, IsAuth;
    var s' := Established(s, key, f);
    if k != key {
      SameIsOk(s, s', k);
    } else {
      var since := Of(s.since, k);
      OriginsGrow(since, f, k, OwnBelow(s, k), OwnBelow(s', k));
      assert (since + [f])[..|since|] == since && (since + [f])[|since|+1..] == [];
    }
  }

  lemma ConnectIsOk(s: State, key: Bytes, f: Bytes, w: World, k: Bytes)
    requires KeyOk(s, k) && key in s.queue && key !in s.conns && key !in s.established
    requires Bears(f, key) && IsAuth(f)
    ensures KeyOk(Connect(Established(s, key, f), key, w), k)
  {
    hide Readable, OriginsOk, Decodable, KeyOf, DocumentName, IsAuth, NoAuth, Filled, DrainBreaks, Queue.Harmful;
    var s1 := Established(s, key, f);
    EstablishedIsOk(s, key, f, k);
    if w.socketClosing {
      ResetIsOk(s1, s1.conns.Keys + {key}, k);
    } else if k != key {
      SameIsOk(s1, Connect(s1, key, w), k);
    } else {
      FilledKeyIsOk(s1, key, w);
    }
  }

  lemma FilledKeyIsOk(s: State, key: Bytes, w: World)
    requires KeyOk(s, key) && key in s.queue && key !in s.conns && !w.socketClosing
    requires key in s.consumed && s.consumed[key] + 1 == |Of(s.since, key)| && key in s.established
    ensures KeyOk(Connect(s, key, w), key)
  {
    hide Readable, OriginsOk, DocumentName, Filled, DrainBreaks, StuckOk, ConnectedOk, Queue.Harmful;
    FilledIsOk(key, s.queue[key], w);
    StuckIsFilled(s.queue[key], Of(s.since, key), s.consumed[key], Filled(key, s.queue[key], w));
  }

  lemma StuckIsFilled(q: seq<Bytes>, since: seq<Bytes>, i: nat, c: Conn)
    requires StuckOk(q, since, i) && i + 1 == |since| && c.delivered + c.dropped == q
    ensures ConnectedOk(c, since, i)
  {
    hide IsAuth, NoAuth;
    assert since[i+1..] == [] && Readable([]) == [];
  }

  lemma FilledIsOk(key: Bytes, fs: seq<Bytes>, w: World)
    ensures var c := Filled(key, fs, w);
            && c.document == DocumentName(key) && c.delivered + c.dropped == fs
            && DroppedOk(c, false) && (!DrainBreaks(DocumentName(key), fs, w) ==> c.dropped == [])
  {
    hide DocumentName, Queue.Harmful;
    UnbrokenDrain(DocumentName(key), fs, w, 0);
    LeftOverBehindBreak(DocumentName(key), fs, w, 0);
  }

  /** Frames are left over only behind one that broke. */
  lemma {:induction false} LeftOverBehindBreak(document: Bytes, fs: seq<Bytes>, w: World, k: nat)
    requires k <= |fs|
    ensures var n := HandedOver(document, fs, w, k); n < |fs| ==> n > k && Queue.Harmful(document, fs[n-1])
    decreases |fs| - k
  {
    hide Queue.Harmful;
    if k < |fs| {
      LeftOverBehindBreak(document, fs, w, k + 1);
    }
  }

  lemma UnbrokenDrain(document: Bytes, fs: seq<Bytes>, w: World, k: nat)
    requires k <= |fs|
    ensures !DrainBreaks(document, fs, w) ==> HandedOver(document, fs, w, k) == |fs|
    decreases |fs| - k
  {
    hide Breaks;
    if k < |fs| && !Breaks(document, fs[k], w.handles(k)) {
      UnbrokenDrain(document, fs, w, k + 1);
    }
  }

  lemma AuthenticateIsOk(s: State, key: Bytes, f: Bytes, pos: nat, w: World, k: Bytes)
    requires KeyOk(s, k) && key in s.queue && key !in s.conns && key !in s.established
    requires Bears(f, key) && IsAuth(f)
    ensures KeyOk(Authenticate(s, key, f, pos, w), k)
  {
    hide Readable, OriginsOk, Decodable, KeyOf, DocumentName, IsAuth, AuthFields, Accepts, Connect, Note, KeyOk, Reset;
    var s1 := Established(s, key, f);
    EstablishedIsOk(s, key, f, k);
    match AuthFields(f, pos)
    case Malformed =>
    case Panics => DeadIsOk(s1, k);
    case Fine =>
      if Accepts(w) { ConnectIsOk(s, key, f, w, k); } else { ResetIsOk(s1, {key}, k); }
  }

  lemma DeadIsOk(s: State, k: Bytes)
    requires KeyOk(s, k)
    ensures KeyOk(s.(alive := false), k)
  {
    hide Readable, OriginsOk, Decodable, KeyOf, DocumentName, IsAuth, NoAuth;
    SameIsOk(s, s.(alive := false), k);
  }

  lemma QueueingIsOk(s: State, key: Bytes, f: Bytes, pos: nat, w: World, k: Bytes)
    requires KeyOk(s, k) && key in s.queue && key !in s.conns
    requires ReadString(f, 0) == Field(key, pos)
    ensures KeyOk(Queueing(s, key, f, pos, w), k)
  {
    hide Readable, OriginsOk, KeyOf, DocumentName, KeyOk, Authenticate, Note;
    QueueingShape(s, key, f, pos, w);
    if IsAuth(f) && key !in s.established {
      AuthenticateIsOk(s, key, f, ReadUint(f, pos).next, w, k);
    } else {
      WaitingIsOk(s, Queueing(s, key, f, pos, w), key, f, k);
    }
  }

  lemma QueueingShape(s: State, key: Bytes, f: Bytes, pos: nat, w: World)
    requires key in s.queue && ReadString(f, 0) == Field(key, pos)
    ensures Bears(f, key)
    ensures IsAuth(f) && key !in s.established ==>
              ReadUint(f, pos).Uint? && Queueing(s, key, f, pos, w) == Authenticate(s, key, f, ReadUint(f, pos).next, w)
    ensures !(IsAuth(f) && key !in s.established) ==>
              Queueing(s, key, f, pos, w)
              == Note(s, key, f).(queue := s.queue[key := s.queue[key] + (if Typed(f) then [f] else [])])
  {
    hide DocumentName, Authenticate;
    if !Typed(f) {
      assert s.queue[key] + [] == s.queue[key];
      assert s.queue[key := s.queue[key]] == s.queue;
    }
  }

  lemma StepPreservesKey(s: State, e: Event, k: Bytes)
    requires KeyOk(s, k)
    ensures KeyOk(Handle(s, e), k)
  {
    hide Readable, OriginsOk, DocumentName, KeyOk, Queueing, FirstContact, Deliver, Reset;
    match e
    case Cleanup(key) => ResetIsOk(s, {key}, k);
    case Frame(f, w) =>
      if s.alive {
        match ReadString(f, 0)
        case FieldPanic => DeadIsOk(s, k);
        case FieldError(_) =>
        case Field(key, p) =>
          NameOfName(key);
          if key in s.conns {
            DeliverIsOk(s, key, key, f, w, k);
          } else if DocumentName(key) in s.conns {
            DeliverIsOk(s, DocumentName(key), key, f, w, k);
          } else {
            ContactIsOk(s, key, k);
            ContactQueues(s, key);
            QueueingIsOk(FirstContact(s, key), key, f, p, w, k);
          }
      }
  }

  lemma ContactQueues(s: State, key: Bytes)
    ensures key in FirstContact(s, key).queue
    ensures FirstContact(s, key).conns == s.conns && FirstContact(s, key).established == s.established
  {
  }

  lemma {:induction false} InvAlways(events: seq<Event>)
    ensures Inv(Exec(events))
    decreases |events|
  {
    hide Handle, KeyOk;
    if events == [] {
      forall k: Bytes ensures KeyOk(INIT, k) { InitIsOk(k); }
    } else {
      var last := |events| - 1;
      InvAlways(events[..last]);
      forall k: Bytes ensures KeyOk(Exec(events), k) {
        StepPreservesKey(Exec(events[..last]), events[last], k);
      }
    }
  }

  lemma InitIsOk(k: Bytes)
    ensures KeyOk(INIT, k)
  {
  }

  // ---------------------------------------------------------------- what a step can do to a key

  /** The initial phase: nothing is known of the key. */
  predicate Absent(s: State, key: Bytes) {
    key !in s.conns && key !in s.queue && key !in s.established && key !in s.payloads
  }

  function Brings(s: State, e: Event, key: Bytes): seq<Bytes> {
    if e.Frame? && s.alive && Bears(e.bytes, key) then [e.bytes] else []
  }

  /** A frame of the key goes to the connection under the bare document name. */
  predicate Diverts(s: State, e: Event, key: Bytes) {
    e.Frame? && s.alive && Bears(e.bytes, key) && key !in s.conns && DocumentName(key) in s.conns
  }

  function Comes(s: State, e: Event, key: Bytes): seq<Bytes> {
    if Diverts(s, e, key) then [] else Brings(s, e, key)
  }

  ghost predicate Kept(s: State, s': State, came: seq<Bytes>, k: Bytes) {
    && (k in s.conns ==> k in s'.conns) && (k in s.established ==> k in s'.established)
    && Own(Of(s'.since, k), k) == Own(Of(s.since, k), k) + came
  }

  /** The key goes on, or it is reset; a key that waits behind a used-up Auth frame is never reset. */
  ghost predicate Moved(s: State, s': State, came: seq<Bytes>, k: Bytes) {
    || Kept(s, s', came, k)
    || (Absent(s', k) && (k in s.conns || k !in s.established))
  }

  lemma EstablishedMoves(s: State, key: Bytes, f: Bytes, k: Bytes)
    requires key in s.queue && key !in s.conns && key !in s.established && Bears(f, key)
    ensures Kept(s, Established(s, key, f), if k == key then [f] else [], k)
    ensures Established(s, key, f).conns == s.conns && Established(s, key, f).queue == s.queue
  {
    hide DocumentName, Own, KeyOf, Decodable;
    OwnGrows(Of(s.since, key), f, key);
  }

  lemma ResetMoves(s: State, s1: State, keys: set<Bytes>, came: seq<Bytes>, k: Bytes)
    requires Kept(s, s1, came, k) && (k in keys ==> k in s.conns || k !in s.established)
    ensures Moved(s, Reset(s1, keys), came, k)
  {
    hide DocumentName;
  }

  lemma ConnectMoves(s: State, key: Bytes, f: Bytes, w: World, k: Bytes)
    requires key in s.queue && key !in s.conns && key !in s.established && Bears(f, key)
    ensures var s' := Connect(Established(s, key, f), key, w);
            && Moved(s, s', if k == key then [f] else [], k)
            && (key in s'.conns <==> !w.socketClosing)
            && (k in s'.conns && k !in s.conns ==> k == key)
  {
    hide DocumentName, Note, Moved;
    var s1 := Established(s, key, f);
    EstablishedMoves(s, key, f, k);
    if w.socketClosing {
      ResetMoves(s, s1, s1.conns.Keys + {key}, if k == key then [f] else [], k);
    } else {
      KeptMoves(s, Connect(s1, key, w), if k == key then [f] else [], k);
    }
  }

  lemma AuthenticateMoves(s: State, key: Bytes, f: Bytes, pos: nat, w: World, k: Bytes)
    requires key in s.queue && key !in s.conns && key !in s.established && Bears(f, key)
    ensures var s', fine := Authenticate(s, key, f, pos, w), AuthFields(f, pos).Fine?;
            && Moved(s, s', if k == key then [f] else [], k)
            && (key in s'.conns <==> fine && Accepts(w) && !w.socketClosing)
            && (k in s'.conns && k !in s.conns ==> k == key)
            && (!fine ==> key in s'.established)
            && (fine && !Accepts(w) ==> Absent(s', key))
  {
    hide DocumentName, AuthFields, Connect, Accepts, Moved, Note;
    var s1, came := Established(s, key, f), if k == key then [f] else [];
    ConnectMoves(s, key, f, w, k);
    EstablishedMoves(s, key, f, k);
    KeptMoves(s, s1, came, k);
    KeptMoves(s, s1.(alive := false), came, k);
    ResetMoves(s, s1, {key}, came, k);
  }

  lemma QueueingMoves(s: State, key: Bytes, f: Bytes, pos: nat, w: World, k: Bytes)
    requires key in s.queue && key !in s.conns && ReadString(f, 0) == Field(key, pos)
    ensures var s' := Queueing(s, key, f, pos, w);
            && Moved(s, s', if k == key then [f] else [], k)
            && (k in s'.conns && k !in s.conns ==>
                  k == key && IsAuth(f) && key !in s.established && Accepts(w) && !w.socketClosing)
  {
    hide DocumentName, Authenticate, Accepts, ReadString, ReadUint, Queueing, AuthFields, IsAuth, Typed, Absent, Own, Bears;
    QueueingShape(s, key, f, pos, w);
    if IsAuth(f) && key !in s.established {
      AuthenticateMoves(s, key, f, ReadUint(f, pos).next, w, k);
    } else {
      NotedMoves(s, Queueing(s, key, f, pos, w), key, key, f, k);
      KeptMoves(s, Queueing(s, key, f, pos, w), if k == key then [f] else [], k);
    }
  }

  /** A frame bearing `key` comes to `target`, and nobody is connected or reset. */
  lemma NotedMoves(s: State, s': State, target: Bytes, key: Bytes, f: Bytes, k: Bytes)
    requires Bears(f, key) && s'.since == Note(s, target, f).since
    requires s'.conns.Keys == s.conns.Keys && s'.established == s.established
    ensures Kept(s, s', if k == key == target then [f] else [], k)
  {
    hide Own, KeyOf, Decodable;
    OwnGrows(Of(s.since, target), f, target);
  }

  lemma DeliverMoves(s: State, target: Bytes, key: Bytes, f: Bytes, w: World, k: Bytes)
    requires target in s.conns && Bears(f, key)
    ensures Kept(s, Deliver(s, target, f, w), if k == key == target then [f] else [], k)
    ensures Deliver(s, target, f, w).conns.Keys == s.conns.Keys
  {
    hide Own, KeyOf, Decodable, Breaks;
    NotedMoves(s, Deliver(s, target, f, w), target, key, f, k);
  }

  lemma ContactMoves(s: State, key: Bytes, s': State, came: seq<Bytes>, k: Bytes)
    requires Moved(FirstContact(s, key), s', came, k)
    ensures Moved(s, s', came, k)
  {
    hide DocumentName, Absent, Own;
  }

  lemma CleanupMoves(s: State, key: Bytes, k: Bytes)
    requires key in s.conns
    ensures Moved(s, Reset(s, {key}), [], k)
  {
    hide DocumentName, Own;
    if k != key {
      assert Own(Of(s.since, k), k) + [] == Own(Of(s.since, k), k);
    }
  }

  lemma StepMoves(s: State, e: Event, k: Bytes)
    ensures Moved(s, Handle(s, e), Comes(s, e, k), k)
    ensures k in Handle(s, e).conns && k !in s.conns ==>
              && e.Frame? && s.alive && Bears(e.bytes, k) && IsAuth(e.bytes) && k !in s.established
              && DocumentName(k) !in s.conns && Accepts(e.world) && !e.world.socketClosing
  {
    hide DocumentName, Queueing, FirstContact, Deliver, Moved, Accepts, IsAuth, ReadString, ReadUint, Own;
    match e
    case Cleanup(key) =>
      if key in s.conns { CleanupMoves(s, key, k); } else { StillMoves(s, s, k); }
    case Frame(f, w) =>
      if s.alive && ReadString(f, 0).Field? {
        var key, p := KeyOf(f), ReadString(f, 0).next;
        if key in s.conns {
          DeliverMoves(s, key, key, f, w, k);
          KeptMoves(s, Step(s, f, w), if k == key then [f] else [], k);
        } else if DocumentName(key) in s.conns {
          DeliverMoves(s, DocumentName(key), key, f, w, k);
          KeptMoves(s, Step(s, f, w), [], k);
        } else {
          ContactQueues(s, key);
          QueueingMoves(FirstContact(s, key), key, f, p, w, k);
          ContactMoves(s, key, Step(s, f, w), if k == key then [f] else [], k);
        }
      } else {
        StillMoves(s, Step(s, f, w), k);
      }
  }

  lemma KeptMoves(s: State, s': State, came: seq<Bytes>, k: Bytes)
    requires Kept(s, s', came, k)
    ensures Moved(s, s', came, k)
  {
    hide Kept;
  }

  lemma StillMoves(s: State, s': State, k: Bytes)
    requires s' == s.(alive := s'.alive)
    ensures Moved(s, s', [], k)
  {
    hide Own;
    assert Own(Of(s.since, k), k) + [] == Own(Of(s.since, k), k);
  }

  // ---------------------------------------------------------------- what a key has been sent

  /** The frames bearing the key that were read since the key was last in the initial phase. */
  function Since(events: seq<Event>, key: Bytes): seq<Bytes>
    decreases |events|
  {
    if events == [] || Absent(Exec(events), key) then []
    else
      var last := |events| - 1;
      Since(events[..last], key) + Brings(Exec(events[..last]), events[last], key)
  }

  /** Since the key was last in the initial phase, a frame of it went to the connection under the
      bare document name. */
  ghost predicate Diverted(events: seq<Event>, key: Bytes)
    decreases |events|
  {
    events != [] && !Absent(Exec(events), key) &&
    var last := |events| - 1;
    Diverted(events[..last], key) || Diverts(Exec(events[..last]), events[last], key)
  }

  /** Unless some were diverted, the frames of the key that came to it are all there were. */
  lemma {:induction false} SinceIsAll(events: seq<Event>, key: Bytes)
    requires !Diverted(events, key)
    ensures Own(Of(Exec(events).since, key), key) == Since(events, key)
    decreases |events|
  {
    hide Handle, KeyOk, Brings, Own, Diverts, Absent;
    InvAlways(events);
    AbsentIsEmpty(Exec(events), key);
    if events != [] && !Absent(Exec(events), key) {
      var last := |events| - 1;
      StepMoves(Exec(events[..last]), events[last], key);
      SinceIsAll(events[..last], key);
    } else if events == [] {
      NothingAtFirst(key);
    }
  }

  lemma NothingAtFirst(key: Bytes)
    ensures Absent(INIT, key)
  {
  }

  lemma AbsentIsEmpty(s: State, key: Bytes)
    requires KeyOk(s, key)
    ensures Absent(s, key) ==> Own(Of(s.since, key), key) == []
  {
  }

  /** For one thing, a sessionless key is never diverted, and no key is diverted while there is no
      connection under the bare name. */
  lemma {:induction false} NotDivertedAlone(events: seq<Event>, key: Bytes)
    requires DocumentName(key) == key || forall n :: 0 <= n <= |events| ==> DocumentName(key) !in Exec(events[..n]).conns
    ensures !Diverted(events, key)
    decreases |events|
  {
    hide Handle, Absent, DocumentName;
    if events != [] {
      var last := |events| - 1;
      assert forall n :: 0 <= n <= last ==> events[..last][..n] == events[..n];
      NotDivertedAlone(events[..last], key);
    }
  }

  // ---------------------------------------------------------------- delivery

  lemma {:induction false} OwnPrefix(fs: seq<Bytes>, key: Bytes)
    requires forall j :: 0 <= j < |fs| ==> KeyOf(fs[j]) == key
    ensures Own(fs, key) == fs
    decreases |fs|
  {
    hide KeyOf;
    if fs != [] {
      OwnPrefix(fs[..|fs|-1], key);
      assert fs[..|fs|-1] + [fs[|fs|-1]] == fs;
    }
  }

  lemma {:induction false} OwnSplits(a: seq<Bytes>, b: seq<Bytes>, key: Bytes)
    ensures Own(a + b, key) == Own(a, key) + Own(b, key)
    decreases |b|
  {
    hide KeyOf;
    if b == [] {
      assert a + b == a;
    } else {
      var n := |b| - 1;
      OwnSplits(a, b[..n], key);
      assert a + b == (a + b[..n]) + [b[n]];
      OwnGrows(a + b[..n], b[n], key);
    }
  }

  lemma {:induction false} ReadableKeeps(fs: seq<Bytes>, f: Bytes)
    requires f in Readable(fs)
    ensures f in fs
    decreases |fs|
  {
    if f in Readable(fs[..|fs|-1]) {
      ReadableKeeps(fs[..|fs|-1], f);
    }
  }

  function FirstAuth(fs: seq<Bytes>): nat {
    if fs == [] || IsAuth(fs[0]) then 0 else 1 + FirstAuth(fs[1..])
  }

  lemma {:induction false} FirstAuthIs(fs: seq<Bytes>, i: nat)
    requires i < |fs| && IsAuth(fs[i]) && NoAuth(fs[..i])
    ensures FirstAuth(fs) == i
    decreases i
  {
    hide IsAuth;
    if i > 0 {
      assert fs[0] in fs[..i];
      assert fs[1..][..i-1] == fs[1..i];
      assert forall f :: f in fs[1..i] ==> f in fs[..i];
      FirstAuthIs(fs[1..], i - 1);
    }
  }

  /** Of all frames of the key that came since its last reset, these are due to its connection: the
      ones before the first Auth frame of which the type can be read, and all after it. */
  function Due(since: seq<Bytes>): seq<Bytes> {
    var auth := FirstAuth(since);
    if auth < |since| then Readable(since[..auth]) + since[auth+1..] else []
  }

  /** The connection of a key is given exactly the frames of the key since its last reset, except
      the accepted Auth frame, in the order of arrival; a key with a session gets no other frame. Only
      if the connection panics over a frame of the queue, and the read loop with it, the rest of the
      queue is lost. */
  lemma HandshakeDelivers(events: seq<Event>, key: Bytes)
    requires key in Exec(events).conns && !Diverted(events, key)
    ensures var c, since := Exec(events).conns[key], Since(events, key);
            && FirstAuth(since) < |since|
            && Own(c.delivered, key) + Own(c.dropped, key) == Due(since)
            && (DocumentName(key) != key ==> c.delivered + c.dropped == Due(since))
    ensures var s := Exec(events);
            DroppedOk(s.conns[key], s.alive)
            && (Queue.NoneHarmful(DocumentName(key), s.conns[key].delivered) ==> s.conns[key].dropped == [])
  {
    hide Handle, Exec, Since, Diverted, Due, Readable, Own, FirstAuth, DocumentName, KeyOf, KeyOk, DroppedOk, Queue.NoneHarmful;
    InvAlways(events);
    SinceIsAll(events, key);
    DeliveredOf(Exec(events), key);
  }

  lemma DeliveredOf(s: State, key: Bytes)
    requires KeyOk(s, key) && key in s.conns
    ensures var c, own := s.conns[key], Own(Of(s.since, key), key);
            && FirstAuth(own) < |own|
            && Own(c.delivered, key) + Own(c.dropped, key) == Due(own)
            && (DocumentName(key) != key ==> c.delivered + c.dropped == Due(own))
            && DroppedOk(c, s.alive) && (Queue.NoneHarmful(DocumentName(key), c.delivered) ==> c.dropped == [])
  {
    hide Readable, Own, IsAuth, NoAuth, FirstAuth, DocumentName, KeyOf, Queue.Harmful;
    var all, own, c := Of(s.since, key), Own(Of(s.since, key), key), s.conns[key];
    var auth := s.consumed[key];
    var head, tail := all[..auth+1], all[auth+1..];
    assert all == head + tail;
    OwnSplits(head, tail, key);
    OwnPrefix(head, key);
    assert own == head + Own(tail, key);
    assert own[..auth] == all[..auth] && own[auth+1..] == Own(tail, key);
    FirstAuthIs(own, auth);
    forall j | 0 <= j < |Readable(all[..auth])| ensures KeyOf(Readable(all[..auth])[j]) == key {
      ReadableKeeps(all[..auth], Readable(all[..auth])[j]);
    }
    OwnPrefix(Readable(all[..auth]), key);
    OwnSplits(Readable(all[..auth]), tail, key);
    OwnSplits(c.delivered, c.dropped, key);
    if DocumentName(key) != key {
      OwnPrefix(tail, key);
    }
    assert c.dropped != [] ==> c.delivered[|c.delivered|-1] in c.delivered;
  }

  /** The check of the document name in a connection discards no frame that was routed to it. */
  lemma NameCheckPasses(events: seq<Event>, key: Bytes, f: Bytes, outcome: Queue.Outcome)
    requires key in Exec(events).conns && f in Exec(events).conns[key].delivered
    requires Queue.Allowed(Exec(events).conns[key].document, f, outcome)
    ensures outcome.RejectedByHook? || outcome.Applied?
  {
    hide Handle, Exec, Readable, IsAuth, DocumentName;
    InvAlways(events);
    var s := Exec(events);
    assert KeyOk(s, key);
    var since, i := Of(s.since, key), s.consumed[key];
    if f in Readable(since[..i]) {
      ReadableKeeps(since[..i], f);
    }
    assert f in s.conns[key].delivered + s.conns[key].dropped;
    assert f in since;
  }

  // ---------------------------------------------------------------- who gets in

  /** A key is connected only by its own first Auth frame, accepted by all. */
  lemma ConnectedOnlyByConsent(s: State, e: Event, key: Bytes)
    requires key !in s.conns && key in Handle(s, e).conns
    ensures e.Frame? && Bears(e.bytes, key) && IsAuth(e.bytes)
    ensures e.world.connects && e.world.authenticates && e.world.creates && !e.world.socketClosing
    ensures s.alive && key !in s.established && DocumentName(key) !in s.conns
  {
    hide DocumentName, Handle, Brings, Moved, IsAuth, Bears;
    StepMoves(s, e, key);
  }

  lemma ConsentOfAll(w: World)
    ensures Accepts(w) <==> w.connects && w.authenticates && w.creates
  {
  }

  /** An Auth frame that the program can act on comes for this key. */
  predicate AuthComes(s: State, f: Bytes, key: Bytes) {
    && s.alive && Bears(f, key) && IsAuth(f) && key !in s.established && key !in s.conns && DocumentName(key) !in s.conns
  }

  function RestOfAuth(f: Bytes): Reading
    requires IsAuth(f)
  {
    AuthFields(f, ReadUint(f, ReadString(f, 0).next).next)
  }

  lemma AuthIsTaken(s: State, f: Bytes, w: World, key: Bytes)
    requires AuthComes(s, f, key)
    ensures Step(s, f, w)
            == (ContactQueues(s, key);
                Authenticate(FirstContact(s, key), key, f, ReadUint(f, ReadString(f, 0).next).next, w))
  {
    hide DocumentName, AuthFields, ReadString, ReadUint, Authenticate, FirstContact, Note;
    ContactQueues(s, key);
  }

  lemma ContactAlone(s: State, key: Bytes, k: Bytes)
    requires k != key
    ensures SameAt(s, FirstContact(s, key), k)
  {
  }

  lemma EstablishedAlone(s: State, key: Bytes, f: Bytes, k: Bytes)
    requires k != key
    ensures SameAt(s, Established(s, key, f), k)
  {
  }

  lemma ResetAlone(s: State, key: Bytes, k: Bytes)
    requires k != key
    ensures SameAt(s, Reset(s, {key}), k)
  {
  }

  lemma SameThrough(s: State, t: State, u: State, k: Bytes)
    requires SameAt(s, t, k) && SameAt(t, u, k)
    ensures SameAt(s, u, k)
  {
  }

  lemma DeniedAlone(s: State, key: Bytes, f: Bytes, pos: nat, w: World, k: Bytes)
    requires key !in s.conns && k != key && AuthFields(f, pos).Fine? && !Accepts(w)
    requires key in FirstContact(s, key).queue
    ensures SameAt(s, Authenticate(FirstContact(s, key), key, f, pos, w), k)
  {
    hide DocumentName, AuthFields, Accepts, SameAt, FirstContact, Note, Reset, Connect;
    var s0 := FirstContact(s, key);
    var s1 := Established(s0, key, f);
    ContactAlone(s, key, k);
    EstablishedAlone(s0, key, f, k);
    ResetAlone(s1, key, k);
    SameThrough(s, s0, s1, k);
    SameThrough(s, s1, Reset(s1, {key}), k);
  }

  /** A key that one of the hooks or the document denies is back in the initial phase, and other keys
      notice nothing; the key is connected exactly when its Auth frame is well formed, both hooks
      accept, the document is there and the socket is open. */
  lemma DeniedStartsOver(s: State, f: Bytes, w: World, key: Bytes)
    requires AuthComes(s, f, key)
    ensures key in Step(s, f, w).conns
       <==> RestOfAuth(f).Fine? && w.connects && w.authenticates && w.creates && !w.socketClosing
    ensures RestOfAuth(f).Fine? && (!w.connects || !w.authenticates || !w.creates) ==>
              Absent(Step(s, f, w), key) && forall k: Bytes | k != key :: SameAt(s, Step(s, f, w), k)
  {
    hide DocumentName, AuthFields, ReadString, ReadUint, Step, Authenticate, FirstContact, Absent, IsAuth, Accepts, SameAt;
    ConsentOfAll(w);
    AuthIsTaken(s, f, w, key);
    ContactQueues(s, key);
    var pos := ReadUint(f, ReadString(f, 0).next).next;
    AuthenticateMoves(FirstContact(s, key), key, f, pos, w, key);
    if AuthFields(f, pos).Fine? && !Accepts(w) {
      forall k: Bytes | k != key ensures SameAt(s, Step(s, f, w), k) {
        DeniedAlone(s, key, f, pos, w, k);
      }
    }
  }

  /** A malformed Auth frame uses up the only attempt of its key: whatever comes after it, the key
      is never connected, not even by a well-formed Auth frame. */
  lemma {:induction false} MalformedAuthIsFinal(events: seq<Event>, f: Bytes, w: World, more: seq<Event>, key: Bytes)
    requires AuthComes(Exec(events), f, key) && !RestOfAuth(f).Fine?
    ensures key !in Exec(events + [Frame(f, w)] + more).conns && key in Exec(events + [Frame(f, w)] + more).established
    decreases |more|
  {
    hide Handle, AuthComes, RestOfAuth, IsAuth;
    var start := events + [Frame(f, w)];
    if more == [] {
      MalformedSticks(Exec(events), f, w, key);
      assert start + more == start && start[..|events|] == events;
    } else {
      var last := |more| - 1;
      MalformedAuthIsFinal(events, f, w, more[..last], key);
      assert (start + more)[..|start| + last] == start + more[..last];
      StaysOut(Exec(start + more[..last]), more[last], key);
    }
  }

  lemma MalformedSticks(s: State, f: Bytes, w: World, key: Bytes)
    requires AuthComes(s, f, key) && !RestOfAuth(f).Fine?
    ensures key !in Handle(s, Frame(f, w)).conns && key in Handle(s, Frame(f, w)).established
  {
    hide DocumentName, AuthFields, ReadString, ReadUint, Step, Authenticate, FirstContact, IsAuth, Accepts;
    AuthIsTaken(s, f, w, key);
    ContactQueues(s, key);
    AuthenticateMoves(FirstContact(s, key), key, f, ReadUint(f, ReadString(f, 0).next).next, w, key);
  }

  lemma StaysOut(s: State, e: Event, key: Bytes)
    requires key in s.established && key !in s.conns
    ensures key in Handle(s, e).established && key !in Handle(s, e).conns
  {
    hide DocumentName, Handle, Brings, IsAuth, Bears;
    StepMoves(s, e, key);
  }
}
