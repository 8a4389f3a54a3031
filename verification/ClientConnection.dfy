/** The connection of a client in the shape of the program: four maps by raw routing key. Hooks and
    the state of the socket are parameters; each frame is proved to act as `HandshakeModel.Step`. */
module ClientConnections {
  import opened Encoding
  import opened RoutingKeys
  import opened Decoders
  import opened HandshakeModel
  import Frames

  class ClientConnection {
    var documentConnections: map<Bytes, Conn>
    var incomingMessageQueue: map<Bytes, seq<Bytes>>
    var documentConnectionsEstablished: set<Bytes>
    var hookPayloads: set<Bytes>
    var readLoopAlive: bool

    // history
    ghost var since: map<Bytes, seq<Bytes>>
    ghost var consumed: map<Bytes, nat>

    ghost function View(): State
      reads this
    {
      State(documentConnections, incomingMessageQueue, documentConnectionsEstablished, hookPayloads,
            readLoopAlive, since, consumed)
    }

    constructor ()
      ensures View() == INIT && Inv(View())
    {
      documentConnections, incomingMessageQueue := map[], map[];
      documentConnectionsEstablished, hookPayloads, readLoopAlive := {}, {}, true;
      since, consumed := map[], map[];
      new;
      InvAlways([]);
    }

    ghost method Remember(target: Bytes, data: Bytes)
      modifies this`since
      ensures View() == Note(old(View()), target, data)
    {
      since := since[target := Of(since, target) + [data]];
    }

    /** One frame from the socket, given how the world answers. */
    method HandleMessage(data: Bytes, world: World)
      requires Inv(View()) && readLoopAlive
      modifies this
      ensures View() == Step(old(View()), data, world) && Inv(View())
    {
      hide Note, Queueing, FirstContact, KeyOk, ReadString, ReadUint, DocumentName;
      ghost var before := View();
      forall k: Bytes ensures KeyOk(Step(before, data, world), k) {
        StepPreservesKey(before, Frame(data, world), k);
      }
      var decoder := new Decoder(data);
      var rawKey := decoder.ReadVarString();
      if rawKey.Panic? {
        readLoopAlive := false;
        return;
      }
      if rawKey.Err? {
        return;
      }
      var key := rawKey.value;
      var documentName := DocumentName(key);
      if key in documentConnections {
        GiveTo(key, data, world);
      } else if documentName in documentConnections {
        GiveTo(documentName, data, world);
      } else {
        ContactQueues(before, key);
        ContactIsOk(before, key, key);
        QueueFor(key);
        PayloadAtHand(View(), key);
        HandleQueueingMessage(data, key, decoder.pos, world);
      }
    }

    /** The connection handles the frame before the read loop goes on; if it panics, so does the loop. */
    method GiveTo(target: Bytes, data: Bytes, world: World)
      requires target in documentConnections && readLoopAlive
      modifies this`documentConnections, this`since, this`readLoopAlive
      ensures View() == Deliver(old(View()), target, data, world)
    {
      hide Breaks;
      var c := documentConnections[target];
      documentConnections := documentConnections[target := c.(delivered := c.delivered + [data])];
      readLoopAlive := !Breaks(c.document, data, world.handles(0));
      Remember(target, data);
    }

    method QueueFor(key: Bytes)
      modifies this`incomingMessageQueue, this`hookPayloads
      ensures View() == FirstContact(old(View()), key)
    {
      if key !in incomingMessageQueue {
        incomingMessageQueue := incomingMessageQueue[key := []];
        hookPayloads := hookPayloads + {key};
      }
    }

    /** A frame of a key without connection; it is decoded again from behind its address. */
    method HandleQueueingMessage(data: Bytes, rawKey: Bytes, ghost pos: nat, world: World)
      requires ReadString(data, 0) == Field(rawKey, pos) && readLoopAlive
      requires rawKey in incomingMessageQueue && rawKey in hookPayloads && rawKey !in documentConnections
      modifies this
      ensures View() == Queueing(old(View()), rawKey, data, pos, world)
      ensures rawKey in documentConnections ==>
                world.connects && world.authenticates && world.creates && !world.socketClosing
    {
      hide ReadString, ReadUint, Connect, Reset, DocumentName;
      var decoder := new Decoder(data);
      var _ := decoder.ReadVarString();
      var msgType := decoder.ReadVarUint();
      Remember(rawKey, data);
      if !msgType.Ok? {
        return;
      }
      if msgType.value != Frames.AUTH || rawKey in documentConnectionsEstablished {
        incomingMessageQueue := incomingMessageQueue[rawKey := incomingMessageQueue[rawKey] + [data]];
        return;
      }
      documentConnectionsEstablished := documentConnectionsEstablished + {rawKey};
      consumed := consumed[rawKey := |Of(old(since), rawKey)|];
      var reading := ReadAuth(decoder);
      if reading.Malformed? {
        return;
      }
      if reading.Panics? {
        readLoopAlive := false;
        return;
      }
      if rawKey !in hookPayloads {
        return;
      }
      if !world.connects {
        CleanupDocumentState(rawKey);
        return;
      }
      if !world.authenticates {
        CleanupDocumentState(rawKey);
        return;
      }
      SetupNewConnection(rawKey, world);
    }

    /** The sub-type, the token, and if there is more, the version of the provider, malformed or not. */
    static method ReadAuth(decoder: Decoder) returns (reading: Reading)
      modifies decoder
      ensures reading == AuthFields(decoder.data, old(decoder.pos))
    {
      hide ReadString, ReadUint;
      var subType := decoder.ReadVarUint();
      if !subType.Ok? {
        return Malformed;
      }
      var token := decoder.ReadVarString();
      if token.Panic? {
        return Panics;
      }
      if token.Err? {
        return Malformed;
      }
      var more := decoder.HasContent();
      if more {
        var providerVersion := decoder.ReadVarString();
        if providerVersion.Panic? {
          return Panics;
        }
      }
      reading := Fine;
    }

    /** The document may fail to load, and the socket may have been closed in the meantime; otherwise
        the queue is drained into the new connection. */
    method SetupNewConnection(rawKey: Bytes, world: World)
      requires rawKey in incomingMessageQueue && rawKey in hookPayloads && rawKey !in documentConnections
      requires readLoopAlive
      modifies this
      ensures View() == if world.creates then Connect(old(View()), rawKey, world) else Reset(old(View()), {rawKey})
      ensures rawKey in documentConnections ==> world.creates && !world.socketClosing
    {
      hide DocumentName, Reset, DrainBreaks, HandedOver;
      if rawKey !in hookPayloads {
        return;
      }
      if !world.creates {
        CleanupDocumentState(rawKey);
        return;
      }
      var documentName := DocumentName(rawKey);
      documentConnections := documentConnections[rawKey := Conn(documentName, [], [])];
      if world.socketClosing {
        CleanUp(documentConnections.Keys);
        ClosedOnArrival(old(View()), rawKey, Conn(documentName, [], []));
        return;
      }
      Drain(rawKey, world);
    }

    /** Hands the queued frames of a key to its new connection, in order. The queue is taken out of
        the map first, so that a panic in between loses the rest of it. */
    method Drain(rawKey: Bytes, world: World)
      requires rawKey in incomingMessageQueue && rawKey in documentConnections && readLoopAlive
      requires documentConnections[rawKey] == Conn(DocumentName(rawKey), [], [])
      modifies this`incomingMessageQueue, this`documentConnections, this`readLoopAlive
      ensures incomingMessageQueue == old(incomingMessageQueue) - {rawKey}
      ensures documentConnections
              == old(documentConnections)[rawKey := Filled(rawKey, old(incomingMessageQueue)[rawKey], world)]
      ensures readLoopAlive <==> !DrainBreaks(DocumentName(rawKey), old(incomingMessageQueue)[rawKey], world)
    {
      hide DocumentName, Filled, DrainBreaks;
      var queued := incomingMessageQueue[rawKey];
      incomingMessageQueue := incomingMessageQueue - {rawKey};
      var connection := HandOver(rawKey, documentConnections[rawKey], queued, world);
      documentConnections := documentConnections[rawKey := connection];
    }

    method HandOver(ghost rawKey: Bytes, start: Conn, queued: seq<Bytes>, world: World) returns (connection: Conn)
      requires readLoopAlive && start == Conn(DocumentName(rawKey), [], [])
      modifies this`readLoopAlive
      ensures connection == Filled(rawKey, queued, world)
      ensures readLoopAlive <==> !DrainBreaks(DocumentName(rawKey), queued, world)
    {
      hide DocumentName, Breaks, HandedOver, DrainBreaks;
      connection := start;
      var i := 0;
      while i < |queued| && readLoopAlive
        invariant i <= |queued| && connection == start.(delivered := queued[..i])
        invariant readLoopAlive ==>
                    && (forall k :: 0 <= k < i ==> !Breaks(start.document, queued[k], world.handles(k)))
                    && HandedOver(start.document, queued, world, 0) == HandedOver(start.document, queued, world, i)
        invariant !readLoopAlive ==>
                    DrainBreaks(start.document, queued, world) && HandedOver(start.document, queued, world, 0) == i
      {
        DrainTurn(start.document, queued, world, i);
        connection := connection.(delivered := connection.delivered + [queued[i]]);
        assert queued[..i] + [queued[i]] == queued[..i+1];
        readLoopAlive := !Breaks(connection.document, queued[i], world.handles(i));
        i := i + 1;
      }
      DrainDone(start.document, queued, world);
      connection := connection.(dropped := queued[i..]);
    }

    /** Forgets a key that has no connection. */
    method CleanupDocumentState(rawKey: Bytes)
      requires rawKey !in documentConnections
      modifies this
      ensures View() == Reset(old(View()), {rawKey}) && documentConnections == old(documentConnections)
    {
      documentConnectionsEstablished := documentConnectionsEstablished - {rawKey};
      hookPayloads := hookPayloads - {rawKey};
      incomingMessageQueue := incomingMessageQueue - {rawKey};
      Forget({rawKey});
    }

    /** The cleanup after the connections of these keys have been closed. */
    method CleanUp(keys: set<Bytes>)
      modifies this
      ensures View() == Reset(old(View()), keys) && documentConnections == old(documentConnections) - keys
    {
      hookPayloads := hookPayloads - keys;
      documentConnections := documentConnections - keys;
      incomingMessageQueue := incomingMessageQueue - keys;
      documentConnectionsEstablished := documentConnectionsEstablished - keys;
      Forget(keys);
    }

    ghost method Forget(keys: set<Bytes>)
      modifies this`since, this`consumed
      ensures since == old(since) - keys && consumed == old(consumed) - keys
    {
      since, consumed := since - keys, consumed - keys;
    }
  }

  lemma DrainTurn(document: Bytes, fs: seq<Bytes>, w: World, k: nat)
    requires k < |fs|
    ensures Breaks(document, fs[k], w.handles(k)) ==> HandedOver(document, fs, w, k) == k + 1 && DrainBreaks(document, fs, w)
    ensures !Breaks(document, fs[k], w.handles(k)) ==> HandedOver(document, fs, w, k) == HandedOver(document, fs, w, k + 1)
  {
    hide Breaks;
  }

  lemma DrainDone(document: Bytes, fs: seq<Bytes>, w: World)
    ensures HandedOver(document, fs, w, |fs|) == |fs|
    ensures (forall k :: 0 <= k < |fs| ==> !Breaks(document, fs[k], w.handles(k))) ==> !DrainBreaks(document, fs, w)
  {
    hide Breaks;
  }

  lemma ClosedOnArrival(s: State, key: Bytes, c: Conn)
    ensures Reset(s.(conns := s.conns[key := c]), s.conns[key := c].Keys) == Reset(s, s.conns.Keys + {key})
  {
    assert s.conns[key := c].Keys == s.conns.Keys + {key};
  }

  lemma PayloadAtHand(s: State, key: Bytes)
    requires KeyOk(s, key) && key in s.queue
    ensures key in s.payloads
  {
  }
}
