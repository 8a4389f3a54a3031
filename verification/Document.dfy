/** The document's side of the sync protocol in the shape of the program: an object with the yrs
    document, the connection entries and the pending observer tasks. The clients and the channels
    that the entries stand for are the `Conn` records of `SyncModel`. */
module Documents {
  import Encoding
  import opened OpSets
  import opened SyncModel

  class Document {
    var received: Ops
    var conns: map<nat, Conn>
    var tasks: map<nat, Ops>
    var nextTask: nat

    function View(): State
      reads this
    {
      State(received, conns, tasks, nextTask)
    }

    constructor (loaded: Ops)
      ensures View() == Init(loaded)
    {
      received, conns, tasks, nextTask := loaded, map[], map[], 0;
    }

    method AddConnection(c: nat)
      requires Enabled(View(), Register(c))
      modifies this
      ensures View() == Apply(old(View()), Register(c))
    {
      conns := conns[c := conns[c].(registered := true)];
    }

    /** Sends to one connection, if it is registered. */
    method SendToConnection(c: nat, m: Msg)
      modifies this`conns
      ensures conns == if c in old(conns) && old(conns)[c].registered then old(conns)[c := Send(old(conns)[c], m)]
                       else old(conns)
    {
      if c in conns && conns[c].registered {
        conns := conns[c := Send(conns[c], m)];
      }
    }

    /** Merges an update. The observer is called when that integrates anything, and spawns a task
        with an event that holds exactly what was integrated. */
    method ApplyUpdate(update: Ops) returns (event: Ops)
      modifies this
      ensures IsEvent(event, old(received), old(received) + update)
      ensures View() == MergeInto(old(View()), update, event)
    {
      var before := Integrated(received);
      received := received + update;
      event := Integrated(received) - before;
      if Integrated(received) != before {
        tasks := tasks[nextTask := event];
        nextTask := nextTask + 1;
      }
    }

    /** The broadcast of an observer task: a loop over the entries, in whatever order. */
    method HandleUpdate(t: nat)
      requires t in tasks
      modifies this
      ensures View() == Apply(old(View()), Broadcast(t))
    {
      hide Swept, Send;
      var update := tasks[t];
      tasks := tasks - {t};
      var left := conns.Keys;
      SweepStarts(conns, update);
      while left != {}
        invariant left <= conns.Keys && Swept(old(conns), conns, left, update)
        invariant received == old(received) && nextTask == old(nextTask) && tasks == old(tasks) - {t}
        decreases |left|
      {
        var c :| c in left;
        SweepGoesOn(old(conns), conns, left, c, update);
        if conns[c].registered {
          conns := conns[c := Send(conns[c], Update(update))];
        }
        left := left - {c};
      }
      SweepEnds(old(View()), conns, t);
    }

    method EncodeStateVector() returns (vector: Vector)
      ensures forall op: Op :: Below(vector, op) <==> op in Integrated(received)
    {
      vector := VectorOf(received);
      forall op ensures Below(vector, op) <==> op in Integrated(received) { VectorSummarises(received, op); }
    }

    method EncodeStateAsUpdate(vector: Vector) returns (diff: Ops)
      ensures IsDiff(diff, received, vector)
      ensures forall mine: Ops :: vector == VectorOf(mine) ==> Integrated(received) <= Integrated(mine + diff)
    {
      hide VectorOf;
      diff := Beyond(Integrated(received), vector);
      ReceivedBeyond(received, vector);
      forall mine: Ops | vector == VectorOf(mine) ensures Integrated(received) <= Integrated(mine + diff) {
        DiffCatchesUp(diff, received, mine);
      }
    }

    /** The sync branch of the receiver for the next message of connection `c`, up to its first await. */
    method ReadSyncMessage(c: nat) returns (ghost ops: Ops)
      requires Handler(View(), c) && conns[c].job.NoJob? && conns[c].up != []
      modifies this
      ensures Enabled(old(View()), ServerReceive(c, ops)) && View() == Apply(old(View()), ServerReceive(c, ops))
    {
      var m := conns[c].up[0];
      var k := conns[c].(up := conns[c].up[1..]);
      conns := conns[c := k];
      match m
      case Step1(vector, askBack) =>
        var diff := EncodeStateAsUpdate(vector);
        conns := conns[c := k.(job := UnsentStep2(diff, askBack), answered := true)];
        ops := diff;
      case Step2(update) =>
        ops := {};
        if !k.readOnly { ops := ApplyUpdate(update); }
      case Update(update) =>
        ops := {};
        if !k.readOnly { ops := ApplyUpdate(update); }
    }

    /** A hook or the library refuses the next message of connection `c`; the text of the refusal decides
        whether the connection is closed. */
    method RefuseMessage(c: nat, text: Encoding.Bytes, tokenAccepted: bool)
      requires Handler(View(), c) && conns[c].job.NoJob? && conns[c].up != []
      modifies this
      ensures View() == Apply(old(View()), Refuse(c, text, tokenAccepted))
    {
      hide StaysOpen;
      var m := conns[c].up[0];
      var k := conns[c].(up := conns[c].up[1..]);
      if !StaysOpen(text, tokenAccepted) {
        k := k.(open := false);
      }
      if k.open && m.Step1? {
        k := k.(unheard := true);
      } else if k.open {
        k := k.(lost := k.lost + m.update);
      }
      conns := conns[c := k];
    }

    /** The sends that follow the answer to a SyncStep1. */
    method SendAnswer(c: nat)
      requires Enabled(View(), FlushStep2(c))
      modifies this
      ensures View() == Apply(old(View()), FlushStep2(c))
    {
      var job := conns[c].job;
      SendToConnection(c, Step2(job.update));
      conns := conns[c := conns[c].(job := if job.askBack then WantVector else NoJob)];
    }

    method EncodeOwnVector(c: nat)
      requires Enabled(View(), EncodeVector(c))
      modifies this
      ensures View() == Apply(old(View()), EncodeVector(c))
      ensures conns[c].job.UnsentVector?
      ensures forall op: Op :: Below(conns[c].job.vector, op) <==> op in Integrated(received)
    {
      conns := conns[c := conns[c].(job := UnsentVector(VectorOf(received)))];
      forall op: Op ensures Below(VectorOf(received), op) <==> op in Integrated(received) { VectorSummarises(received, op); }
    }

    method SendOwnVector(c: nat)
      requires Enabled(View(), FlushVector(c))
      modifies this
      ensures View() == Apply(old(View()), FlushVector(c))
    {
      SendToConnection(c, Step1(conns[c].job.vector, true));
      conns := conns[c := conns[c].(job := NoJob)];
    }
  }

  lemma ReceivedBeyond(r: Ops, v: Vector)
    ensures Beyond(Integrated(r), v) <= Beyond(r, v)
  {
  }

  /** All registered connections have been sent the update, except those that are left. */
  ghost predicate Swept(before: map<nat, Conn>, conns: map<nat, Conn>, left: set<nat>, update: Ops) {
    && conns.Keys == before.Keys
    && forall c :: c in conns ==>
         conns[c] == if c in left || !before[c].registered then before[c] else Send(before[c], Update(update))
  }

  lemma SweepStarts(conns: map<nat, Conn>, update: Ops)
    ensures Swept(conns, conns, conns.Keys, update)
  {
  }

  lemma SweepGoesOn(before: map<nat, Conn>, conns: map<nat, Conn>, left: set<nat>, c: nat, update: Ops)
    requires Swept(before, conns, left, update) && c in left && c in conns
    ensures Swept(before, if conns[c].registered then conns[c := Send(conns[c], Update(update))] else conns,
                  left - {c}, update)
    ensures left <= conns.Keys ==> left - {c} <= conns[c := Send(conns[c], Update(update))].Keys
  {
    hide Send;
  }

  lemma SweepEnds(s: State, conns: map<nat, Conn>, t: nat)
    requires t in s.tasks && Swept(s.conns, conns, {}, s.tasks[t])
    ensures conns == DoBroadcast(s, t).conns
  {
    hide Send;
  }
}
