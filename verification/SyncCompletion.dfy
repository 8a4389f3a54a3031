/** The sync protocol gets somewhere: whenever no broadcast is pending, a client that connects with
    any replica can be brought to rest by the steps of its own connection and one broadcast. */
module SyncCompletion {
  import opened OpSets
  import opened SyncModel

  /** The connection of the client, in the phases of the exchange. */
  function Opened(readOnly: bool, replica: Ops): Conn {
    Conn(readOnly, true, true, false, false, false, replica, [], [], NoJob, {}, false)
  }

  function Asking(k: Conn): Conn {
    k.(asked := true, up := [Step1(VectorOf(k.client), true)])
  }

  function Answering(k: Conn, d: Ops): Conn {
    k.(asked := true, answered := true, job := UnsentStep2(d, true))
  }

  function Asked(k: Conn, d: Ops, v: Vector): Conn {
    k.(asked := true, answered := true, down := [Step2(d), Step1(v, true)])
  }

  function Replied(k: Conn, d: Ops, reply: Ops): Conn {
    k.(asked := true, answered := true, replied := true, client := k.client + d, up := [Step2(reply)])
  }

  function Done(k: Conn, d: Ops): Conn {
    k.(asked := true, answered := true, replied := true, client := k.client + d)
  }

  ghost predicate Does(s: State, a: Action, s': State) {
    Enabled(s, a) && Apply(s, a) == s'
  }

  lemma Then(s: State, run: seq<Action>, a: Action, s': State)
    requires Does(Exec(s, run), a, s')
    ensures Exec(s, run + [a]) == s'
  {
    hide Enabled, Apply;
    assert (run + [a])[..|run|] == run;
  }

  lemma Connects(s: State, c: nat, readOnly: bool, replica: Ops)
    requires Enabled(s, Open(c, readOnly, replica))
    ensures Exec(s, [] + [Open(c, readOnly, replica)] + [Register(c)] + [SendStep1(c, true)])
         == Put(s, c, Asking(Opened(readOnly, replica)))
  {
    hide VectorOf, Integrated, Exec;
    var s1 := Put(s, c, Opened(readOnly, replica).(registered := false));
    NoSteps(s);
    Then(s, [], Open(c, readOnly, replica), s1);
    Then(s, [] + [Open(c, readOnly, replica)], Register(c), Put(s, c, Opened(readOnly, replica)));
    assert [] + [Step1(VectorOf(replica), true)] == [Step1(VectorOf(replica), true)];
    Then(s, [] + [Open(c, readOnly, replica)] + [Register(c)], SendStep1(c, true),
         Put(s, c, Asking(Opened(readOnly, replica))));
  }

  lemma NoSteps(s: State)
    ensures Exec(s, []) == s
  {
  }

  lemma IsAnswered(s: State, c: nat, k: Conn, d: Ops)
    requires k.registered && k.open && k.job.NoJob? && k.up == [] && k.down == []
    requires IsDiff(d, s.received, VectorOf(k.client))
    ensures Does(Put(s, c, Asking(k)), ServerReceive(c, d), Put(s, c, Answering(k, d)))
  {
    hide VectorOf, Integrated, IsDiff;
    assert [Step1(VectorOf(k.client), true)][1..] == [];
  }

  lemma AnswerGoesOut(s: State, c: nat, k: Conn, d: Ops)
    requires k.registered && k.open && k.job.NoJob? && k.up == [] && k.down == []
    ensures var s1, s2 := Put(s, c, Answering(k, d)), Put(s, c, Answering(k, d).(down := [Step2(d)], job := WantVector));
            Does(s1, FlushStep2(c), s2)
  {
    assert [] + [Step2(d)] == [Step2(d)];
  }

  lemma IsAsked(s: State, c: nat, k: Conn, d: Ops)
    requires k.registered && k.open && k.job.NoJob? && k.up == [] && k.down == []
    ensures var v := VectorOf(s.received); var k2 := Answering(k, d).(down := [Step2(d)], job := WantVector);
            && Does(Put(s, c, k2), EncodeVector(c), Put(s, c, k2.(job := UnsentVector(v))))
            && Does(Put(s, c, k2.(job := UnsentVector(v))), FlushVector(c), Put(s, c, Asked(k, d, v)))
  {
    hide VectorOf, Integrated, IsDiff;
    var v := VectorOf(s.received);
    assert [Step2(d)] + [Step1(v, true)] == [Step2(d), Step1(v, true)];
  }

  lemma Replies(s: State, c: nat, k: Conn, d: Ops, v: Vector, reply: Ops)
    requires k.registered && k.open && k.job.NoJob? && k.up == [] && k.down == []
    requires IsDiff(reply, k.client + d, v)
    ensures var k1 := Asked(k, d, v); var k2 := k1.(client := k.client + d, down := [Step1(v, true)]);
            && Does(Put(s, c, k1), ClientReceive(c, {}), Put(s, c, k2))
            && Does(Put(s, c, k2), ClientReceive(c, reply), Put(s, c, Replied(k, d, reply)))
  {
    hide VectorOf, Integrated, IsDiff;
    assert [Step2(d), Step1(v, true)][1..] == [Step1(v, true)];
    assert [Step1(v, true)][1..] == [] && [] + [Step2(reply)] == [Step2(reply)];
  }

  /** What the reply integrates is broadcast, to the client itself as well. */
  lemma IsMerged(s: State, c: nat, k: Conn, event: Ops) returns (run: seq<Action>)
    requires s.tasks == map[] && c in s.conns && s.conns[c] == k
    requires k.open && k.registered && k.asked && k.job.NoJob? && k.down == [] && |k.up| == 1 && k.up[0].Step2?
    requires IsEvent(event, s.received, s.received + k.up[0].update)
    ensures Quiet(Exec(s, run), c) && NothingElse(run)
  {
    hide Integrated, IsEvent, Exec;
    var s1 := Apply(s, ServerReceive(c, event));
    AfterMerge(s, c, k, event);
    NoSteps(s);
    run := Goes(s, [], ServerReceive(c, event), s1);
    if s1.tasks != map[] {
      BroadcastArrives(s1, c, s.next, event);
      var s2 := Apply(s1, Broadcast(s.next));
      run := Goes(s, run, Broadcast(s.next), s2);
      run := Goes(s, run, ClientReceive(c, {}), Apply(s2, ClientReceive(c, {})));
    }
  }

  lemma AfterMerge(s: State, c: nat, k: Conn, event: Ops)
    requires s.tasks == map[] && c in s.conns && s.conns[c] == k
    requires k.open && k.registered && k.asked && k.job.NoJob? && k.down == [] && |k.up| == 1 && k.up[0].Step2?
    requires IsEvent(event, s.received, s.received + k.up[0].update)
    ensures Enabled(s, ServerReceive(c, event))
    ensures var s1 := Apply(s, ServerReceive(c, event));
            c in s1.conns && s1.conns[c] == k.(up := []) && (s1.tasks == map[] || s1.tasks == map[s.next := event])
  {
    hide Integrated, IsEvent;
    assert k.up[1..] == [];
  }

  lemma BroadcastArrives(s: State, c: nat, t: nat, event: Ops)
    requires s.tasks == map[t := event] && c in s.conns
    requires var k := s.conns[c]; k.open && k.registered && k.asked && k.job.NoJob? && k.down == [] && k.up == []
    ensures Enabled(s, Broadcast(t)) && var s1 := Apply(s, Broadcast(t));
            Enabled(s1, ClientReceive(c, {})) && Quiet(Apply(s1, ClientReceive(c, {})), c)
  {
    assert [] + [Update(event)] == [Update(event)];
    assert [Update(event)][1..] == [];
  }

  /** Whenever no broadcast is pending, a new client can be synced: a run in which nobody edits and
      nothing is refused brings it to rest, and then, by `QuietMeansConverged`, they agree. */
  lemma SyncCompletes(s: State, c: nat, readOnly: bool, replica: Ops) returns (run: seq<Action>)
    requires s.tasks == map[] && Enabled(s, Open(c, readOnly, replica))
    ensures Quiet(Exec(s, run), c) && NothingElse(run)
  {
    hide VectorOf, Integrated, Exec, Enabled, Apply, IsDiff, IsEvent, Quiet, Does;
    var k, v := Opened(readOnly, replica), VectorOf(s.received);
    Connects(s, c, readOnly, replica);
    run := [] + [Open(c, readOnly, replica)] + [Register(c)] + [SendStep1(c, true)];
    var d := ADiff(s.received, VectorOf(replica));
    IsAnswered(s, c, k, d);
    AnswerGoesOut(s, c, k, d);
    run := Goes(s, run, ServerReceive(c, d), Put(s, c, Answering(k, d)));
    run := Goes(s, run, FlushStep2(c), Put(s, c, Answering(k, d).(down := [Step2(d)], job := WantVector)));
    IsAsked(s, c, k, d);
    run := Goes(s, run, EncodeVector(c), Put(s, c, Answering(k, d).(down := [Step2(d)], job := UnsentVector(v))));
    run := Goes(s, run, FlushVector(c), Put(s, c, Asked(k, d, v)));
    var reply := ADiff(replica + d, v);
    Replies(s, c, k, d, v, reply);
    run := Goes(s, run, ClientReceive(c, {}), Put(s, c, Asked(k, d, v).(client := replica + d, down := [Step1(v, true)])));
    run := Goes(s, run, ClientReceive(c, reply), Put(s, c, Replied(k, d, reply)));
    var event := AnEvent(s.received, s.received + reply);
    var rest := IsMerged(Put(s, c, Replied(k, d, reply)), c, Replied(k, d, reply), event);
    ExecConcat(s, run, rest);
    run := run + rest;
  }

  /** Nobody edits, nothing is refused and no connection is closed. */
  predicate NothingElse(run: seq<Action>) {
    forall a :: a in run ==> !a.Edit? && !a.DirectEdit? && !a.Refuse? && !a.Close?
  }

  lemma Goes(s: State, run: seq<Action>, a: Action, s': State) returns (run': seq<Action>)
    requires Does(Exec(s, run), a, s') && NothingElse(run) && NothingElse([a])
    ensures run' == run + [a] && Exec(s, run') == s' && NothingElse(run')
  {
    Then(s, run, a, s');
    run' := run + [a];
  }

  lemma {:induction false} ExecConcat(s: State, run: seq<Action>, rest: seq<Action>)
    ensures Exec(s, run + rest) == Exec(Exec(s, run), rest)
    decreases |rest|
  {
    hide Enabled, Apply;
    if rest == [] {
      assert run + rest == run;
    } else {
      assert (run + rest)[..|run + rest|-1] == run + rest[..|rest|-1];
      ExecConcat(s, run, rest[..|rest|-1]);
    }
  }

  lemma ADiff(r: Ops, v: Vector) returns (d: Ops)
    ensures IsDiff(d, r, v)
  {
    hide Below;
    d := Beyond(r, v);
    assert Integrated(r) <= r;
  }

  lemma AnEvent(before: Ops, after: Ops) returns (event: Ops)
    ensures IsEvent(event, before, after)
  {
    event := after;
    assert Integrated(after) <= after;
  }
}
