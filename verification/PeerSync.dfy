/** Two peers that both run the receiver on its reply path, where a Sync message with a state vector
    is answered by a diff and by a SyncReply with one's own vector, and a SyncReply only by a diff.

    One opening SyncStep1 leads to at most three more messages, delivered in any order, and leaves
    both documents with what either had. */
module PeerSync {
  import opened OpSets

  datatype Peer = A | B

  function Other(p: Peer): Peer {
    if p == A then B else A
  }

  datatype Msg = SyncStep1(vector: Vector) | ReplyStep1(vector: Vector) | Step2(update: Ops)

  datatype Envelope = Envelope(to: Peer, msg: Msg)

  datatype State = State(a: Ops, b: Ops, net: seq<Envelope>)

  function DocOf(s: State, p: Peer): Ops {
    if p == A then s.a else s.b
  }

  /** Peer A opens the exchange. */
  function Opening(a: Ops, b: Ops): State {
    State(a, b, [Envelope(B, SyncStep1(VectorOf(a)))])
  }

  function Without(net: seq<Envelope>, i: nat): seq<Envelope>
    requires i < |net|
  {
    net[..i] + net[i+1..]
  }

  /** The `i`-th message in flight can be delivered, answered with `diff` if it asks for one. */
  predicate Enabled(s: State, i: nat, diff: Ops) {
    i < |s.net| && (!s.net[i].msg.Step2? ==> IsDiff(diff, DocOf(s, s.net[i].to), s.net[i].msg.vector))
  }

  function Deliver(s: State, i: nat, diff: Ops): State
    requires Enabled(s, i, diff)
  {
    var p, rest := s.net[i].to, Without(s.net, i);
    match s.net[i].msg
    case SyncStep1(_) =>
      s.(net := rest + [Envelope(Other(p), Step2(diff)), Envelope(Other(p), ReplyStep1(VectorOf(DocOf(s, p))))])
    case ReplyStep1(_) => s.(net := rest + [Envelope(Other(p), Step2(diff))])
    case Step2(u) => if p == A then s.(a := s.a + u, net := rest) else s.(b := s.b + u, net := rest)
  }

  datatype Delivery = Delivery(i: nat, diff: Ops)

  /** Every delivery of the run is enabled in turn. */
  ghost predicate IsRun(s: State, run: seq<Delivery>)
    decreases |run|
  {
    run != [] ==> Enabled(s, run[0].i, run[0].diff) && IsRun(Deliver(s, run[0].i, run[0].diff), run[1..])
  }

  ghost function Exec(s: State, run: seq<Delivery>): State
    requires IsRun(s, run)
    decreases |run|
  {
    if run == [] then s else Exec(Deliver(s, run[0].i, run[0].diff), run[1..])
  }

  // ---------------------------------------------------------------- it ends

  function Weight(net: seq<Envelope>): nat {
    if net == [] then 0
    else (match net[0].msg case SyncStep1(_) => 4 case ReplyStep1(_) => 2 case Step2(_) => 1) + Weight(net[1..])
  }

  lemma {:induction false} WeightOfConcat(x: seq<Envelope>, y: seq<Envelope>)
    ensures Weight(x + y) == Weight(x) + Weight(y)
  {
    if x == [] {
      assert x + y == y;
    } else {
      assert (x + y)[1..] == x[1..] + y;
      WeightOfConcat(x[1..], y);
    }
  }

  lemma DeliveryLosesWeight(s: State, i: nat, diff: Ops)
    requires Enabled(s, i, diff)
    ensures Weight(Deliver(s, i, diff).net) < Weight(s.net)
  {
    hide IsDiff, VectorOf;
    var s' := Deliver(s, i, diff);
    var rest := Without(s.net, i);
    assert s.net == s.net[..i] + ([s.net[i]] + s.net[i+1..]);
    WeightOfConcat(s.net[..i], [s.net[i]] + s.net[i+1..]);
    WeightOfConcat([s.net[i]], s.net[i+1..]);
    WeightOfConcat(s.net[..i], s.net[i+1..]);
    WeightOfConcat(rest, s'.net[|rest|..]);
    assert s'.net == rest + s'.net[|rest|..];
    if s.net[i].msg.SyncStep1? {
      WeightOfConcat([s'.net[|rest|]], [s'.net[|rest| + 1]]);
      assert s'.net[|rest|..] == [s'.net[|rest|]] + [s'.net[|rest| + 1]];
    }
  }

  lemma {:induction false} RunIsBounded(s: State, run: seq<Delivery>)
    requires IsRun(s, run)
    ensures |run| + Weight(Exec(s, run).net) <= Weight(s.net)
    decreases |run|
  {
    if run != [] {
      hide Enabled, Deliver;
      DeliveryLosesWeight(s, run[0].i, run[0].diff);
      RunIsBounded(Deliver(s, run[0].i, run[0].diff), run[1..]);
    }
  }

  /** The exchange takes at most four deliveries. */
  lemma {:induction false} ExchangeEnds(a: Ops, b: Ops, run: seq<Delivery>)
    requires IsRun(Opening(a, b), run)
    ensures |run| <= 4
  {
    RunIsBounded(Opening(a, b), run);
  }

  /** It never gets stuck: whatever is in flight, any message of it can be delivered. */
  lemma ExchangeGoesOn(s: State, i: nat)
    requires i < |s.net|
    ensures exists diff :: Enabled(s, i, diff)
  {
    hide Integrated, Below;
    var diff := if s.net[i].msg.Step2? then {} else Beyond(Integrated(DocOf(s, s.net[i].to)), s.net[i].msg.vector);
    assert Integrated(DocOf(s, s.net[i].to)) <= DocOf(s, s.net[i].to) by { IntegratedIsHeld(DocOf(s, s.net[i].to)); }
    assert Enabled(s, i, diff);
  }

  lemma IntegratedIsHeld(r: Ops)
    ensures Integrated(r) <= r
  {
  }

  // ---------------------------------------------------------------- and converges

  ghost predicate Sound(m: Msg, all: Ops) {
    m.Step2? ==> m.update <= all
  }

  /** This message will bring `op` to peer `p`: it holds it, or it makes the other peer send it. */
  ghost predicate Brings(s: State, e: Envelope, p: Peer, op: Op) {
    || (e.to == p && e.msg.Step2? && op in e.msg.update)
    || (e.to == Other(p) && !e.msg.Step2? && Under(e.msg.vector, DocOf(s, p)))
    || (e.to == p && e.msg.SyncStep1?)
  }

  ghost predicate Arrives(s: State, p: Peer, op: Op) {
    op in DocOf(s, p) || exists e :: e in s.net && Brings(s, e, p, op)
  }

  ghost predicate Inv(s: State, a: Ops, b: Ops) {
    && a <= s.a <= a + b && b <= s.b <= a + b
    && (forall e :: e in s.net ==> Sound(e.msg, a + b))
    && (forall op :: op in Integrated(b) ==> Arrives(s, A, op))
    && (forall op :: op in Integrated(a) ==> Arrives(s, B, op))
  }

  lemma OpeningInv(a: Ops, b: Ops)
    ensures Inv(Opening(a, b), a, b)
  {
    hide VectorOf;
    var s := Opening(a, b);
    forall op ensures Below(VectorOf(a), op) ==> op in a { VectorSummarises(a, op); }
    assert s.net[0] in s.net;
    assert forall op :: Brings(s, s.net[0], A, op) && Brings(s, s.net[0], B, op);
  }

  lemma InWithout(net: seq<Envelope>, i: nat, e: Envelope)
    requires i < |net| && e in net && e != net[i]
    ensures e in Without(net, i)
  {
    var j :| 0 <= j < |net| && net[j] == e;
    if j < i { assert net[..i][j] == e; } else { assert net[i+1..][j - i - 1] == e; }
  }

  /** What another message brings, it still brings. */
  lemma StillBrings(s: State, i: nat, diff: Ops, e: Envelope, p: Peer, op: Op)
    requires Enabled(s, i, diff) && e in s.net && e != s.net[i] && Brings(s, e, p, op)
    ensures Arrives(Deliver(s, i, diff), p, op)
  {
    hide IsDiff, VectorOf;
    InWithout(s.net, i, e);
    assert e in Deliver(s, i, diff).net && Brings(Deliver(s, i, diff), e, p, op);
  }

  /** What the delivered message brings has arrived, or one of the answers brings it. */
  lemma AnswerBrings(s: State, i: nat, diff: Ops, p: Peer, op: Op)
    requires Enabled(s, i, diff) && Brings(s, s.net[i], p, op)
    requires op in Integrated(DocOf(s, Other(p)))
    ensures Arrives(Deliver(s, i, diff), p, op)
  {
    hide Integrated, VectorOf;
    var s', e := Deliver(s, i, diff), s.net[i];
    if e.to == Other(p) && !e.msg.Step2? {
      if op !in DocOf(s, p) {
        var answer := Envelope(p, Step2(diff));
        assert answer == s'.net[|Without(s.net, i)|];
        assert Brings(s', answer, p, op);
      }
    } else if e.msg.SyncStep1? {
      var question := Envelope(Other(p), ReplyStep1(VectorOf(DocOf(s, p))));
      assert question == s'.net[|Without(s.net, i)| + 1];
      forall o ensures Below(VectorOf(DocOf(s, p)), o) ==> o in DocOf(s', p) { VectorInDoc(DocOf(s, p), o); }
      assert Brings(s', question, p, op);
    }
  }

  lemma VectorInDoc(r: Ops, op: Op)
    ensures Below(VectorOf(r), op) ==> op in r
  {
    VectorSummarises(r, op);
  }

  lemma DeliveryKeepsArrival(s: State, i: nat, diff: Ops, p: Peer, op: Op)
    requires Enabled(s, i, diff) && Arrives(s, p, op) && op in Integrated(DocOf(s, Other(p)))
    ensures Arrives(Deliver(s, i, diff), p, op)
  {
    hide IsDiff, VectorOf, Integrated, Brings;
    if op !in DocOf(s, p) {
      var e :| e in s.net && Brings(s, e, p, op);
      if e == s.net[i] {
        AnswerBrings(s, i, diff, p, op);
      } else {
        StillBrings(s, i, diff, e, p, op);
      }
    }
  }

  lemma DeliveryIsSound(s: State, i: nat, diff: Ops, a: Ops, b: Ops)
    requires Inv(s, a, b) && Enabled(s, i, diff)
    ensures var s' := Deliver(s, i, diff);
            && a <= s'.a <= a + b && b <= s'.b <= a + b && forall e :: e in s'.net ==> Sound(e.msg, a + b)
  {
    hide VectorOf, Integrated, Arrives;
    assert Sound(s.net[i].msg, a + b);
    assert forall e :: e in Without(s.net, i) ==> e in s.net;
  }

  lemma DeliveryKeepsInv(s: State, i: nat, diff: Ops, a: Ops, b: Ops)
    requires Inv(s, a, b) && Enabled(s, i, diff)
    ensures Inv(Deliver(s, i, diff), a, b)
  {
    hide Enabled, Deliver, Integrated, Arrives;
    DeliveryIsSound(s, i, diff, a, b);
    IntegratedGrows(a, s.a);
    IntegratedGrows(b, s.b);
    forall op | op in Integrated(b) ensures Arrives(Deliver(s, i, diff), A, op) {
      DeliveryKeepsArrival(s, i, diff, A, op);
    }
    forall op | op in Integrated(a) ensures Arrives(Deliver(s, i, diff), B, op) {
      DeliveryKeepsArrival(s, i, diff, B, op);
    }
  }

  lemma {:induction false} InvAlways(s: State, run: seq<Delivery>, a: Ops, b: Ops)
    requires IsRun(s, run) && Inv(s, a, b)
    ensures Inv(Exec(s, run), a, b)
    decreases |run|
  {
    if run != [] {
      hide Inv, Enabled, Deliver;
      DeliveryKeepsInv(s, run[0].i, run[0].diff, a, b);
      InvAlways(Deliver(s, run[0].i, run[0].diff), run[1..], a, b);
    }
  }

  /** When nothing is in flight any more, each peer holds whatever either had integrated, and nothing
      that neither had; with nothing pending at the start, both documents are the join of the two, and
      nothing is pending. */
  lemma ExchangeConverges(a: Ops, b: Ops, run: seq<Delivery>)
    requires IsRun(Opening(a, b), run) && Exec(Opening(a, b), run).net == []
    ensures var s := Exec(Opening(a, b), run);
            && Integrated(a) + Integrated(b) <= s.a <= a + b
            && Integrated(a) + Integrated(b) <= s.b <= a + b
            && (Integrated(a) == a && Integrated(b) == b ==> s.a == s.b == a + b == Integrated(a + b))
  {
    var s := Exec(Opening(a, b), run);
    OpeningInv(a, b);
    InvAlways(Opening(a, b), run, a, b);
    hide Opening, IsRun, Exec, Brings;
    assert Integrated(a) <= a && Integrated(b) <= b;
    forall op | op in Integrated(b) ensures op in s.a { assert Arrives(s, A, op); }
    forall op | op in Integrated(a) ensures op in s.b { assert Arrives(s, B, op); }
    if Integrated(a) == a && Integrated(b) == b {
      UnionOfIntegrated(a, b);
    }
  }

  // ---------------------------------------------------------------- and repeats nothing

  /** What peer `p` had integrated before the exchange. */
  function KnownTo(p: Peer, a: Ops, b: Ops): Ops {
    Integrated(if p == A then a else b)
  }

  /** A question counts all that its peer had integrated, and an answer carries none of it. */
  ghost predicate Fresh(e: Envelope, a: Ops, b: Ops) {
    match e.msg
    case Step2(u) => forall op :: op in u ==> op !in KnownTo(e.to, a, b)
    case SyncStep1(v) => forall op :: op in KnownTo(Other(e.to), a, b) ==> Below(v, op)
    case ReplyStep1(v) => forall op :: op in KnownTo(Other(e.to), a, b) ==> Below(v, op)
  }

  ghost predicate NewsOnly(s: State, a: Ops, b: Ops) {
    a <= s.a && b <= s.b && forall e :: e in s.net ==> Fresh(e, a, b)
  }

  lemma QuestionIsFresh(r: Ops, p: Peer, a: Ops, b: Ops)
    requires (if p == A then a else b) <= r
    ensures Fresh(Envelope(Other(p), SyncStep1(VectorOf(r))), a, b)
    ensures Fresh(Envelope(Other(p), ReplyStep1(VectorOf(r))), a, b)
  {
    hide VectorOf, Below, Integrated;
    IntegratedGrows(if p == A then a else b, r);
    forall op | op in KnownTo(p, a, b) ensures Below(VectorOf(r), op) { VectorSummarises(r, op); }
  }

  lemma AnswerIsFresh(e: Envelope, diff: Ops, r: Ops, a: Ops, b: Ops)
    requires Fresh(e, a, b) && !e.msg.Step2? && IsDiff(diff, r, e.msg.vector)
    ensures Fresh(Envelope(Other(e.to), Step2(diff)), a, b)
  {
    hide Integrated, Below;
  }

  lemma DeliveryKeepsNews(s: State, i: nat, diff: Ops, a: Ops, b: Ops)
    requires NewsOnly(s, a, b) && Enabled(s, i, diff)
    ensures NewsOnly(Deliver(s, i, diff), a, b)
  {
    hide Fresh, VectorOf, IsDiff;
    var e, p := s.net[i], s.net[i].to;
    if !e.msg.Step2? {
      AnswerIsFresh(e, diff, DocOf(s, p), a, b);
      QuestionIsFresh(DocOf(s, p), p, a, b);
    }
    assert forall o :: o in Without(s.net, i) ==> o in s.net;
  }

  lemma {:induction false} NewsAlways(s: State, run: seq<Delivery>, a: Ops, b: Ops)
    requires IsRun(s, run) && NewsOnly(s, a, b)
    ensures NewsOnly(Exec(s, run), a, b)
    decreases |run|
  {
    if run != [] {
      hide NewsOnly, Enabled, Deliver;
      DeliveryKeepsNews(s, run[0].i, run[0].diff, a, b);
      NewsAlways(Deliver(s, run[0].i, run[0].diff), run[1..], a, b);
    }
  }

  /** No answer of the exchange carries an operation that its receiver had integrated before. */
  lemma NothingIsRepeated(a: Ops, b: Ops, run: seq<Delivery>, e: Envelope)
    requires IsRun(Opening(a, b), run) && e in Exec(Opening(a, b), run).net && e.msg.Step2?
    ensures e.msg.update * Integrated(if e.to == A then a else b) == {}
  {
    hide IsRun, Exec, VectorOf;
    QuestionIsFresh(a, A, a, b);
    NewsAlways(Opening(a, b), run, a, b);
    assert Fresh(e, a, b);
  }

  /** The SyncReply of a peer tells exactly what it has integrated, and nothing is asked for in return. */
  lemma ReplyIsExact(s: State, i: nat, diff: Ops, op: Op)
    requires Enabled(s, i, diff) && s.net[i].msg.SyncStep1?
    ensures var net', p := Deliver(s, i, diff).net, s.net[i].to;
            && |net'| == |s.net| + 1 && net'[|s.net| - 1] == Envelope(Other(p), Step2(diff))
            && net'[|s.net|].to == Other(p) && net'[|s.net|].msg.ReplyStep1?
            && (Below(net'[|s.net|].msg.vector, op) <==> op in Integrated(DocOf(s, p)))
  {
    hide VectorOf, Integrated, IsDiff, Below;
    VectorSummarises(DocOf(s, s.net[i].to), op);
  }
}
