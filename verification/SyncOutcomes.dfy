/** What the single steps of the sync protocol bring about, told by what is in the channels and in the
    document: answers and questions are exact, refusals change nothing, and broadcasts reach whom they
    should once. */
module SyncOutcomes {
  import opened OpSets
  import opened SyncModel
  import Encoding
  import Frames
  import Receiver = MessageReceivers

  /** The vector counts exactly the integrated operations. */
  ghost predicate Exact(v: Vector, r: Ops) {
    forall op: Op :: Below(v, op) <==> op in Integrated(r)
  }

  lemma VectorIsExact(r: Ops)
    ensures Exact(VectorOf(r), r)
  {
    hide VectorOf, Integrated, Below;
    forall op: Op ensures Below(VectorOf(r), op) <==> op in Integrated(r) { VectorSummarises(r, op); }
  }

  // ---------------------------------------------------------------- questions and answers

  /** A client asks with the exact vector of what it holds. */
  lemma ClientAsks(s: State, c: nat, askBack: bool)
    requires Enabled(s, SendStep1(c, askBack))
    ensures var k, k' := s.conns[c], Apply(s, SendStep1(c, askBack)).conns[c];
            && |k'.up| == |k.up| + 1 && k'.up[..|k.up|] == k.up
            && k'.up[|k.up|].Step1? && k'.up[|k.up|].askBack == askBack && Exact(k'.up[|k.up|].vector, k.client)
  {
    hide Integrated, VectorOf, Exact;
    VectorIsExact(s.conns[c].client);
  }

  /** The answer holds all that is integrated beyond the vector, and nothing that the vector counts;
      the document stays as it is. */
  lemma AnswerIsNews(s: State, c: nat, d: Ops)
    requires Enabled(s, ServerReceive(c, d)) && s.conns[c].up[0].Step1?
    ensures var s', m := Apply(s, ServerReceive(c, d)), s.conns[c].up[0];
            && s'.received == s.received && s'.tasks == s.tasks
            && s'.conns[c].job == UnsentStep2(d, m.askBack) && s'.conns[c].up == s.conns[c].up[1..]
            && (forall op :: op in d ==> op in s.received && !Below(m.vector, op))
            && (forall op :: op in Integrated(s.received) ==> Below(m.vector, op) || op in d)
  {
    hide Integrated, VectorOf;
  }

  /** The answer is sent; the server asks in turn exactly if it was asked to. */
  lemma AnswerIsSent(s: State, c: nat)
    requires Enabled(s, FlushStep2(c))
    ensures var k, k' := s.conns[c], Apply(s, FlushStep2(c)).conns[c];
            && (k.open ==> k'.down == k.down + [Step2(k.job.update)])
            && (k'.job.WantVector? <==> k.job.askBack) && (k'.job.NoJob? <==> !k.job.askBack)
  {
  }

  /** The server takes the exact vector of the document at that time, not an older or an emptier one. */
  lemma ServerVectorIsExact(s: State, c: nat)
    requires Enabled(s, EncodeVector(c))
    ensures var s' := Apply(s, EncodeVector(c));
            s'.conns[c].job.UnsentVector? && Exact(s'.conns[c].job.vector, s.received) && s'.received == s.received
  {
    hide Integrated, VectorOf, Exact;
    VectorIsExact(s.received);
  }

  lemma ServerAsks(s: State, c: nat)
    requires Enabled(s, FlushVector(c))
    ensures var k, k' := s.conns[c], Apply(s, FlushVector(c)).conns[c];
            && (k.open ==> k'.down == k.down + [Step1(k.job.vector, true)]) && k'.job == NoJob
  {
  }

  /** It is exact for the document as it was at some point of the run. */
  ghost predicate ExactOnce(loaded: Ops, run: seq<Action>, v: Vector) {
    exists n :: 0 <= n <= |run| && Exact(v, Exec(Init(loaded), run[..n]).received)
  }

  ghost predicate QuestionsExact(loaded: Ops, run: seq<Action>, k: Conn) {
    && (k.job.UnsentVector? ==> ExactOnce(loaded, run, k.job.vector))
    && (forall i :: 0 <= i < |k.down| && k.down[i].Step1? ==>
          k.down[i].askBack && ExactOnce(loaded, run, k.down[i].vector))
  }

  /** Every vector on its way to a client counts exactly what the document had integrated when it was taken. */
  lemma {:induction false} QuestionsAlwaysExact(loaded: Ops, run: seq<Action>, c: nat)
    requires c in Exec(Init(loaded), run).conns
    ensures QuestionsExact(loaded, run, Exec(Init(loaded), run).conns[c])
    decreases |run|
  {
    hide Enabled, Apply, QuestionsExact, Exact;
    if run != [] {
      var before := run[..|run|-1];
      var s, a := Exec(Init(loaded), before), run[|run|-1];
      if c in s.conns {
        QuestionsAlwaysExact(loaded, before, c);
        ExactLater(loaded, run, s.conns[c]);
      }
      if Enabled(s, a) {
        if a == EncodeVector(c) {
          ServerVectorIsExact(s, c);
          assert run[..|run|-1] == before;
          EncodeVectorKeepsConns(s, c);
          TakenNow(loaded, run, s, Apply(s, a), c);
        } else {
          QuestionsStay(loaded, run, s, a, c);
        }
      }
    }
  }

  lemma ExactLater(loaded: Ops, run: seq<Action>, k: Conn)
    requires run != [] && QuestionsExact(loaded, run[..|run|-1], k)
    ensures QuestionsExact(loaded, run, k)
  {
    hide Exec, Exact;
    forall v | ExactOnce(loaded, run[..|run|-1], v) ensures ExactOnce(loaded, run, v) {
      var n :| 0 <= n <= |run| - 1 && Exact(v, Exec(Init(loaded), run[..|run|-1][..n]).received);
      assert run[..|run|-1][..n] == run[..n];
    }
  }

  lemma TakenNow(loaded: Ops, run: seq<Action>, s: State, s': State, c: nat)
    requires run != [] && s == Exec(Init(loaded), run[..|run|-1]) && c in s.conns && c in s'.conns
    requires Enabled(s, EncodeVector(c)) && s' == Apply(s, EncodeVector(c)) && QuestionsExact(loaded, run, s.conns[c])
    requires s'.conns[c].job.UnsentVector? && Exact(s'.conns[c].job.vector, s.received)
    ensures QuestionsExact(loaded, run, s'.conns[c])
  {
    hide Exec, Exact, VectorOf;
    assert ExactOnce(loaded, run, s'.conns[c].job.vector);
  }

  lemma EncodeVectorKeepsConns(s: State, c: nat)
    requires Enabled(s, EncodeVector(c))
    ensures c in s.conns && Apply(s, EncodeVector(c)).conns.Keys == s.conns.Keys
  {
    hide VectorOf;
  }

  /** Every question of `k'` is one of `k`, on its way or still to be sent. */
  ghost predicate NoNewQuestion(k: Conn, k': Conn) {
    && (k'.job.UnsentVector? ==> k'.job == k.job)
    && (forall i :: 0 <= i < |k'.down| && k'.down[i].Step1? ==>
          k'.down[i] in k.down || (k.job.UnsentVector? && k'.down[i] == Step1(k.job.vector, true)))
  }

  lemma QuestionsStay(loaded: Ops, run: seq<Action>, s: State, a: Action, c: nat)
    requires Enabled(s, a) && a != EncodeVector(c) && c in Apply(s, a).conns
    requires c in s.conns ==> QuestionsExact(loaded, run, s.conns[c])
    ensures QuestionsExact(loaded, run, Apply(s, a).conns[c])
  {
    hide ExactOnce, Enabled, Apply, NoNewQuestion;
    if c in s.conns {
      StepAsksNothingNew(s, a, c);
      QuestionsFrom(loaded, run, s.conns[c], Apply(s, a).conns[c]);
    } else {
      NewConnIsSilent(s, a, c);
    }
  }

  lemma QuestionsFrom(loaded: Ops, run: seq<Action>, k: Conn, k': Conn)
    requires QuestionsExact(loaded, run, k) && NoNewQuestion(k, k')
    ensures QuestionsExact(loaded, run, k')
  {
    hide ExactOnce;
  }

  lemma NewConnIsSilent(s: State, a: Action, c: nat)
    requires Enabled(s, a) && c !in s.conns && c in Apply(s, a).conns
    ensures var k := Apply(s, a).conns[c]; k.up == k.down == [] && k.job == NoJob && !k.asked
  {
    hide IsDiff, IsEvent, VectorOf, Integrated, StaysOpen;
  }

  lemma StepAsksNothingNew(s: State, a: Action, c: nat)
    requires Enabled(s, a) && a != EncodeVector(c) && c in s.conns && c in Apply(s, a).conns
    ensures NoNewQuestion(s.conns[c], Apply(s, a).conns[c])
  {
    hide NoNewQuestion, IsDiff, IsEvent, VectorOf, Integrated, StaysOpen, MergeInto;
    var k, k' := s.conns[c], Apply(s, a).conns[c];
    match a
    case ServerReceive(d, ops) =>
      ServerReceiveTouches(s, d, ops, c);
      NothingNew(k, k');
    case DirectEdit(ops, u) =>
      MergeFrame(s, ops, u);
      NothingNew(k, k');
    case _ => NothingNew(k, k');
  }

  lemma NothingNew(k: Conn, k': Conn)
    requires k'.job.UnsentVector? ==> k'.job == k.job
    requires || k'.down == k.down || (k.down != [] && k'.down == k.down[1..])
             || (exists m: Msg :: k'.down == k.down + [m]
                                  && (m.Step1? ==> k.job.UnsentVector? && m == Step1(k.job.vector, true)))
    ensures NoNewQuestion(k, k')
  {
  }

  lemma ServerReceiveTouches(s: State, d: nat, ops: Ops, c: nat)
    requires Enabled(s, ServerReceive(d, ops)) && c in s.conns
    ensures var k, k' := s.conns[c], DoServerReceive(s, d, ops).conns[c];
            && k'.down == k.down && k'.asked == k.asked
            && (c != d ==> k' == k)
            && (c == d ==> k'.up == k.up[1..])
            && (c == d && k.up[0].Step1? ==> k'.job == UnsentStep2(ops, k.up[0].askBack))
            && (c == d && !k.up[0].Step1? ==> k'.job == k.job)
  {
    hide IsDiff, IsEvent, Integrated, MergeInto;
    forall s1: State, update: Ops ensures MergeInto(s1, update, ops).conns == s1.conns { MergeTouchesNobody(s1, update, ops); }
  }

  lemma MergeTouchesNobody(s: State, update: Ops, event: Ops)
    ensures MergeInto(s, update, event).conns == s.conns
  {
    hide Integrated;
  }

  /** So what a client replies to the server's question is news: it holds nothing that the document
      had integrated when it asked, and all that the client has integrated besides. */
  lemma ReplyIsNews(loaded: Ops, run: seq<Action>, c: nat, d: Ops) returns (n: nat)
    requires var s := Exec(Init(loaded), run); Enabled(s, ClientReceive(c, d)) && s.conns[c].down[0].Step1?
    ensures n <= |run|
    ensures var had := Integrated(Exec(Init(loaded), run[..n]).received);
            var client := Exec(Init(loaded), run).conns[c].client;
            && d !! had && d <= client && Integrated(client) <= d + had
  {
    hide Exec, Integrated, Exact, VectorOf;
    QuestionsAlwaysExact(loaded, run, c);
    var s := Exec(Init(loaded), run);
    var v := s.conns[c].down[0].vector;
    assert ExactOnce(loaded, run, v);
    n :| 0 <= n <= |run| && Exact(v, Exec(Init(loaded), run[..n]).received);
    DiffBeyondExact(d, s.conns[c].client, v, Exec(Init(loaded), run[..n]).received);
  }

  lemma DiffBeyondExact(d: Ops, r: Ops, v: Vector, other: Ops)
    requires IsDiff(d, r, v) && Exact(v, other)
    ensures d !! Integrated(other) && d <= r && Integrated(r) <= d + Integrated(other)
  {
    hide Complete, Below;
  }

  /** A client that never asked for a question in return gets none. */
  ghost predicate Unasked(k: Conn) {
    !k.asked ==>
      && (forall i :: 0 <= i < |k.up| && k.up[i].Step1? ==> !k.up[i].askBack)
      && (forall i :: 0 <= i < |k.down| ==> !k.down[i].Step1?)
      && !k.job.WantVector? && !k.job.UnsentVector? && (k.job.UnsentStep2? ==> !k.job.askBack)
  }

  lemma {:induction false} NobodyIsAskedUnasked(loaded: Ops, run: seq<Action>, c: nat)
    requires c in Exec(Init(loaded), run).conns
    ensures Unasked(Exec(Init(loaded), run).conns[c])
    decreases |run|
  {
    hide Enabled, Apply, Unasked;
    if run != [] {
      var s, a := Exec(Init(loaded), run[..|run|-1]), run[|run|-1];
      if c in s.conns {
        NobodyIsAskedUnasked(loaded, run[..|run|-1], c);
      }
      if Enabled(s, a) {
        StepLeavesUnasked(s, a, c);
      }
    }
  }

  lemma StepLeavesUnasked(s: State, a: Action, c: nat)
    requires Enabled(s, a) && c in Apply(s, a).conns && (c in s.conns ==> Unasked(s.conns[c]))
    ensures Unasked(Apply(s, a).conns[c])
  {
    hide Unasked, IsDiff, IsEvent, VectorOf, Integrated, StaysOpen, MergeInto;
    if c !in s.conns {
      NewConnIsSilent(s, a, c);
      SilentIsUnasked(Apply(s, a).conns[c]);
    } else {
      var k, k' := s.conns[c], Apply(s, a).conns[c];
      match a
      case ServerReceive(d, ops) =>
        ServerReceiveTouches(s, d, ops, c);
        UnaskedFrom(k, k');
      case DirectEdit(ops, u) =>
        MergeFrame(s, ops, u);
      case EncodeVector(d) => UnaskedJob(k, k', c == d);
      case FlushVector(d) => UnaskedJob(k, k', c == d);
      case _ => UnaskedFrom(k, k');
    }
  }

  lemma SilentIsUnasked(k: Conn)
    requires k.up == k.down == [] && k.job == NoJob
    ensures Unasked(k)
  {
  }

  /** Nobody takes or sends a vector for a client that has not asked. */
  lemma UnaskedJob(k: Conn, k': Conn, mine: bool)
    requires Unasked(k) && k'.asked == k.asked && (!mine ==> k' == k)
    requires mine ==> k.job.WantVector? || k.job.UnsentVector?
    ensures Unasked(k')
  {
  }

  lemma UnaskedFrom(k: Conn, k': Conn)
    requires Unasked(k) && (k.asked ==> k'.asked)
    requires || k'.up == k.up || (k.up != [] && k'.up == k.up[1..])
             || (exists m: Msg :: k'.up == k.up + [m] && (m.Step1? && m.askBack ==> k'.asked))
    requires || k'.down == k.down || (k.down != [] && k'.down == k.down[1..])
             || (exists m: Msg :: k'.down == k.down + [m] && !m.Step1?)
    requires || k'.job == k.job || k'.job.NoJob?
             || (k'.job.WantVector? && k.job.UnsentStep2? && k.job.askBack)
             || (k'.job.UnsentStep2? && k.up != [] && k.up[0].Step1? && k'.job.askBack == k.up[0].askBack)
    ensures Unasked(k')
  {
  }

  // ---------------------------------------------------------------- updates

  /** Whatever the document merges - an edit on the server or an update of a client that may write - it
      holds from then on, and exactly if that integrates anything one more broadcast is pending, with
      all that was integrated and nothing that is not held. */
  ghost predicate Merged(s: State, s': State, ops: Ops, event: Ops) {
    && s'.received == s.received + ops
    && (Integrated(s'.received) == Integrated(s.received) ==> s'.tasks == s.tasks)
    && (Integrated(s'.received) != Integrated(s.received) ==>
          && s'.tasks == s.tasks[s.next := event] && s'.next == s.next + 1
          && Integrated(s'.received) - Integrated(s.received) <= event <= s'.received)
  }

  lemma UpdateIsMerged(s: State, c: nat, event: Ops)
    requires Enabled(s, ServerReceive(c, event)) && !s.conns[c].up[0].Step1? && !s.conns[c].readOnly
    ensures var s' := Apply(s, ServerReceive(c, event));
            && Merged(s, s', s.conns[c].up[0].update, event)
            && s'.conns == s.conns[c := s.conns[c].(up := s.conns[c].up[1..])]
  {
    hide Integrated;
  }

  lemma DirectEditIsMerged(s: State, ops: Ops, event: Ops)
    requires Enabled(s, DirectEdit(ops, event))
    ensures Merged(s, Apply(s, DirectEdit(ops, event)), ops, event)
    ensures Apply(s, DirectEdit(ops, event)).conns == s.conns
  {
    hide Integrated;
  }

  /** A refused message is dropped: neither the document nor any other connection notices. The
      connection is closed unless the text of the refusal is taken for a stateless message, or for a
      token that is then accepted; if it stays open, what was lost is on record. */
  lemma RefusalChangesNothing(s: State, c: nat, text: Encoding.Bytes, tokenAccepted: bool)
    requires Enabled(s, Refuse(c, text, tokenAccepted))
    ensures var s', k := Apply(s, Refuse(c, text, tokenAccepted)), s.conns[c];
            var k' := s'.conns[c];
            && s' == s.(conns := s.conns[c := k'])
            && k' == k.(up := k.up[1..], open := k'.open, lost := k'.lost, unheard := k'.unheard)
            && (k'.open <==>
                  k.open && (Receiver.STATELESS_TAG <= text || (Receiver.TOKEN_TAG <= text && tokenAccepted)))
            && (k'.open ==> (k'.unheard <==> k.unheard || k.up[0].Step1?)
                            && k'.lost == k.lost + (if k.up[0].Step1? then {} else k.up[0].update))
  {
    hide StaysOpen;
    TextDecides(text, tokenAccepted);
  }

  lemma TextDecides(text: Encoding.Bytes, tokenAccepted: bool)
    ensures StaysOpen(text, tokenAccepted)
       <==> Receiver.STATELESS_TAG <= text || (Receiver.TOKEN_TAG <= text && tokenAccepted)
  {
    hide Frames.Ascii;
    Receiver.TagsDiffer();
  }

  /** A broadcast adds one update to the channel of each open, registered connection, the sender
      included, and touches nobody else. */
  lemma BroadcastReachesAll(s: State, t: nat)
    requires Enabled(s, Broadcast(t))
    ensures var s' := Apply(s, Broadcast(t));
            && s'.conns.Keys == s.conns.Keys && s'.received == s.received && s'.tasks == s.tasks - {t}
            && forall c :: c in s.conns ==>
                 if s.conns[c].open && s.conns[c].registered
                 then s'.conns[c] == s.conns[c].(down := s.conns[c].down + [Update(s.tasks[t])])
                 else s'.conns[c] == s.conns[c]
  {
  }
}
