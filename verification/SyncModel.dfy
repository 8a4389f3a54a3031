/** The sync protocol as a transition system: one server document, any number of connections.

    A connection is registered, its client sends its state vector (SyncStep1), the server answers
    with what lies beyond it (SyncStep2) and with its own vector, and from then on both sides pass
    updates on. Every update the document integrates spawns a broadcast task, and these tasks may
    run in any order. Channels keep their order; the messages of one connection are handled one
    after the other; clients follow the sync protocol of y-protocols. A hook or the library may refuse
    any message of a client: it is dropped, and the connection closed unless the text of the refusal
    is taken for something else. */
module SyncModel {
  import opened Encoding
  import opened OpSets
  import Frames
  import Receiver = MessageReceivers

  datatype Msg = Step1(vector: Vector, askBack: bool) | Step2(update: Ops) | Update(update: Ops)

  /** What the handler of a connection has still to do about a SyncStep1. */
  datatype Job =
    | NoJob
    | UnsentStep2(update: Ops, askBack: bool)
    | WantVector
    | UnsentVector(vector: Vector)

  datatype Conn = Conn(
    readOnly: bool,
    open: bool,
    registered: bool,
    answered: bool,      // some SyncStep1 of the client has been answered, if only in `job`
    asked: bool,         // the client has sent a SyncStep1 that asks for one in return
    replied: bool,       // the client has replied to a SyncStep1 of the server
    client: Ops,
    up: seq<Msg>,
    down: seq<Msg>,
    job: Job,
    lost: Ops,           // what refused messages of the open connection carried
    unheard: bool)       // a refused message was a SyncStep1

  datatype State = State(received: Ops, conns: map<nat, Conn>, tasks: map<nat, Ops>, next: nat)

  datatype Action =
    | Open(c: nat, readOnly: bool, replica: Ops)
    | Register(c: nat)
    | Close(c: nat)
    | SendStep1(c: nat, askBack: bool)
    | Edit(c: nat, ops: Ops)
    | ClientReceive(c: nat, diff: Ops)
    | ServerReceive(c: nat, ops: Ops)      // the diff to send, or the update to broadcast
    | Refuse(c: nat, text: Bytes, tokenAccepted: bool)
    | FlushStep2(c: nat)
    | EncodeVector(c: nat)
    | FlushVector(c: nat)
    | DirectEdit(ops: Ops, update: Ops)
    | Broadcast(t: nat)

  function Init(loaded: Ops): State {
    State(loaded, map[], map[], 0)
  }

  predicate OpenAt(s: State, c: nat) {
    c in s.conns && s.conns[c].open
  }

  predicate Handler(s: State, c: nat) {
    c in s.conns && s.conns[c].registered
  }

  /** The event of a transaction holds what the transaction integrated, and nothing that was not received. */
  predicate IsEvent(update: Ops, before: Ops, after: Ops) {
    Integrated(after) - Integrated(before) <= update <= after
  }

  predicate Enabled(s: State, a: Action) {
    match a
    case Open(c, _, replica) => c !in s.conns && replica - Integrated(replica) <= s.received
    case Register(c) => c in s.conns && !s.conns[c].registered
    case Close(c) => OpenAt(s, c)
    case SendStep1(c, _) => OpenAt(s, c)
    case Edit(c, ops) => OpenAt(s, c) && ops <= Integrated(s.conns[c].client + ops)
    case ClientReceive(c, d) =>
      && OpenAt(s, c) && s.conns[c].down != []
      && (s.conns[c].down[0].Step1? ==> IsDiff(d, s.conns[c].client, s.conns[c].down[0].vector))
    case ServerReceive(c, ops) =>
      && Handler(s, c) && s.conns[c].job.NoJob? && s.conns[c].up != []
      && (match s.conns[c].up[0]
          case Step1(v, _) => IsDiff(ops, s.received, v)
          case m => s.conns[c].readOnly || IsEvent(ops, s.received, s.received + m.update))
    case Refuse(c, _, _) => Handler(s, c) && s.conns[c].job.NoJob? && s.conns[c].up != []
    case FlushStep2(c) => Handler(s, c) && s.conns[c].job.UnsentStep2?
    case EncodeVector(c) => Handler(s, c) && s.conns[c].job.WantVector?
    case FlushVector(c) => Handler(s, c) && s.conns[c].job.UnsentVector?
    case DirectEdit(ops, u) => IsEvent(u, s.received, s.received + ops)
    case Broadcast(t) => t in s.tasks
  }

  /** A closed channel drops what is sent. */
  function Send(k: Conn, m: Msg): Conn {
    if k.open then k.(down := k.down + [m]) else k
  }

  function Put(s: State, c: nat, k: Conn): State {
    s.(conns := s.conns[c := k])
  }

  /** The document merges an update; if that integrates anything, the observer spawns a broadcast task. */
  function MergeInto(s: State, ops: Ops, event: Ops): State {
    var s' := s.(received := s.received + ops);
    if Integrated(s'.received) == Integrated(s.received) then s'
    else s'.(tasks := s.tasks[s.next := event], next := s.next + 1)
  }

  function DoClientReceive(k: Conn, diff: Ops): Conn
    requires k.down != []
  {
    match k.down[0]
    case Step1(_, _) => k.(down := k.down[1..], up := k.up + [Step2(diff)], replied := true)
    case m => k.(down := k.down[1..], client := k.client + m.update)
  }

  function DoServerReceive(s: State, c: nat, ops: Ops): State
    requires c in s.conns && s.conns[c].up != []
  {
    var k := s.conns[c].(up := s.conns[c].up[1..]);
    match s.conns[c].up[0]
    case Step1(_, askBack) => Put(s, c, k.(job := UnsentStep2(ops, askBack), answered := true))
    case m => if k.readOnly then Put(s, c, k) else MergeInto(Put(s, c, k), m.update, ops)
  }

  /** A refusal comes to the connection as an error text. It stays open only if it takes the text for
      a stateless message, or for a token that is then accepted. */
  predicate StaysOpen(text: Bytes, tokenAccepted: bool) {
    var action := Receiver.Dispatch(Receiver.Failed(text));
    action.OnStateless? || (action.OnTokenSync? && tokenAccepted)
  }

  function DoRefuse(k: Conn, open: bool): Conn
    requires k.up != []
  {
    var m, k' := k.up[0], k.(up := k.up[1..], open := k.open && open);
    if !k'.open then k'
    else if m.Step1? then k'.(unheard := true)
    else k'.(lost := k.lost + m.update)
  }

  function DoBroadcast(s: State, t: nat): State
    requires t in s.tasks
  {
    s.(tasks := s.tasks - {t},
       conns := map c | c in s.conns ::
         if s.conns[c].registered then Send(s.conns[c], Update(s.tasks[t])) else s.conns[c])
  }

  function Apply(s: State, a: Action): State
    requires Enabled(s, a)
  {
    match a
    case Open(c, readOnly, replica) =>
      Put(s, c, Conn(readOnly, true, false, false, false, false, replica, [], [], NoJob, {}, false))
    case Register(c) => Put(s, c, s.conns[c].(registered := true))
    case Close(c) => Put(s, c, s.conns[c].(open := false))
    case SendStep1(c, askBack) =>
      var k := s.conns[c];
      Put(s, c, k.(up := k.up + [Step1(VectorOf(k.client), askBack)], asked := k.asked || askBack))
    case Edit(c, ops) =>
      var k := s.conns[c];
      Put(s, c, k.(client := k.client + ops, up := k.up + [Update(ops)]))
    case ClientReceive(c, d) => Put(s, c, DoClientReceive(s.conns[c], d))
    case ServerReceive(c, ops) => DoServerReceive(s, c, ops)
    case Refuse(c, text, tokenAccepted) => Put(s, c, DoRefuse(s.conns[c], StaysOpen(text, tokenAccepted)))
    case FlushStep2(c) =>
      var k := s.conns[c];
      Put(s, c, Send(k, Step2(k.job.update)).(job := if k.job.askBack then WantVector else NoJob))
    case EncodeVector(c) => Put(s, c, s.conns[c].(job := UnsentVector(VectorOf(s.received))))
    case FlushVector(c) =>
      var k := s.conns[c];
      Put(s, c, Send(k, Step1(k.job.vector, true)).(job := NoJob))
    case DirectEdit(ops, u) => MergeInto(s, ops, u)
    case Broadcast(t) => DoBroadcast(s, t)
  }

  /** The state after the run; an action that is not enabled changes nothing. */
  ghost function Exec(s: State, run: seq<Action>): State
    decreases |run|
  {
    if run == [] then s
    else
      var before := Exec(s, run[..|run|-1]);
      var a := run[|run|-1];
      if Enabled(before, a) then Apply(before, a) else before
  }

  // ---------------------------------------------------------------- the invariant of one connection

  ghost predicate Carries(m: Msg, op: Op) {
    !m.Step1? && op in m.update
  }

  ghost predicate InChannel(ms: seq<Msg>, op: Op) {
    exists i :: 0 <= i < |ms| && Carries(ms[i], op)
  }

  ghost predicate InJob(j: Job, op: Op) {
    j.UnsentStep2? && op in j.update
  }

  ghost predicate InTasks(ts: map<nat, Ops>, op: Op) {
    exists t :: t in ts && op in ts[t]
  }

  /** Everything that is on its way to the client comes from the document. */
  ghost predicate DownOk(r: Ops, k: Conn) {
    && (forall i :: 0 <= i < |k.down| ==> if k.down[i].Step1? then Under(k.down[i].vector, r) else k.down[i].update <= r)
    && (k.job.UnsentStep2? ==> k.job.update <= r)
    && (k.job.UnsentVector? ==> Under(k.job.vector, r))
  }

  /** What is on its way to the server was the client's, and only its own edits are news. */
  ghost predicate ClientOk(r: Ops, k: Conn) {
    && (forall i :: 0 <= i < |k.up| ==>
          if k.up[i].Step1? then Under(k.up[i].vector, k.client) else k.up[i].update <= k.client)
    && k.lost <= k.client && k.client - Integrated(k.client) <= r
  }

  ghost predicate OnItsWay(ts: map<nat, Ops>, k: Conn, op: Op) {
    op in k.client || InChannel(k.down, op) || InJob(k.job, op) || InTasks(ts, op)
  }

  /** No gap: what is integrated in the document is at the client or on its way to it. */
  ghost predicate NoGap(r: Ops, ts: map<nat, Ops>, k: Conn) {
    k.open && k.registered && k.answered ==> forall op :: op in Integrated(r) ==> OnItsWay(ts, k, op)
  }

  /** What the client of an open connection holds is at the server or on its way to it, once the
      client has replied, or it was refused. */
  ghost predicate NoDebt(r: Ops, k: Conn) {
    k.open && !k.readOnly && k.replied ==>
      forall op :: op in k.client ==> op in r || op in k.lost || InChannel(k.up, op)
  }

  ghost predicate Asking(ms: seq<Msg>) {
    exists i :: 0 <= i < |ms| && ms[i].Step1? && ms[i].askBack
  }

  ghost predicate Telling(ms: seq<Msg>) {
    exists i :: 0 <= i < |ms| && ms[i].Step1?
  }

  /** A question is on its way, being answered, or its answer has been replied to. */
  ghost predicate AskedOk(k: Conn) {
    k.open && k.asked && !k.unheard ==>
      || Asking(k.up)
      || (k.answered && (k.replied || (k.job.UnsentStep2? && k.job.askBack)
                         || k.job.WantVector? || k.job.UnsentVector? || Telling(k.down)))
  }

  ghost predicate ConnOk(r: Ops, ts: map<nat, Ops>, k: Conn) {
    DownOk(r, k) && ClientOk(r, k) && NoGap(r, ts, k) && NoDebt(r, k) && AskedOk(k) && (k.answered ==> k.registered)
  }

  ghost predicate TasksOk(s: State) {
    forall t :: t in s.tasks ==> t < s.next && s.tasks[t] <= s.received
  }

  ghost predicate Inv(s: State) {
    TasksOk(s) && forall c :: c in s.conns ==> ConnOk(s.received, s.tasks, s.conns[c])
  }

  // ---------------------------------------------------------------- preservation

  lemma InChannelGrows(ms: seq<Msg>, ms': seq<Msg>, op: Op)
    requires ms <= ms' && InChannel(ms, op)
    ensures InChannel(ms', op)
  {
    var i :| 0 <= i < |ms| && Carries(ms[i], op);
    assert Carries(ms'[i], op);
  }

  /** A connection is not disturbed when the document grows, provided the news has a broadcast task. */
  lemma ServerGrows(r: Ops, ts: map<nat, Ops>, r': Ops, ts': map<nat, Ops>, k: Conn)
    requires ConnOk(r, ts, k) && r <= r'
    requires forall t :: t in ts ==> t in ts' && ts'[t] == ts[t]
    requires forall op :: op in Integrated(r') && op !in Integrated(r) ==> InTasks(ts', op)
    ensures ConnOk(r', ts', k)
  {
    hide AskedOk, InChannel, Integrated;
    forall op | InTasks(ts, op) ensures InTasks(ts', op) {
      var t :| t in ts && op in ts[t];
      assert op in ts'[t];
    }
  }

  lemma SendStep1Keeps(r: Ops, ts: map<nat, Ops>, k: Conn, askBack: bool)
    requires ConnOk(r, ts, k)
    ensures ConnOk(r, ts, k.(up := k.up + [Step1(VectorOf(k.client), askBack)], asked := k.asked || askBack))
  {
    hide VectorOf, Complete;
    var k' := k.(up := k.up + [Step1(VectorOf(k.client), askBack)], asked := k.asked || askBack);
    forall op ensures Below(VectorOf(k.client), op) ==> op in k.client { VectorSummarises(k.client, op); }
    forall op | InChannel(k.up, op) ensures InChannel(k'.up, op) { InChannelGrows(k.up, k'.up, op); }
    assert forall op :: OnItsWay(ts, k, op) ==> OnItsWay(ts, k', op);
    if askBack {
      assert k'.up[|k.up|].askBack && Asking(k'.up);
    } else if Asking(k.up) {
      var i :| 0 <= i < |k.up| && k.up[i].Step1? && k.up[i].askBack;
      assert k'.up[i].askBack;
    }
  }

  lemma EditKeeps(r: Ops, ts: map<nat, Ops>, k: Conn, ops: Ops)
    requires ConnOk(r, ts, k) && ops <= Integrated(k.client + ops)
    ensures ConnOk(r, ts, k.(client := k.client + ops, up := k.up + [Update(ops)]))
  {
    hide Complete;
    var k' := k.(client := k.client + ops, up := k.up + [Update(ops)]);
    IntegratedGrows(k.client, k'.client);
    forall op | InChannel(k.up, op) ensures InChannel(k'.up, op) { InChannelGrows(k.up, k'.up, op); }
    assert forall op :: op in ops ==> Carries(k'.up[|k.up|], op);
    assert Asking(k.up) ==> Asking(k'.up) by {
      if Asking(k.up) {
        var i :| 0 <= i < |k.up| && k.up[i].Step1? && k.up[i].askBack;
        assert k'.up[i].askBack;
      }
    }
    assert forall op :: OnItsWay(ts, k, op) ==> OnItsWay(ts, k', op);
  }

  lemma PopKeepsRest(ms: seq<Msg>, op: Op)
    requires ms != [] && InChannel(ms, op) && !Carries(ms[0], op)
    ensures InChannel(ms[1..], op)
  {
    var i :| 0 <= i < |ms| && Carries(ms[i], op);
    assert ms[1..][i-1] == ms[i];
  }

  lemma ClientMerges(r: Ops, ts: map<nat, Ops>, k: Conn, diff: Ops)
    requires ConnOk(r, ts, k) && k.down != [] && !k.down[0].Step1?
    ensures ConnOk(r, ts, DoClientReceive(k, diff))
  {
    hide Complete, InChannel, InTasks;
    var k' := DoClientReceive(k, diff);
    IntegratedGrows(k.client, k'.client);
    forall op | InChannel(k.down, op) ensures op in k'.client || InChannel(k'.down, op) {
      if op !in k'.client { PopKeepsRest(k.down, op); }
    }
    assert Telling(k.down) ==> Telling(k'.down) by {
      if Telling(k.down) {
        var i :| 0 <= i < |k.down| && k.down[i].Step1?;
        assert k'.down[i-1] == k.down[i];
      }
    }
  }

  /** The reply to the server's vector: what the client holds and the document does not is in the diff. */
  lemma ClientReplies(r: Ops, ts: map<nat, Ops>, k: Conn, diff: Ops)
    requires ConnOk(r, ts, k) && k.down != [] && k.down[0].Step1? && IsDiff(diff, k.client, k.down[0].vector)
    ensures ConnOk(r, ts, DoClientReceive(k, diff))
  {
    hide Complete;
    var k' := DoClientReceive(k, diff);
    forall op | InChannel(k.down, op) ensures InChannel(k'.down, op) { PopKeepsRest(k.down, op); }
    forall op | InChannel(k.up, op) ensures InChannel(k'.up, op) { InChannelGrows(k.up, k'.up, op); }
    assert forall op :: OnItsWay(ts, k, op) ==> OnItsWay(ts, k', op);
    forall op | op in k.client && op !in r
      ensures Carries(k'.up[|k.up|], op)
    {
      assert op in Integrated(k.client);
      assert !Below(k.down[0].vector, op);
    }
    if Asking(k.up) {
      var i :| 0 <= i < |k.up| && k.up[i].Step1? && k.up[i].askBack;
      assert k'.up[i].askBack;
      assert Asking(k'.up);
    }
  }

  lemma AskingRest(ms: seq<Msg>)
    requires ms != [] && Asking(ms) && !(ms[0].Step1? && ms[0].askBack)
    ensures Asking(ms[1..])
  {
    var i :| 0 <= i < |ms| && ms[i].Step1? && ms[i].askBack;
    assert ms[1..][i-1] == ms[i];
  }

  /** The answer to the client's vector closes the gap. */
  lemma ServerAnswers(r: Ops, ts: map<nat, Ops>, k: Conn, diff: Ops)
    requires ConnOk(r, ts, k) && k.registered && k.job.NoJob? && k.up != [] && k.up[0].Step1?
    requires IsDiff(diff, r, k.up[0].vector)
    ensures ConnOk(r, ts, k.(up := k.up[1..], job := UnsentStep2(diff, k.up[0].askBack), answered := true))
  {
    hide Complete;
    var k' := k.(up := k.up[1..], job := UnsentStep2(diff, k.up[0].askBack), answered := true);
    forall op | InChannel(k.up, op) ensures InChannel(k'.up, op) { PopKeepsRest(k.up, op); }
    if k.asked && !k.up[0].askBack && Asking(k.up) {
      AskingRest(k.up);
    }
    forall op | op in Integrated(r)
      ensures OnItsWay(ts, k', op)
    {
      assert Below(k.up[0].vector, op) ==> op in k.client;
    }
  }

  /** Taking an update off the channel, once it is merged or, from a read-only client, dropped. */
  lemma ServerTakesUpdate(r: Ops, ts: map<nat, Ops>, k: Conn)
    requires ConnOk(r, ts, k) && k.up != [] && !k.up[0].Step1? && (k.readOnly || k.up[0].update <= r)
    ensures ConnOk(r, ts, k.(up := k.up[1..]))
  {
    hide Complete, InChannel;
    var k' := k.(up := k.up[1..]);
    forall op | InChannel(k.up, op) && (k.readOnly || op !in r)
      ensures k.readOnly || InChannel(k'.up, op)
    {
      if !k.readOnly { PopKeepsRest(k.up, op); }
    }
    if Asking(k.up) { AskingRest(k.up); }
    assert forall op :: OnItsWay(ts, k, op) ==> OnItsWay(ts, k', op);
  }

  /** Refusing a message: the connection is closed, or remembers what it lost. */
  lemma RefusalKeeps(r: Ops, ts: map<nat, Ops>, k: Conn, open: bool)
    requires ConnOk(r, ts, k) && k.up != []
    ensures ConnOk(r, ts, DoRefuse(k, open))
  {
    hide Complete, Integrated, InChannel, NoGap, NoDebt, AskedOk, Under;
    RefusalLeavesNoGap(r, ts, k, open);
    RefusalIsRemembered(r, k, open);
  }

  lemma RefusalLeavesNoGap(r: Ops, ts: map<nat, Ops>, k: Conn, open: bool)
    requires NoGap(r, ts, k) && k.up != []
    ensures NoGap(r, ts, DoRefuse(k, open))
  {
    hide Integrated, InChannel, InTasks, StaysOpen;
    var k' := DoRefuse(k, open);
    assert k'.client == k.client && k'.down == k.down && k'.job == k.job;
    assert forall op :: OnItsWay(ts, k, op) ==> OnItsWay(ts, k', op);
  }

  lemma RefusalIsRemembered(r: Ops, k: Conn, open: bool)
    requires NoDebt(r, k) && AskedOk(k) && k.up != []
    ensures NoDebt(r, DoRefuse(k, open)) && AskedOk(DoRefuse(k, open))
  {
    hide InChannel;
    forall op | InChannel(k.up, op) ensures InChannel(k.up[1..], op) || Carries(k.up[0], op) {
      if !Carries(k.up[0], op) { PopKeepsRest(k.up, op); }
    }
    if Asking(k.up) && !k.up[0].Step1? { AskingRest(k.up); }
  }

  lemma SendKeeps(r: Ops, ts: map<nat, Ops>, k: Conn, m: Msg)
    requires ConnOk(r, ts, k) && (if m.Step1? then Under(m.vector, r) else m.update <= r)
    ensures ConnOk(r, ts, Send(k, m))
    ensures k.open ==> forall op :: Carries(m, op) ==> InChannel(Send(k, m).down, op)
    ensures k.open && m.Step1? ==> Telling(Send(k, m).down)
  {
    hide Complete;
    var k' := Send(k, m);
    forall op | InChannel(k.down, op) ensures InChannel(k'.down, op) { InChannelGrows(k.down, k'.down, op); }
    assert forall op :: OnItsWay(ts, k, op) ==> OnItsWay(ts, k', op);
    if k.open {
      assert k'.down[|k.down|] == m;
      if Telling(k.down) {
        var i :| 0 <= i < |k.down| && k.down[i].Step1?;
        assert k'.down[i] == k.down[i];
      }
    }
  }

  /** A job may be replaced when what it was to send has been sent. */
  lemma JobDone(r: Ops, ts: map<nat, Ops>, k: Conn, job: Job)
    requires ConnOk(r, ts, k) && !job.UnsentStep2?
    requires k.open ==> forall op :: InJob(k.job, op) ==> InChannel(k.down, op)
    requires job.UnsentVector? ==> Under(job.vector, r)
    requires k.job.UnsentStep2? && k.job.askBack ==> job.WantVector?
    requires k.job.WantVector? ==> job.UnsentVector?
    requires k.job.UnsentVector? && k.open ==> Telling(k.down)
    ensures ConnOk(r, ts, k.(job := job))
  {
    hide Complete, InChannel;
    assert k.open ==> forall op :: OnItsWay(ts, k, op) ==> OnItsWay(ts, k.(job := job), op);
  }

  // ---------------------------------------------------------------- every step

  lemma MergeKeeps(s: State, ops: Ops, event: Ops, k: Conn)
    requires TasksOk(s) && ConnOk(s.received, s.tasks, k) && IsEvent(event, s.received, s.received + ops)
    ensures ConnOk(MergeInto(s, ops, event).received, MergeInto(s, ops, event).tasks, k)
  {
    hide ConnOk, Complete;
    var s' := MergeInto(s, ops, event);
    forall op | op in Integrated(s'.received) && op !in Integrated(s.received)
      ensures InTasks(s'.tasks, op)
    {
      assert op in s'.tasks[s.next];
    }
    assert s.next !in s.tasks;
    ServerGrows(s.received, s.tasks, s'.received, s'.tasks, k);
  }

  lemma MergeKeepsInv(s: State, ops: Ops, event: Ops)
    requires Inv(s) && IsEvent(event, s.received, s.received + ops)
    ensures Inv(MergeInto(s, ops, event))
  {
    hide ConnOk, TasksOk, MergeInto, IsEvent;
    var s' := MergeInto(s, ops, event);
    MergeFrame(s, ops, event);
    MergeKeepsTasks(s, ops, event);
    forall c | c in s.conns
      ensures ConnOk(s'.received, s'.tasks, s.conns[c])
    {
      MergeKeeps(s, ops, event, s.conns[c]);
    }
  }

  lemma MergeFrame(s: State, ops: Ops, event: Ops)
    ensures MergeInto(s, ops, event).conns == s.conns && MergeInto(s, ops, event).received == s.received + ops
  {
  }

  lemma MergeKeepsTasks(s: State, ops: Ops, event: Ops)
    requires TasksOk(s) && IsEvent(event, s.received, s.received + ops)
    ensures TasksOk(MergeInto(s, ops, event))
  {
    hide Integrated;
  }

  lemma PutKeepsInv(s: State, c: nat, k: Conn)
    requires Inv(s) && ConnOk(s.received, s.tasks, k)
    ensures Inv(Put(s, c, k))
  {
    hide ConnOk;
  }

  /** One task runs: what it carried is now in the channel of every open, registered connection. */
  lemma BroadcastKeeps(s: State, t: nat, k: Conn)
    requires TasksOk(s) && t in s.tasks && ConnOk(s.received, s.tasks, k)
    ensures ConnOk(s.received, s.tasks - {t}, if k.registered then Send(k, Update(s.tasks[t])) else k)
  {
    hide Complete, InChannel;
    if k.registered {
      SendKeeps(s.received, s.tasks, k, Update(s.tasks[t]));
    }
    var k' := if k.registered then Send(k, Update(s.tasks[t])) else k;
    forall op | InTasks(s.tasks, op) && op !in s.tasks[t]
      ensures InTasks(s.tasks - {t}, op)
    {
      var u :| u in s.tasks && op in s.tasks[u];
      assert op in (s.tasks - {t})[u];
    }
    assert k.open && k.registered ==> forall op :: op in s.tasks[t] ==> InChannel(k'.down, op);
  }

  lemma BroadcastKeepsInv(s: State, t: nat)
    requires Inv(s) && t in s.tasks
    ensures Inv(DoBroadcast(s, t))
  {
    hide ConnOk, Send;
    forall c | c in s.conns
      ensures ConnOk(s.received, s.tasks - {t}, DoBroadcast(s, t).conns[c])
    {
      BroadcastKeeps(s, t, s.conns[c]);
    }
  }

  lemma ServerReceiveKeepsInv(s: State, c: nat, ops: Ops)
    requires Inv(s) && Enabled(s, ServerReceive(c, ops))
    ensures Inv(DoServerReceive(s, c, ops))
  {
    hide ConnOk, TasksOk, MergeInto, IsEvent, IsDiff;
    var k, m := s.conns[c], s.conns[c].up[0];
    var k' := k.(up := k.up[1..]);
    if m.Step1? {
      ServerAnswers(s.received, s.tasks, k, ops);
      PutKeepsInv(s, c, k'.(job := UnsentStep2(ops, m.askBack), answered := true));
    } else if k.readOnly {
      ServerTakesUpdate(s.received, s.tasks, k);
      PutKeepsInv(s, c, k');
    } else {
      var s1 := MergeInto(s, m.update, ops);
      MergeFrame(s, m.update, ops);
      MergeKeepsInv(s, m.update, ops);
      ServerTakesUpdate(s1.received, s1.tasks, k);
      PutKeepsInv(s1, c, k');
      MergePut(s, c, k', m.update, ops);
    }
  }

  lemma MergePut(s: State, c: nat, k: Conn, ops: Ops, event: Ops)
    ensures MergeInto(Put(s, c, k), ops, event) == Put(MergeInto(s, ops, event), c, k)
  {
  }

  lemma JobKeepsInv(s: State, a: Action)
    requires Inv(s) && Enabled(s, a) && (a.FlushStep2? || a.EncodeVector? || a.FlushVector?)
    ensures Inv(Apply(s, a))
  {
    hide ConnOk, TasksOk, InChannel, VectorOf, Complete, Telling, Send;
    var k, r := s.conns[a.c], s.received;
    JobBounds(r, s.tasks, k);
    match a
    case FlushStep2(c) =>
      SendKeeps(r, s.tasks, k, Step2(k.job.update));
      SendFrame(k, Step2(k.job.update));
      var k1 := Send(k, Step2(k.job.update));
      assert forall op :: InJob(k1.job, op) ==> Carries(Step2(k.job.update), op);
      var job := if k.job.askBack then WantVector else NoJob;
      JobDone(r, s.tasks, k1, job);
      PutKeepsInv(s, c, k1.(job := job));
    case EncodeVector(c) =>
      forall op ensures Below(VectorOf(r), op) ==> op in r { VectorSummarises(r, op); }
      JobDone(r, s.tasks, k, UnsentVector(VectorOf(r)));
      PutKeepsInv(s, c, k.(job := UnsentVector(VectorOf(r))));
    case FlushVector(c) =>
      SendKeeps(r, s.tasks, k, Step1(k.job.vector, true));
      SendFrame(k, Step1(k.job.vector, true));
      var k1 := Send(k, Step1(k.job.vector, true));
      JobDone(r, s.tasks, k1, NoJob);
      PutKeepsInv(s, c, k1.(job := NoJob));
  }

  lemma JobBounds(r: Ops, ts: map<nat, Ops>, k: Conn)
    requires ConnOk(r, ts, k)
    ensures (k.job.UnsentStep2? ==> k.job.update <= r) && (k.job.UnsentVector? ==> Under(k.job.vector, r))
  {
  }

  lemma SendFrame(k: Conn, m: Msg)
    ensures Send(k, m) == k.(down := Send(k, m).down)
  {
  }

  lemma ClientReceiveKeepsInv(s: State, c: nat, diff: Ops)
    requires Inv(s) && Enabled(s, ClientReceive(c, diff))
    ensures Inv(Apply(s, ClientReceive(c, diff)))
  {
    hide ConnOk, TasksOk, IsDiff, DoClientReceive;
    var k := s.conns[c];
    if k.down[0].Step1? {
      ClientReplies(s.received, s.tasks, k, diff);
    } else {
      ClientMerges(s.received, s.tasks, k, diff);
    }
    PutKeepsInv(s, c, DoClientReceive(k, diff));
  }

  lemma ConnectionStepKeepsInv(s: State, a: Action)
    requires Inv(s) && Enabled(s, a) && (a.Open? || a.Register? || a.Close? || a.SendStep1? || a.Edit?)
    ensures Inv(Apply(s, a))
  {
    hide TasksOk, VectorOf, Complete, InChannel;
    match a
    case Open(c, ro, replica) =>
      PutKeepsInv(s, c, Conn(ro, true, false, false, false, false, replica, [], [], NoJob, {}, false));
    case Register(c) => PutKeepsInv(s, c, s.conns[c].(registered := true));
    case Close(c) => PutKeepsInv(s, c, s.conns[c].(open := false));
    case SendStep1(c, askBack) =>
      var k := s.conns[c];
      SendStep1Keeps(s.received, s.tasks, k, askBack);
      PutKeepsInv(s, c, k.(up := k.up + [Step1(VectorOf(k.client), askBack)], asked := k.asked || askBack));
    case Edit(c, ops) =>
      var k := s.conns[c];
      EditKeeps(s.received, s.tasks, k, ops);
      PutKeepsInv(s, c, k.(client := k.client + ops, up := k.up + [Update(ops)]));
  }

  lemma StepPreservesInv(s: State, a: Action)
    requires Inv(s) && Enabled(s, a)
    ensures Inv(Apply(s, a))
  {
    hide ConnOk, TasksOk, MergeInto, IsEvent, IsDiff, DoServerReceive, DoBroadcast, DoClientReceive, DoRefuse, StaysOpen;
    match a
    case ServerReceive(c, ops) => ServerReceiveKeepsInv(s, c, ops);
    case Refuse(c, text, tokenAccepted) =>
      RefusalKeeps(s.received, s.tasks, s.conns[c], StaysOpen(text, tokenAccepted));
      PutKeepsInv(s, c, DoRefuse(s.conns[c], StaysOpen(text, tokenAccepted)));
    case ClientReceive(c, d) => ClientReceiveKeepsInv(s, c, d);
    case DirectEdit(ops, u) => MergeKeepsInv(s, ops, u);
    case Broadcast(t) => BroadcastKeepsInv(s, t);
    case FlushStep2(_) => JobKeepsInv(s, a);
    case EncodeVector(_) => JobKeepsInv(s, a);
    case FlushVector(_) => JobKeepsInv(s, a);
    case _ => ConnectionStepKeepsInv(s, a);
  }

  lemma {:induction false} InvAlways(loaded: Ops, run: seq<Action>)
    ensures Inv(Exec(Init(loaded), run))
    decreases |run|
  {
    if run != [] {
      hide Inv, Enabled, Apply;
      var s, a := Exec(Init(loaded), run[..|run|-1]), run[|run|-1];
      InvAlways(loaded, run[..|run|-1]);
      if Enabled(s, a) {
        StepPreservesInv(s, a);
      }
    }
  }

  // ---------------------------------------------------------------- what it promises

  /** Once the SyncStep1 of an open, registered connection has been answered, every operation
      integrated in the document is at the client, in its channel, in an unsent SyncStep2 or in a
      pending broadcast task. */
  lemma SyncHasNoGap(loaded: Ops, run: seq<Action>, c: nat, op: Op)
    requires var s := Exec(Init(loaded), run);
             && c in s.conns && s.conns[c].open && s.conns[c].registered && s.conns[c].answered
             && op in Integrated(s.received)
    ensures var s := Exec(Init(loaded), run); OnItsWay(s.tasks, s.conns[c], op)
  {
    InvAlways(loaded, run);
    hide Exec, OnItsWay, Integrated, DownOk, ClientOk, NoDebt, AskedOk, TasksOk;
  }

  /** Nothing is on its way to or from connection `c`. */
  ghost predicate Quiet(s: State, c: nat) {
    && c in s.conns && s.tasks == map[]
    && s.conns[c].open && s.conns[c].registered && s.conns[c].asked
    && s.conns[c].up == [] && s.conns[c].down == [] && s.conns[c].job == NoJob
  }

  /** At rest a client whose question was heard holds all that the document has integrated; one that
      may write has integrated exactly the same operations as the document if and only if the
      document has got all that it ever sent, or what was refused has come by another way. */
  lemma QuietUpToLosses(loaded: Ops, run: seq<Action>, c: nat)
    requires Quiet(Exec(Init(loaded), run), c) && !Exec(Init(loaded), run).conns[c].unheard
    ensures var s := Exec(Init(loaded), run); var k := s.conns[c];
            && Integrated(s.received) <= Integrated(k.client)
            && (!k.readOnly ==>
                  (Integrated(k.client) == Integrated(s.received) <==> k.lost * Integrated(k.client) <= s.received))
  {
    hide Exec, Inv, Quiet, Integrated;
    InvAlways(loaded, run);
    QuietState(Exec(Init(loaded), run), c);
  }

  lemma QuietState(s: State, c: nat)
    requires Inv(s) && Quiet(s, c) && !s.conns[c].unheard
    ensures Integrated(s.received) <= Integrated(s.conns[c].client)
    ensures var k := s.conns[c];
            !k.readOnly ==>
              (Integrated(k.client) == Integrated(s.received) <==> k.lost * Integrated(k.client) <= s.received)
  {
    hide Complete, TasksOk, DownOk;
    var k := s.conns[c];
    assert k.answered && k.replied;
    forall op | op in Integrated(s.received) ensures op in k.client {
      assert OnItsWay(s.tasks, k, op);
    }
    IntegratedGrows(Integrated(s.received), k.client);
    IntegratedIsIntegrated(s.received);
    if !k.readOnly && k.lost * Integrated(k.client) <= s.received {
      assert Integrated(k.client) <= s.received;
      IntegratedGrows(Integrated(k.client), s.received);
      IntegratedIsIntegrated(k.client);
    }
  }

  /** No refusal looks like a tag. */
  ghost predicate UntaggedRefusals(run: seq<Action>) {
    forall i :: 0 <= i < |run| && run[i].Refuse? ==> !Receiver.Tagged(run[i].text)
  }

  lemma UntaggedCloses(text: Bytes, tokenAccepted: bool)
    requires !Receiver.Tagged(text)
    ensures !StaysOpen(text, tokenAccepted)
  {
    hide Frames.Ascii;
  }

  lemma {:induction false} UntaggedLosesNothing(loaded: Ops, run: seq<Action>, c: nat)
    requires UntaggedRefusals(run) && c in Exec(Init(loaded), run).conns
    ensures Exec(Init(loaded), run).conns[c].lost == {} && !Exec(Init(loaded), run).conns[c].unheard
    decreases |run|
  {
    if run != [] {
      hide Enabled, Apply, Receiver.Tagged;
      var s, a := Exec(Init(loaded), run[..|run|-1]), run[|run|-1];
      assert forall i :: 0 <= i < |run| - 1 ==> run[..|run|-1][i] == run[i];
      if c in s.conns {
        UntaggedLosesNothing(loaded, run[..|run|-1], c);
      }
      if Enabled(s, a) {
        StepLosesNothing(s, a, c);
      }
    }
  }

  lemma StepLosesNothing(s: State, a: Action, c: nat)
    requires Enabled(s, a) && (a.Refuse? ==> !Receiver.Tagged(a.text)) && c in Apply(s, a).conns
    requires c in s.conns ==> s.conns[c].lost == {} && !s.conns[c].unheard
    ensures Apply(s, a).conns[c].lost == {} && !Apply(s, a).conns[c].unheard
  {
    hide IsDiff, IsEvent, VectorOf, Integrated, Receiver.Tagged, StaysOpen;
    if a.Refuse? {
      UntaggedCloses(a.text, a.tokenAccepted);
    }
  }

  /** So without refusals that look like a tag, at rest a client that asked holds all that the document
      has integrated, and a client that may write has integrated exactly the same operations. */
  lemma QuietMeansConverged(loaded: Ops, run: seq<Action>, c: nat)
    requires UntaggedRefusals(run) && Quiet(Exec(Init(loaded), run), c)
    ensures var s := Exec(Init(loaded), run);
            && Integrated(s.received) <= Integrated(s.conns[c].client)
            && (!s.conns[c].readOnly ==> Integrated(s.conns[c].client) == Integrated(s.received))
  {
    hide Exec, Integrated, UntaggedRefusals;
    UntaggedLosesNothing(loaded, run, c);
    QuietUpToLosses(loaded, run, c);
  }

  lemma QuietClientsAgree(loaded: Ops, run: seq<Action>, c: nat, c': nat)
    requires UntaggedRefusals(run)
    requires var s := Exec(Init(loaded), run);
             Quiet(s, c) && Quiet(s, c') && !s.conns[c].readOnly && !s.conns[c'].readOnly
    ensures var s := Exec(Init(loaded), run); Integrated(s.conns[c].client) == Integrated(s.conns[c'].client)
  {
    hide Exec, Integrated, UntaggedRefusals;
    QuietMeansConverged(loaded, run, c);
    QuietMeansConverged(loaded, run, c');
  }

  /** A refusal that looks like a stateless message does make them differ: from rest, let the client
      add one operation and a hook refuse it with such a text. All is at rest again, the connection is
      open, and the document lacks the operation for good. */
  lemma TaggedRefusalDiverges(s: State, c: nat, op: Op, payload: Bytes)
    requires Quiet(s, c) && op !in s.received && op in Integrated(s.conns[c].client + {op})
    ensures var edit, refuse := Edit(c, {op}), Refuse(c, Receiver.STATELESS_TAG + payload, false);
            && Enabled(s, edit) && Enabled(Apply(s, edit), refuse)
            && var s' := Apply(Apply(s, edit), refuse);
            Quiet(s', c) && op in Integrated(s'.conns[c].client) && op !in s'.received
  {
    hide Integrated, Frames.Ascii, Receiver.Dispatch;
    StatelessStaysOpen(payload);
    assert [Update({op})][1..] == [];
  }

  lemma StatelessStaysOpen(payload: Bytes)
    ensures StaysOpen(Receiver.STATELESS_TAG + payload, false)
  {
    hide Frames.Ascii;
  }

  // ---------------------------------------------------------------- where operations come from

  /** What a connection that may write puts into its channel, and what is edited directly. */
  function Contributed(s: State, a: Action): Ops {
    match a
    case DirectEdit(ops, _) => ops
    case Edit(c, ops) => if c in s.conns && !s.conns[c].readOnly then ops else {}
    case ClientReceive(c, d) =>
      if c in s.conns && !s.conns[c].readOnly && s.conns[c].down != [] && s.conns[c].down[0].Step1? then d else {}
    case _ => {}
  }

  ghost function Sources(loaded: Ops, run: seq<Action>): Ops
    decreases |run|
  {
    if run == [] then loaded
    else
      var s, a := Exec(Init(loaded), run[..|run|-1]), run[|run|-1];
      Sources(loaded, run[..|run|-1]) + (if Enabled(s, a) then Contributed(s, a) else {})
  }

  ghost predicate ConnStemsFrom(k: Conn, all: Ops) {
    !k.readOnly ==> forall i :: 0 <= i < |k.up| && !k.up[i].Step1? ==> k.up[i].update <= all
  }

  /** The document and the channels of those who may write hold nothing else. */
  ghost predicate StemsFrom(s: State, all: Ops) {
    s.received <= all && forall c :: c in s.conns ==> ConnStemsFrom(s.conns[c], all)
  }

  /** In every run the document holds nothing beyond what was loaded, edited directly, or sent by a
      connection that may write. */
  lemma {:induction false} OnlyWritersContribute(loaded: Ops, run: seq<Action>)
    ensures StemsFrom(Exec(Init(loaded), run), Sources(loaded, run))
    ensures loaded <= Exec(Init(loaded), run).received
    decreases |run|
  {
    if run != [] {
      hide Enabled, Apply, StemsFrom, Contributed;
      var s, a := Exec(Init(loaded), run[..|run|-1]), run[|run|-1];
      OnlyWritersContribute(loaded, run[..|run|-1]);
      if Enabled(s, a) {
        StepFrom(s, a, Sources(loaded, run[..|run|-1]));
      } else {
        assert Sources(loaded, run) == Sources(loaded, run[..|run|-1]);
      }
    } else {
      NothingSentYet(loaded);
    }
  }

  lemma NothingSentYet(loaded: Ops)
    ensures StemsFrom(Init(loaded), loaded)
  {
  }

  lemma StepFrom(s: State, a: Action, all: Ops)
    requires Enabled(s, a) && StemsFrom(s, all)
    ensures StemsFrom(Apply(s, a), all + Contributed(s, a)) && s.received <= Apply(s, a).received
  {
    hide Enabled, Apply, Contributed, ConnStemsFrom;
    var s' := Apply(s, a);
    ReceivedFrom(s, a, all);
    forall c | c in s'.conns ensures ConnStemsFrom(s'.conns[c], all + Contributed(s, a)) {
      ConnFrom(s, a, all, c);
    }
  }

  lemma ReceivedFrom(s: State, a: Action, all: Ops)
    requires Enabled(s, a) && StemsFrom(s, all)
    ensures s.received <= Apply(s, a).received <= all + Contributed(s, a)
  {
    hide IsDiff, IsEvent, VectorOf, Integrated, StaysOpen;
    assert a.ServerReceive? ==> ConnStemsFrom(s.conns[a.c], all);
  }

  lemma ConnFrom(s: State, a: Action, all: Ops, c: nat)
    requires Enabled(s, a) && StemsFrom(s, all) && c in Apply(s, a).conns
    ensures ConnStemsFrom(Apply(s, a).conns[c], all + Contributed(s, a))
  {
    hide Enabled, Apply, Contributed, ConnStemsFrom, UpMoves;
    if c in s.conns {
      UpOfStep(s, a, c);
      UpStemsFrom(s.conns[c], Apply(s, a).conns[c], all, Contributed(s, a));
    } else {
      UpOfNew(s, a, c);
    }
  }

  /** The channel to the server loses its first message, or gains one. */
  ghost predicate UpMoves(k: Conn, k': Conn, more: Ops) {
    && k'.readOnly == k.readOnly
    && (|| k'.up == k.up || (k.up != [] && k'.up == k.up[1..])
        || exists m: Msg :: k'.up == k.up + [m] && (!m.Step1? && !k.readOnly ==> m.update <= more))
  }

  lemma UpStemsFrom(k: Conn, k': Conn, all: Ops, more: Ops)
    requires ConnStemsFrom(k, all) && UpMoves(k, k', more)
    ensures ConnStemsFrom(k', all + more)
  {
  }

  lemma UpOfNew(s: State, a: Action, c: nat)
    requires Enabled(s, a) && c in Apply(s, a).conns && c !in s.conns
    ensures Apply(s, a).conns[c].up == [] && forall all :: ConnStemsFrom(Apply(s, a).conns[c], all)
  {
    hide IsDiff, IsEvent, VectorOf, Integrated, StaysOpen;
  }

  lemma UpOfStep(s: State, a: Action, c: nat)
    requires Enabled(s, a) && c in Apply(s, a).conns && c in s.conns
    ensures UpMoves(s.conns[c], Apply(s, a).conns[c], Contributed(s, a))
  {
    hide IsDiff, IsEvent, VectorOf, Integrated, StaysOpen, UpMoves, Contributed;
    var k, k' := s.conns[c], Apply(s, a).conns[c];
    match a
    case SendStep1(d, askBack) => UpGains(k, k', Step1(VectorOf(s.conns[d].client), askBack), Contributed(s, a));
    case Edit(d, ops) =>
      EditContributes(s, d, ops);
      UpGains(k, k', Update(ops), Contributed(s, a));
    case ClientReceive(d, diff) =>
      ReplyContributes(s, d, diff);
      UpGains(k, k', Step2(diff), Contributed(s, a));
    case _ => UpShrinks(k, k', Contributed(s, a));
  }

  lemma UpGains(k: Conn, k': Conn, m: Msg, more: Ops)
    requires k'.readOnly == k.readOnly
    requires k' == k || k'.up == k.up || (k'.up == k.up + [m] && (!m.Step1? && !k.readOnly ==> m.update <= more))
    ensures UpMoves(k, k', more)
  {
  }

  lemma UpShrinks(k: Conn, k': Conn, more: Ops)
    requires k'.readOnly == k.readOnly && (k'.up == k.up || (k.up != [] && k'.up == k.up[1..]))
    ensures UpMoves(k, k', more)
  {
  }

  lemma EditContributes(s: State, c: nat, ops: Ops)
    ensures c in s.conns && !s.conns[c].readOnly ==> Contributed(s, Edit(c, ops)) == ops
  {
  }

  lemma ReplyContributes(s: State, c: nat, diff: Ops)
    ensures c in s.conns && !s.conns[c].readOnly && s.conns[c].down != [] && s.conns[c].down[0].Step1? ==>
              Contributed(s, ClientReceive(c, diff)) == diff
  {
  }

  /** Messages of a read-only client change neither the document nor the broadcast tasks. */
  lemma ReadOnlyChangesNothing(s: State, c: nat, ops: Ops)
    requires Enabled(s, ServerReceive(c, ops)) && s.conns[c].readOnly
    ensures Apply(s, ServerReceive(c, ops)).received == s.received
    ensures Apply(s, ServerReceive(c, ops)).tasks == s.tasks
  {
  }

  /** As long as every connection is read-only and nobody edits directly, the document stays as loaded. */
  lemma {:induction false} OnlyReadersNoChange(loaded: Ops, run: seq<Action>)
    requires forall i :: 0 <= i < |run| ==> !run[i].DirectEdit? && (run[i].Open? ==> run[i].readOnly)
    ensures Exec(Init(loaded), run).received == loaded
    ensures var s := Exec(Init(loaded), run); forall c :: c in s.conns ==> s.conns[c].readOnly
    decreases |run|
  {
    if run != [] {
      var s, a := Exec(Init(loaded), run[..|run|-1]), run[|run|-1];
      OnlyReadersNoChange(loaded, run[..|run|-1]);
      if Enabled(s, a) {
        OnlyReadersStep(s, a);
      }
      hide Enabled, Apply;
    }
  }

  lemma OnlyReadersStep(s: State, a: Action)
    requires Enabled(s, a) && !a.DirectEdit? && (a.Open? ==> a.readOnly)
    requires forall c :: c in s.conns ==> s.conns[c].readOnly
    ensures Apply(s, a).received == s.received
    ensures forall c :: c in Apply(s, a).conns ==> Apply(s, a).conns[c].readOnly
  {
    hide IsDiff, IsEvent, VectorOf, Integrated;
  }
}
