/** Loading documents, as a transition system. Any number of tasks are inside `create_document`; each
    lock-guarded block of it is one step, so tasks interleave between any two of them. Entries may be
    unloaded by name at any time. Whether a load succeeds is up to the hooks. */
module CreateDocumentModel {
  import opened Wrappers

  datatype Answer = Ok(doc: nat) | Failed

  /** The cell that concurrent callers look into for the answer of a load. */
  datatype Lock = Lock(name: string, answer: Option<Answer>)

  datatype Pc =
    | Checking                             // the documents, for the first time
    | Looking                              // for a load in progress
    | AtLock(lock: nat)                    // of the load that was found
    | Rechecking                           // the documents, since that load has no answer
    | Inserting                            // a lock of its own, unless there is one by now
    | AtOther(lock: nat)                   // there was one by now
    | RecheckingOther
    | Loading(lock: nat)                   // inside load_document
    | Setting(lock: nat, answer: Answer)
    | Publishing(lock: nat, doc: nat)
    | Removing(lock: nat, answer: Answer)
    | Finished
  {
    predicate InFlight() { Loading? || Setting? || Publishing? || Removing? }
    predicate AtRest() { Checking? || Loading? || Finished? }
  }

  datatype Task = Task(name: string, pc: Pc)

  /** What a caller was told, and how often an entry of the name had been unloaded by then. */
  datatype Result = Result(name: string, epoch: nat, answer: Answer)

  datatype State = State(
    docs: map<string, nat>,
    loading: map<string, nat>,
    locks: seq<Lock>,
    tasks: seq<Task>,
    loaded: seq<string>,             // the names that the documents were loaded for
    epochs: map<string, nat>,
    results: seq<Result>)

  datatype Action = Call(name: string) | Advance(t: nat, loads: bool) | Unload(name: string)

  const INIT := State(map[], map[], [], [], [], map[], [])

  /** The White_Space property of Unicode. */
  predicate IsWhitespace(c: char) {
    || '\t' <= c <= '\r' || c == ' ' || c == '\U{85}' || c == '\U{A0}' || c == '\U{1680}'
    || '\U{2000}' <= c <= '\U{200A}' || c == '\U{2028}' || c == '\U{2029}' || c == '\U{202F}'
    || c == '\U{205F}' || c == '\U{3000}'
  }

  predicate Blank(name: string) {
    forall c :: c in name ==> IsWhitespace(c)
  }

  function Epoch(s: State, name: string): nat {
    if name in s.epochs then s.epochs[name] else 0
  }

  function Goto(s: State, t: nat, pc: Pc): State
    requires t < |s.tasks|
  {
    s.(tasks := s.tasks[t := s.tasks[t].(pc := pc)])
  }

  function Finish(s: State, t: nat, answer: Answer): State
    requires t < |s.tasks|
  {
    var name := s.tasks[t].name;
    Goto(s, t, Finished).(results := s.results + [Result(name, Epoch(s, name), answer)])
  }

  /** What a lock says: an answer, or that the caller has to go on. */
  function Consult(s: State, t: nat, lock: nat, otherwise: Pc): State
    requires t < |s.tasks|
  {
    if lock < |s.locks| && s.locks[lock].answer.Some? then Finish(s, t, s.locks[lock].answer.value)
    else Goto(s, t, otherwise)
  }

  function DoInsert(s: State, t: nat): State
    requires t < |s.tasks|
  {
    var name := s.tasks[t].name;
    if name in s.loading then Goto(s, t, AtOther(s.loading[name]))
    else Goto(s, t, Loading(|s.locks|)).(locks := s.locks + [Lock(name, None)],
                                         loading := s.loading[name := |s.locks|])
  }

  function DoLoad(s: State, t: nat, lock: nat, loads: bool): State
    requires t < |s.tasks|
  {
    if loads then Goto(s, t, Setting(lock, Ok(|s.loaded|))).(loaded := s.loaded + [s.tasks[t].name])
    else Goto(s, t, Setting(lock, Failed))
  }

  function DoSet(s: State, t: nat, lock: nat, answer: Answer): State
    requires t < |s.tasks|
  {
    var next := if answer.Ok? then Publishing(lock, answer.doc) else Removing(lock, answer);
    if lock < |s.locks| then Goto(s, t, next).(locks := s.locks[lock := s.locks[lock].(answer := Some(answer))])
    else Goto(s, t, next)
  }

  function DoAdvance(s: State, t: nat, loads: bool): State
    requires t < |s.tasks|
  {
    var name := s.tasks[t].name;
    match s.tasks[t].pc
    case Checking =>
      if Blank(name) then Finish(s, t, Failed)
      else if name in s.docs then Finish(s, t, Ok(s.docs[name]))
      else Goto(s, t, Looking)
    case Looking => Goto(s, t, if name in s.loading then AtLock(s.loading[name]) else Inserting)
    case AtLock(lock) => Consult(s, t, lock, Rechecking)
    case Rechecking => if name in s.docs then Finish(s, t, Ok(s.docs[name])) else Goto(s, t, Inserting)
    case Inserting => DoInsert(s, t)
    case AtOther(lock) => Consult(s, t, lock, RecheckingOther)
    case RecheckingOther => Finish(s, t, if name in s.docs then Ok(s.docs[name]) else Failed)
    case Loading(lock) => DoLoad(s, t, lock, loads)
    case Setting(lock, answer) => DoSet(s, t, lock, answer)
    case Publishing(lock, doc) => Goto(s, t, Removing(lock, Ok(doc))).(docs := s.docs[name := doc])
    case Removing(_, answer) => Finish(s.(loading := s.loading - {name}), t, answer)
    case Finished => s
  }

  function DoUnload(s: State, name: string): State {
    if name in s.docs then s.(docs := s.docs - {name}, epochs := s.epochs[name := Epoch(s, name) + 1]) else s
  }

  function Apply(s: State, a: Action): State {
    match a
    case Call(name) => s.(tasks := s.tasks + [Task(name, Checking)])
    case Advance(t, loads) => if t < |s.tasks| then DoAdvance(s, t, loads) else s
    case Unload(name) => DoUnload(s, name)
  }

  function Exec(run: seq<Action>): State
    decreases |run|
  {
    if run == [] then INIT else Apply(Exec(run[..|run|-1]), run[|run|-1])
  }

  // ---------------------------------------------------------------- under any interleaving

  ghost predicate DocOk(s: State, doc: nat, name: string) {
    doc < |s.loaded| && s.loaded[doc] == name
  }

  ghost predicate AnswerOk(s: State, answer: Answer, name: string) {
    answer.Ok? ==> DocOk(s, answer.doc, name)
  }

  ghost predicate LockOk(s: State, lock: nat, name: string) {
    lock < |s.locks| && s.locks[lock].name == name
  }

  ghost predicate PcOk(s: State, task: Task) {
    match task.pc
    case AtLock(l) => LockOk(s, l, task.name)
    case AtOther(l) => LockOk(s, l, task.name)
    case Loading(l) => LockOk(s, l, task.name)
    case Setting(l, answer) => LockOk(s, l, task.name) && AnswerOk(s, answer, task.name)
    case Publishing(l, doc) => LockOk(s, l, task.name) && DocOk(s, doc, task.name)
    case Removing(l, answer) => LockOk(s, l, task.name) && AnswerOk(s, answer, task.name)
    case _ => true
  }

  ghost predicate NamesOk(s: State) {
    && (forall n :: n in s.docs ==> DocOk(s, s.docs[n], n))
    && (forall n :: n in s.loading ==> LockOk(s, s.loading[n], n))
    && (forall l :: 0 <= l < |s.locks| && s.locks[l].answer.Some? ==> AnswerOk(s, s.locks[l].answer.value, s.locks[l].name))
    && (forall t :: 0 <= t < |s.tasks| ==> PcOk(s, s.tasks[t]))
    && (forall i :: 0 <= i < |s.results| ==> AnswerOk(s, s.results[i].answer, s.results[i].name))
  }

  predicate Loads(s: State, t: nat, name: string) {
    t < |s.tasks| && s.tasks[t].pc.InFlight() && s.tasks[t].name == name
  }

  ghost predicate HoldsEntry(s: State, t: nat) {
    t < |s.tasks| && s.tasks[t].pc.InFlight() ==>
      s.tasks[t].name in s.loading && s.loading[s.tasks[t].name] == s.tasks[t].pc.lock
  }

  ghost predicate LoadsOk(s: State) {
    && (forall t: nat :: HoldsEntry(s, t))
    && (forall n :: n in s.loading ==> exists t: nat :: Loads(s, t, n))
    && (forall t: nat, u: nat, n: string :: Loads(s, t, n) && Loads(s, u, n) ==> t == u)
  }

  ghost predicate Inv(s: State) {
    NamesOk(s) && LoadsOk(s)
  }

  /** Locks stay, with their names, and so do loaded documents. */
  ghost predicate Grows(s: State, s': State) {
    && |s.locks| <= |s'.locks| && (forall l :: 0 <= l < |s.locks| ==> s'.locks[l].name == s.locks[l].name)
    && |s.loaded| <= |s'.loaded| && (forall d :: 0 <= d < |s.loaded| ==> s'.loaded[d] == s.loaded[d])
  }

  lemma GrowsDocs(s: State, s': State)
    requires NamesOk(s) && Grows(s, s')
    ensures forall n :: n in s.docs ==> DocOk(s', s.docs[n], n)
    ensures forall n :: n in s.loading ==> LockOk(s', s.loading[n], n)
    ensures forall t :: 0 <= t < |s.tasks| ==> PcOk(s', s.tasks[t])
    ensures forall i :: 0 <= i < |s.results| ==> AnswerOk(s', s.results[i].answer, s.results[i].name)
    ensures forall l :: 0 <= l < |s.locks| && s.locks[l].answer.Some? ==>
              AnswerOk(s', s.locks[l].answer.value, s.locks[l].name)
  {
  }

  lemma GotoNames(s: State, s': State, t: nat, pc: Pc)
    requires NamesOk(s) && t < |s.tasks| && PcOk(s', s.tasks[t].(pc := pc))
    requires Grows(s, s') && s'.tasks == s.tasks[t := s.tasks[t].(pc := pc)]
    requires forall n :: n in s'.docs ==> DocOk(s', s'.docs[n], n)
    requires forall n :: n in s'.loading ==> LockOk(s', s'.loading[n], n)
    requires forall l :: 0 <= l < |s'.locks| && s'.locks[l].answer.Some? ==>
               AnswerOk(s', s'.locks[l].answer.value, s'.locks[l].name)
    requires forall i :: 0 <= i < |s'.results| ==> AnswerOk(s', s'.results[i].answer, s'.results[i].name)
    ensures NamesOk(s')
  {
    hide PcOk, DocOk, AnswerOk, LockOk;
    GrowsDocs(s, s');
  }

  lemma FinishNames(s: State, t: nat, answer: Answer)
    requires NamesOk(s) && t < |s.tasks| && AnswerOk(s, answer, s.tasks[t].name)
    ensures NamesOk(Finish(s, t, answer))
  {
    GotoNames(s, Finish(s, t, answer), t, Finished);
  }

  lemma PlainNames(s: State, t: nat, pc: Pc)
    requires NamesOk(s) && t < |s.tasks| && PcOk(s, s.tasks[t].(pc := pc))
    ensures NamesOk(Goto(s, t, pc))
  {
    GotoNames(s, Goto(s, t, pc), t, pc);
  }

  lemma ConsultNames(s: State, t: nat, lock: nat, otherwise: Pc)
    requires NamesOk(s) && t < |s.tasks| && LockOk(s, lock, s.tasks[t].name) && PcOk(s, s.tasks[t].(pc := otherwise))
    ensures NamesOk(Consult(s, t, lock, otherwise))
  {
    hide PcOk, DocOk;
    if s.locks[lock].answer.Some? {
      FinishNames(s, t, s.locks[lock].answer.value);
    } else {
      PlainNames(s, t, otherwise);
    }
  }

  lemma InsertNames(s: State, t: nat)
    requires NamesOk(s) && t < |s.tasks|
    ensures NamesOk(DoInsert(s, t))
  {
    var name := s.tasks[t].name;
    if name in s.loading {
      PlainNames(s, t, AtOther(s.loading[name]));
    } else {
      GotoNames(s, DoInsert(s, t), t, Loading(|s.locks|));
    }
  }

  lemma LoadNames(s: State, t: nat, lock: nat, loads: bool)
    requires NamesOk(s) && t < |s.tasks| && LockOk(s, lock, s.tasks[t].name)
    ensures NamesOk(DoLoad(s, t, lock, loads))
  {
    GrowsDocs(s, DoLoad(s, t, lock, loads));
    GotoNames(s, DoLoad(s, t, lock, loads), t, Setting(lock, if loads then Ok(|s.loaded|) else Failed));
  }

  lemma SetNames(s: State, t: nat, lock: nat, answer: Answer)
    requires NamesOk(s) && t < |s.tasks| && LockOk(s, lock, s.tasks[t].name) && AnswerOk(s, answer, s.tasks[t].name)
    ensures NamesOk(DoSet(s, t, lock, answer))
  {
    var next := if answer.Ok? then Publishing(lock, answer.doc) else Removing(lock, answer);
    GotoNames(s, DoSet(s, t, lock, answer), t, next);
  }

  lemma AdvanceNames(s: State, t: nat, loads: bool)
    requires NamesOk(s) && t < |s.tasks|
    ensures NamesOk(DoAdvance(s, t, loads))
  {
    hide Consult, DoInsert, DoLoad, DoSet, Finish, NamesOk;
    NamesAt(s, t);
    var name := s.tasks[t].name;
    match s.tasks[t].pc
    case Checking =>
      if Blank(name) { FinishNames(s, t, Failed); }
      else if name in s.docs { FinishNames(s, t, Ok(s.docs[name])); }
      else { PlainNames(s, t, Looking); }
    case Looking => PlainNames(s, t, if name in s.loading then AtLock(s.loading[name]) else Inserting);
    case AtLock(lock) => ConsultNames(s, t, lock, Rechecking);
    case Rechecking => if name in s.docs { FinishNames(s, t, Ok(s.docs[name])); } else { PlainNames(s, t, Inserting); }
    case Inserting => InsertNames(s, t);
    case AtOther(lock) => ConsultNames(s, t, lock, RecheckingOther);
    case RecheckingOther => FinishNames(s, t, if name in s.docs then Ok(s.docs[name]) else Failed);
    case Loading(lock) => LoadNames(s, t, lock, loads);
    case Setting(lock, answer) => SetNames(s, t, lock, answer);
    case Publishing(lock, doc) => PublishNames(s, t, lock, doc);
    case Removing(_, answer) =>
      FewerLoading(s, name);
      FinishNames(s.(loading := s.loading - {name}), t, answer);
    case Finished =>
  }

  lemma NamesAt(s: State, t: nat)
    requires NamesOk(s) && t < |s.tasks|
    ensures PcOk(s, s.tasks[t])
    ensures s.tasks[t].name in s.docs ==> DocOk(s, s.docs[s.tasks[t].name], s.tasks[t].name)
    ensures s.tasks[t].name in s.loading ==> LockOk(s, s.loading[s.tasks[t].name], s.tasks[t].name)
  {
  }

  lemma PublishNames(s: State, t: nat, lock: nat, doc: nat)
    requires NamesOk(s) && t < |s.tasks| && LockOk(s, lock, s.tasks[t].name) && DocOk(s, doc, s.tasks[t].name)
    ensures NamesOk(Goto(s, t, Removing(lock, Ok(doc))).(docs := s.docs[s.tasks[t].name := doc]))
  {
    GotoNames(s, Goto(s, t, Removing(lock, Ok(doc))).(docs := s.docs[s.tasks[t].name := doc]), t, Removing(lock, Ok(doc)));
  }

  lemma FewerLoading(s: State, name: string)
    requires NamesOk(s)
    ensures NamesOk(s.(loading := s.loading - {name}))
  {
    GrowsDocs(s, s.(loading := s.loading - {name}));
  }

  lemma ElseNames(s: State, a: Action)
    requires NamesOk(s) && !a.Advance?
    ensures NamesOk(Apply(s, a))
  {
    GrowsDocs(s, Apply(s, a));
  }

  // who loads

  /** The task moves, but does not begin or end a load. */
  ghost predicate MovesWithin(s: State, s': State, t: nat)
    requires t < |s.tasks|
  {
    && |s'.tasks| == |s.tasks| && s'.tasks == s.tasks[t := s'.tasks[t]] && s'.loading == s.loading
    && s'.tasks[t].name == s.tasks[t].name && (s'.tasks[t].pc.InFlight() <==> s.tasks[t].pc.InFlight())
    && (s.tasks[t].pc.InFlight() ==> s'.tasks[t].pc.lock == s.tasks[t].pc.lock)
  }

  lemma GotoMoves(s: State, s': State, t: nat, pc: Pc)
    requires t < |s.tasks| && s'.tasks == s.tasks[t := s.tasks[t].(pc := pc)] && s'.loading == s.loading
    requires pc.InFlight() <==> s.tasks[t].pc.InFlight()
    requires pc.InFlight() ==> s.tasks[t].pc.lock == pc.lock
    ensures MovesWithin(s, s', t)
  {
  }

  lemma AdvanceMovesWithin(s: State, t: nat, loads: bool)
    requires t < |s.tasks| && !s.tasks[t].pc.Inserting? && !s.tasks[t].pc.Removing?
    ensures MovesWithin(s, DoAdvance(s, t, loads), t)
  {
    hide MovesWithin, Blank, Epoch, Consult, DoLoad, DoSet, Finish, Goto;
    var name := s.tasks[t].name;
    match s.tasks[t].pc
    case Checking =>
      FinishMoves(s, t, Failed);
      if name in s.docs { FinishMoves(s, t, Ok(s.docs[name])); }
      PlainMoves(s, t, Looking);
    case Looking => PlainMoves(s, t, if name in s.loading then AtLock(s.loading[name]) else Inserting);
    case AtLock(lock) => ConsultMoves(s, t, lock, Rechecking);
    case Rechecking =>
      if name in s.docs { FinishMoves(s, t, Ok(s.docs[name])); } else { PlainMoves(s, t, Inserting); }
    case AtOther(lock) => ConsultMoves(s, t, lock, RecheckingOther);
    case RecheckingOther => FinishMoves(s, t, if name in s.docs then Ok(s.docs[name]) else Failed);
    case Loading(lock) => LoadMoves(s, t, lock, loads);
    case Setting(lock, answer) => SetMoves(s, t, lock, answer);
    case Publishing(lock, doc) =>
      PublishMoves(s, t, lock, doc);
    case Finished =>
      StillMoves(s, t);
  }

  lemma PlainMoves(s: State, t: nat, pc: Pc)
    requires t < |s.tasks| && !pc.InFlight() && !s.tasks[t].pc.InFlight()
    ensures MovesWithin(s, Goto(s, t, pc), t)
  {
    GotoMoves(s, Goto(s, t, pc), t, pc);
  }

  lemma FinishMoves(s: State, t: nat, answer: Answer)
    requires t < |s.tasks| && !s.tasks[t].pc.InFlight()
    ensures MovesWithin(s, Finish(s, t, answer), t)
  {
    GotoMoves(s, Finish(s, t, answer), t, Finished);
  }

  lemma ConsultMoves(s: State, t: nat, lock: nat, otherwise: Pc)
    requires t < |s.tasks| && !otherwise.InFlight() && !s.tasks[t].pc.InFlight()
    ensures MovesWithin(s, Consult(s, t, lock, otherwise), t)
  {
    hide MovesWithin;
    GotoMoves(s, Consult(s, t, lock, otherwise), t, Consult(s, t, lock, otherwise).tasks[t].pc);
  }

  lemma LoadMoves(s: State, t: nat, lock: nat, loads: bool)
    requires t < |s.tasks| && s.tasks[t].pc == Loading(lock)
    ensures MovesWithin(s, DoLoad(s, t, lock, loads), t)
  {
    hide MovesWithin;
    GotoMoves(s, DoLoad(s, t, lock, loads), t, DoLoad(s, t, lock, loads).tasks[t].pc);
  }

  lemma SetMoves(s: State, t: nat, lock: nat, answer: Answer)
    requires t < |s.tasks| && s.tasks[t].pc == Setting(lock, answer)
    ensures MovesWithin(s, DoSet(s, t, lock, answer), t)
  {
    hide MovesWithin;
    GotoMoves(s, DoSet(s, t, lock, answer), t, DoSet(s, t, lock, answer).tasks[t].pc);
  }

  lemma PublishMoves(s: State, t: nat, lock: nat, doc: nat)
    requires t < |s.tasks| && s.tasks[t].pc == Publishing(lock, doc)
    ensures MovesWithin(s, Goto(s, t, Removing(lock, Ok(doc))).(docs := s.docs[s.tasks[t].name := doc]), t)
  {
    GotoMoves(s, Goto(s, t, Removing(lock, Ok(doc))).(docs := s.docs[s.tasks[t].name := doc]), t, Removing(lock, Ok(doc)));
  }

  lemma StillMoves(s: State, t: nat)
    requires t < |s.tasks|
    ensures MovesWithin(s, s, t)
  {
  }

  lemma SameLoads(s: State, s': State, t: nat)
    requires LoadsOk(s) && t < |s.tasks| && MovesWithin(s, s', t)
    ensures LoadsOk(s')
  {
    forall u: nat ensures HoldsEntry(s', u) {
      assert HoldsEntry(s, u);
    }
    forall u: nat, n: string ensures Loads(s', u, n) <==> Loads(s, u, n) {
    }
  }

  lemma InsertLoads(s: State, t: nat)
    requires LoadsOk(s) && t < |s.tasks| && s.tasks[t].pc.Inserting?
    ensures LoadsOk(DoInsert(s, t))
  {
    var s', name := DoInsert(s, t), s.tasks[t].name;
    if name in s.loading {
      SameLoads(s, s', t);
    } else {
      forall u: nat ensures HoldsEntry(s', u) {
        assert HoldsEntry(s, u);
      }
      forall u: nat, n: string ensures Loads(s', u, n) <==> Loads(s, u, n) || (u == t && n == name) {
      }
      assert forall u: nat :: !Loads(s, u, name) by {
        forall u: nat ensures !Loads(s, u, name) { assert HoldsEntry(s, u); }
      }
      assert Loads(s', t, name);
    }
  }

  lemma RemoveLoads(s: State, t: nat)
    requires LoadsOk(s) && t < |s.tasks| && s.tasks[t].pc.InFlight()
    ensures LoadsOk(Finish(s.(loading := s.loading - {s.tasks[t].name}), t, Failed))
  {
    var s', name := Finish(s.(loading := s.loading - {s.tasks[t].name}), t, Failed), s.tasks[t].name;
    assert Loads(s, t, name);
    forall u: nat, n: string ensures Loads(s', u, n) <==> Loads(s, u, n) && u != t {
    }
    forall u: nat ensures HoldsEntry(s', u) {
      assert HoldsEntry(s, u);
      if u < |s'.tasks| && s'.tasks[u].pc.InFlight() {
        assert Loads(s, u, s.tasks[u].name) && u != t;
      }
    }
    forall n | n in s'.loading ensures exists u: nat :: Loads(s', u, n) {
      var u: nat :| Loads(s, u, n);
      assert Loads(s', u, n);
    }
  }

  lemma ElseLoads(s: State, a: Action)
    requires LoadsOk(s) && !a.Advance?
    ensures LoadsOk(Apply(s, a))
  {
    var s' := Apply(s, a);
    forall u: nat ensures HoldsEntry(s', u) {
      assert HoldsEntry(s, u);
    }
    forall u: nat, n: string ensures Loads(s', u, n) <==> Loads(s, u, n) {
    }
  }

  lemma AdvanceLoads(s: State, t: nat, loads: bool)
    requires LoadsOk(s) && t < |s.tasks|
    ensures LoadsOk(DoAdvance(s, t, loads))
  {
    hide LoadsOk, Blank, DoLoad, DoSet, Consult, MovesWithin, Goto;
    if s.tasks[t].pc.Inserting? {
      InsertLoads(s, t);
    } else if s.tasks[t].pc.Removing? {
      RemoveLoads(s, t);
      SameLoadsToo(Finish(s.(loading := s.loading - {s.tasks[t].name}), t, Failed), DoAdvance(s, t, loads));
    } else {
      AdvanceMovesWithin(s, t, loads);
      SameLoads(s, DoAdvance(s, t, loads), t);
    }
  }

  lemma SameLoadsToo(s: State, s': State)
    requires LoadsOk(s) && s'.tasks == s.tasks && s'.loading == s.loading
    ensures LoadsOk(s')
  {
    forall u: nat ensures HoldsEntry(s', u) {
      assert HoldsEntry(s, u);
    }
    forall u: nat, n: string ensures Loads(s', u, n) <==> Loads(s, u, n) {
    }
  }

  lemma StepPreservesInv(s: State, a: Action)
    requires Inv(s)
    ensures Inv(Apply(s, a))
  {
    hide NamesOk, LoadsOk, DoAdvance;
    if a.Advance? {
      if a.t < |s.tasks| {
        AdvanceNames(s, a.t, a.loads);
        AdvanceLoads(s, a.t, a.loads);
      }
    } else {
      ElseNames(s, a);
      ElseLoads(s, a);
    }
  }

  lemma {:induction false} InvAlways(run: seq<Action>)
    ensures Inv(Exec(run))
    decreases |run|
  {
    hide Apply;
    if run != [] {
      InvAlways(run[..|run|-1]);
      StepPreservesInv(Exec(run[..|run|-1]), run[|run|-1]);
    }
  }

  /** However the tasks interleave, a name is being loaded by at most one of them at any time, and
      the loading map holds exactly the names that are being loaded. */
  lemma AtMostOneLoad(run: seq<Action>, name: string)
    ensures forall t: nat, u: nat :: Loads(Exec(run), t, name) && Loads(Exec(run), u, name) ==> t == u
    ensures name in Exec(run).loading <==> exists t: nat :: Loads(Exec(run), t, name)
  {
    hide Exec, NamesOk;
    InvAlways(run);
    var s := Exec(run);
    forall t: nat | Loads(s, t, name) ensures name in s.loading {
      assert HoldsEntry(s, t);
    }
  }

  /** Whoever is answered with a document gets one that was loaded for the name asked for. */
  lemma AnswersMatch(run: seq<Action>, i: nat)
    requires i < |Exec(run).results| && Exec(run).results[i].answer.Ok?
    ensures var r := Exec(run).results[i]; r.answer.doc < |Exec(run).loaded| && Exec(run).loaded[r.answer.doc] == r.name
  {
    hide Exec;
    InvAlways(run);
  }
}
