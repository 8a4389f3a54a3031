/** Loading documents when tasks give way only where a hook is awaited: in `create_document` that is
    inside the load itself. Then a task that is on its way between two such points is the only one to
    move. `CreateDocumentOverwrites` says what happens otherwise. */
module CreateDocumentScheduling {
  import opened Wrappers
  import opened CreateDocumentModel

  predicate Mid(s: State, t: nat) {
    t < |s.tasks| && !s.tasks[t].pc.AtRest()
  }

  ghost predicate Polite(s: State, a: Action) {
    forall t: nat :: Mid(s, t) ==> a.Advance? && a.t == t
  }

  ghost predicate PoliteRun(run: seq<Action>)
    decreases |run|
  {
    run == [] || (PoliteRun(run[..|run|-1]) && Polite(Exec(run[..|run|-1]), run[|run|-1]))
  }

  /** The load behind the lock has no answer yet. */
  predicate Unanswered(s: State, lock: nat) {
    lock < |s.locks| && s.locks[lock].answer.None?
  }

  predicate TaskOk(s: State, task: Task) {
    match task.pc
    case Checking => true
    case Finished => true
    case AtLock(l) => task.name !in s.docs && Unanswered(s, l)
    case AtOther(l) => task.name !in s.docs && Unanswered(s, l)
    case Loading(l) => task.name !in s.docs && Unanswered(s, l)
    case Setting(l, _) => task.name !in s.docs && Unanswered(s, l)
    case Removing(_, answer) => answer.Ok? ==> task.name in s.docs && s.docs[task.name] == answer.doc
    case _ => task.name !in s.docs
  }

  ghost predicate TasksOk(s: State) {
    && (forall t: nat, u: nat :: Mid(s, t) && Mid(s, u) ==> t == u)
    && (forall t :: 0 <= t < |s.tasks| ==> TaskOk(s, s.tasks[t]))
  }

  predicate ResultOk(s: State, r: Result) {
    && r.epoch <= Epoch(s, r.name)
    && (r.answer.Ok? && r.epoch == Epoch(s, r.name) ==> r.name in s.docs && s.docs[r.name] == r.answer.doc)
  }

  /** Between two unloads of the name. */
  predicate SameEpoch(r: Result, q: Result) {
    r.answer.Ok? && q.answer.Ok? && r.name == q.name && r.epoch == q.epoch
  }

  ghost predicate ResultsOk(s: State) {
    && (forall i :: 0 <= i < |s.results| ==> ResultOk(s, s.results[i]))
    && (forall i, j :: 0 <= i < |s.results| && 0 <= j < |s.results| && SameEpoch(s.results[i], s.results[j]) ==>
          s.results[i].answer == s.results[j].answer)
  }

  ghost predicate CoarseInv(s: State) {
    Inv(s) && TasksOk(s) && ResultsOk(s)
  }

  // ---------------------------------------------------------------- tasks

  /** Of the tasks other than the one that moves, all are at rest; those that load are not disturbed. */
  lemma OthersStay(s: State, s': State, t: nat, pc: Pc)
    requires t < |s.tasks| && TasksOk(s) && (forall u: nat :: Mid(s, u) ==> u == t)
    requires s'.tasks == s.tasks[t := s.tasks[t].(pc := pc)] && TaskOk(s', s'.tasks[t])
    requires forall u: nat, l: nat ::
               u < |s.tasks| && u != t && s.tasks[u].pc == Loading(l) ==> s.tasks[u].name !in s'.docs && Unanswered(s', l)
    ensures TasksOk(s')
  {
    forall u: nat | Mid(s', u) ensures u == t {
      if u != t { assert Mid(s, u); }
    }
    forall u | 0 <= u < |s'.tasks| ensures TaskOk(s', s'.tasks[u]) {
      if u != t {
        assert TaskOk(s, s.tasks[u]) && !Mid(s, u);
      }
    }
  }

  /** The task is the only one that may be on its way. */
  ghost predicate Alone(s: State, t: nat) {
    t < |s.tasks| && TasksOk(s) && forall u: nat :: Mid(s, u) ==> u == t
  }

  lemma PlainStay(s: State, s': State, t: nat, pc: Pc)
    requires Alone(s, t)
    requires s'.tasks == s.tasks[t := s.tasks[t].(pc := pc)] && TaskOk(s', s'.tasks[t])
    requires s'.docs == s.docs && s.locks <= s'.locks
    ensures TasksOk(s')
  {
    forall u: nat, l: nat | u < |s.tasks| && u != t && s.tasks[u].pc == Loading(l)
      ensures s.tasks[u].name !in s'.docs && Unanswered(s', l)
    {
      assert TaskOk(s, s.tasks[u]);
    }
    OthersStay(s, s', t, pc);
  }

  /** The load that a task finds is asleep in a hook. */
  lemma FoundIsUnanswered(s: State, t: nat, name: string)
    requires Inv(s) && TasksOk(s) && Mid(s, t) && !s.tasks[t].pc.InFlight() && name in s.loading
    ensures Unanswered(s, s.loading[name])
  {
    var u: nat :| Loads(s, u, name);
    assert HoldsEntry(s, u);
    assert !Mid(s, u);
    assert TaskOk(s, s.tasks[u]);
  }

  lemma PublishStay(s: State, t: nat, lock: nat, doc: nat)
    requires Inv(s) && TasksOk(s) && t < |s.tasks| && s.tasks[t].pc == Publishing(lock, doc)
    ensures TasksOk(DoAdvance(s, t, true))
  {
    hide NamesOk;
    var name := s.tasks[t].name;
    assert Loads(s, t, name) && Mid(s, t);
    forall u: nat, l: nat | u < |s.tasks| && u != t && s.tasks[u].pc == Loading(l)
      ensures s.tasks[u].name != name && TaskOk(s, s.tasks[u])
    {
      assert Loads(s, u, s.tasks[u].name);
    }
    OthersStay(s, DoAdvance(s, t, true), t, Removing(lock, Ok(doc)));
  }

  lemma SetStay(s: State, t: nat, lock: nat, answer: Answer)
    requires Inv(s) && TasksOk(s) && t < |s.tasks| && s.tasks[t].pc == Setting(lock, answer)
    ensures TasksOk(DoSet(s, t, lock, answer))
  {
    var s', name := DoSet(s, t, lock, answer), s.tasks[t].name;
    assert Loads(s, t, name) && Mid(s, t) && TaskOk(s, s.tasks[t]) && PcOk(s, s.tasks[t]);
    forall u: nat, l: nat | u < |s.tasks| && u != t && s.tasks[u].pc == Loading(l)
      ensures l != lock && TaskOk(s, s.tasks[u])
    {
      assert Loads(s, u, s.tasks[u].name) && PcOk(s, s.tasks[u]);
    }
    OthersStay(s, s', t, s'.tasks[t].pc);
  }

  lemma GotoStay(s: State, t: nat, pc: Pc)
    requires Alone(s, t) && TaskOk(s, s.tasks[t].(pc := pc))
    ensures TasksOk(Goto(s, t, pc))
  {
    hide TasksOk;
    PlainStay(s, Goto(s, t, pc), t, pc);
  }

  lemma FinishStay(s: State, t: nat, answer: Answer)
    requires Alone(s, t)
    ensures TasksOk(Finish(s, t, answer))
  {
    hide TasksOk;
    PlainStay(s, Finish(s, t, answer), t, Finished);
  }

  lemma RemoveStay(s: State, t: nat, answer: Answer)
    requires Alone(s, t)
    ensures TasksOk(Finish(s.(loading := s.loading - {s.tasks[t].name}), t, answer))
  {
    hide TasksOk;
    PlainStay(s, Finish(s.(loading := s.loading - {s.tasks[t].name}), t, answer), t, Finished);
  }

  lemma LoadStay(s: State, t: nat, lock: nat, loads: bool)
    requires Alone(s, t) && s.tasks[t].name !in s.docs && Unanswered(s, lock)
    ensures TasksOk(DoLoad(s, t, lock, loads))
  {
    hide TasksOk;
    PlainStay(s, DoLoad(s, t, lock, loads), t, DoLoad(s, t, lock, loads).tasks[t].pc);
  }

  lemma InsertStay(s: State, t: nat)
    requires Inv(s) && Alone(s, t) && s.tasks[t].pc.Inserting? && s.tasks[t].name !in s.docs
    ensures TasksOk(DoInsert(s, t))
  {
    hide TasksOk, Inv;
    if s.tasks[t].name in s.loading {
      FoundIsUnanswered(s, t, s.tasks[t].name);
    }
    PlainStay(s, DoInsert(s, t), t, DoInsert(s, t).tasks[t].pc);
  }

  lemma AdvanceTasks(s: State, t: nat, loads: bool)
    requires Inv(s) && Alone(s, t)
    ensures TasksOk(DoAdvance(s, t, loads))
  {
    hide Inv, TasksOk, Blank, Epoch, DoSet, DoLoad, DoInsert, Finish, Goto;
    TaskAt(s, t);
    var name := s.tasks[t].name;
    match s.tasks[t].pc
    case Checking =>
      FinishStay(s, t, Failed);
      if name in s.docs { FinishStay(s, t, Ok(s.docs[name])); } else { GotoStay(s, t, Looking); }
    case Looking =>
      if name in s.loading { FoundIsUnanswered(s, t, name); }
      GotoStay(s, t, if name in s.loading then AtLock(s.loading[name]) else Inserting);
    case AtLock(lock) => GotoStay(s, t, Rechecking);
    case Rechecking => GotoStay(s, t, Inserting);
    case Inserting => InsertStay(s, t);
    case AtOther(lock) => GotoStay(s, t, RecheckingOther);
    case RecheckingOther => FinishStay(s, t, Failed);
    case Loading(lock) => LoadStay(s, t, lock, loads);
    case Setting(lock, answer) => SetStay(s, t, lock, answer);
    case Publishing(lock, doc) => PublishStay(s, t, lock, doc);
    case Removing(_, answer) => RemoveStay(s, t, answer);
    case Finished =>
  }

  lemma TaskAt(s: State, t: nat)
    requires TasksOk(s) && t < |s.tasks|
    ensures TaskOk(s, s.tasks[t])
  {
  }

  lemma ElseTasks(s: State, a: Action)
    requires TasksOk(s) && !a.Advance? && Polite(s, a)
    ensures TasksOk(Apply(s, a))
  {
    var s' := Apply(s, a);
    forall t: nat ensures !Mid(s', t) {
      assert !Mid(s, t);
    }
    forall t | 0 <= t < |s'.tasks| ensures TaskOk(s', s'.tasks[t]) {
      if t < |s.tasks| { assert TaskOk(s, s.tasks[t]) && !Mid(s, t); }
    }
  }

  // ---------------------------------------------------------------- results

  /** Entries of the documents are only added. */
  lemma ResultsKept(s: State, s': State)
    requires ResultsOk(s) && s'.results == s.results && s'.epochs == s.epochs
    requires forall n :: n in s.docs ==> n in s'.docs && s'.docs[n] == s.docs[n]
    ensures ResultsOk(s')
  {
    forall i | 0 <= i < |s.results| ensures ResultOk(s', s.results[i]) {
      assert ResultOk(s, s.results[i]);
    }
  }

  lemma ResultsFinish(s: State, t: nat, answer: Answer)
    requires ResultsOk(s) && t < |s.tasks|
    requires answer.Ok? ==> s.tasks[t].name in s.docs && s.docs[s.tasks[t].name] == answer.doc
    ensures ResultsOk(Finish(s, t, answer))
  {
    var s' := Finish(s, t, answer);
    forall i | 0 <= i < |s'.results| ensures ResultOk(s', s'.results[i]) {
      if i < |s.results| { assert ResultOk(s, s.results[i]); }
    }
    forall i, j | 0 <= i < |s'.results| && 0 <= j < |s'.results| && SameEpoch(s'.results[i], s'.results[j])
      ensures s'.results[i].answer == s'.results[j].answer
    {
      assert ResultOk(s', s'.results[i]) && ResultOk(s', s'.results[j]);
      if i < |s.results| && j < |s.results| { assert SameEpoch(s.results[i], s.results[j]); }
    }
  }

  lemma ResultsUnload(s: State, name: string)
    requires ResultsOk(s)
    ensures ResultsOk(DoUnload(s, name))
  {
    var s' := DoUnload(s, name);
    forall i | 0 <= i < |s.results| ensures ResultOk(s', s.results[i]) {
      assert ResultOk(s, s.results[i]);
    }
  }

  lemma AdvanceResults(s: State, t: nat, loads: bool)
    requires TasksOk(s) && ResultsOk(s) && t < |s.tasks|
    ensures ResultsOk(DoAdvance(s, t, loads))
  {
    hide TasksOk, ResultsOk, Blank, Epoch, Finish, DoInsert, DoLoad, DoSet;
    TaskAt(s, t);
    var s', name := DoAdvance(s, t, loads), s.tasks[t].name;
    match s.tasks[t].pc
    case Checking =>
      ResultsFinish(s, t, Failed);
      if name in s.docs { ResultsFinish(s, t, Ok(s.docs[name])); }
      ResultsKept(s, Goto(s, t, Looking));
    case RecheckingOther => ResultsFinish(s, t, Failed);
    case Removing(_, answer) =>
      ResultsKept(s, s.(loading := s.loading - {name}));
      ResultsFinish(s.(loading := s.loading - {name}), t, answer);
    case Inserting => LoadingIsSilent(s, t, 0, loads, Failed);
    case Loading(lock) => LoadingIsSilent(s, t, lock, loads, Failed);
    case Setting(lock, answer) => LoadingIsSilent(s, t, lock, loads, answer);
    case _ => ResultsKept(s, s');
  }

  lemma LoadingIsSilent(s: State, t: nat, lock: nat, loads: bool, answer: Answer)
    requires ResultsOk(s) && t < |s.tasks|
    ensures ResultsOk(DoInsert(s, t)) && ResultsOk(DoLoad(s, t, lock, loads)) && ResultsOk(DoSet(s, t, lock, answer))
  {
    hide ResultsOk;
    ResultsKept(s, DoInsert(s, t));
    ResultsKept(s, DoLoad(s, t, lock, loads));
    ResultsKept(s, DoSet(s, t, lock, answer));
  }

  // ---------------------------------------------------------------- every polite run

  lemma StepPreservesCoarse(s: State, a: Action)
    requires CoarseInv(s) && Polite(s, a)
    ensures CoarseInv(Apply(s, a))
  {
    hide Inv, TasksOk, ResultsOk, DoAdvance, DoUnload;
    StepPreservesInv(s, a);
    match a
    case Advance(t, loads) =>
      if t < |s.tasks| {
        AdvanceTasks(s, t, loads);
        AdvanceResults(s, t, loads);
      }
    case Call(name) =>
      ElseTasks(s, a);
      ResultsKept(s, Apply(s, a));
    case Unload(name) =>
      ElseTasks(s, a);
      ResultsUnload(s, name);
  }

  lemma {:induction false} CoarseAlways(run: seq<Action>)
    requires PoliteRun(run)
    ensures CoarseInv(Exec(run))
    decreases |run|
  {
    hide Apply, Polite;
    if run != [] {
      CoarseAlways(run[..|run|-1]);
      StepPreservesCoarse(Exec(run[..|run|-1]), run[|run|-1]);
    }
  }

  /** No entry is ever overwritten: while it is there it is the same document, and only an unload
      takes it away. */
  lemma NeverOverwrites(run: seq<Action>, a: Action, name: string)
    requires PoliteRun(run) && Polite(Exec(run), a) && name in Exec(run).docs
    ensures name in Apply(Exec(run), a).docs ==> Apply(Exec(run), a).docs[name] == Exec(run).docs[name]
    ensures name !in Apply(Exec(run), a).docs ==> a == Unload(name)
  {
    hide Exec, Inv, ResultsOk, PoliteRun, Polite, Blank, Epoch;
    CoarseAlways(run);
    var s := Exec(run);
    if a.Advance? && a.t < |s.tasks| {
      TaskAt(s, a.t);
    }
  }

  /** Any two callers that are answered with a document between two unloads of a name are answered
      with the identical document, and while that lasts it is the entry of the name. */
  lemma OneDocumentBetweenUnloads(run: seq<Action>, i: nat, j: nat)
    requires PoliteRun(run) && i < |Exec(run).results| && j < |Exec(run).results|
    requires SameEpoch(Exec(run).results[i], Exec(run).results[j])
    ensures Exec(run).results[i].answer == Exec(run).results[j].answer
    ensures var s, r := Exec(run), Exec(run).results[i];
            r.epoch == Epoch(s, r.name) ==> r.name in s.docs && s.docs[r.name] == r.answer.doc
  {
    hide Exec, Inv, TasksOk;
    CoarseAlways(run);
    assert ResultOk(Exec(run), Exec(run).results[i]);
  }

  // ---------------------------------------------------------------- one turn of a task

  function Rank(pc: Pc): nat {
    match pc
    case Looking => 7
    case AtLock(_) => 6
    case Rechecking => 5
    case Inserting => 4
    case AtOther(_) => 3
    case RecheckingOther => 2
    case Setting(_, _) => 3
    case Publishing(_, _) => 2
    case Removing(_, _) => 1
    case _ => 0
  }

  lemma RankFalls(s: State, t: nat)
    requires Mid(s, t)
    ensures |DoAdvance(s, t, true).tasks| == |s.tasks|
    ensures Rank(DoAdvance(s, t, true).tasks[t].pc) < Rank(s.tasks[t].pc)
  {
    hide DoAdvance, Rank;
    match s.tasks[t].pc
    case Setting(_, _) => RankFallsLate(s, t);
    case Publishing(_, _) => RankFallsLate(s, t);
    case Removing(_, _) => RankFallsLate(s, t);
    case Inserting => RankFallsInserting(s, t);
    case _ => RankFallsEarly(s, t);
  }

  lemma RankFallsEarly(s: State, t: nat)
    requires Mid(s, t) && !s.tasks[t].pc.InFlight() && !s.tasks[t].pc.Inserting?
    ensures |DoAdvance(s, t, true).tasks| == |s.tasks|
    ensures Rank(DoAdvance(s, t, true).tasks[t].pc) < Rank(s.tasks[t].pc)
  {
    hide Epoch, DoInsert, DoLoad, DoSet, Blank, Consult;
    match s.tasks[t].pc
    case AtLock(l) => ConsultFalls(s, t, l, Rechecking);
    case AtOther(l) => ConsultFalls(s, t, l, RecheckingOther);
    case _ =>
  }

  lemma ConsultFalls(s: State, t: nat, l: nat, otherwise: Pc)
    requires t < |s.tasks|
    ensures |Consult(s, t, l, otherwise).tasks| == |s.tasks|
    ensures var pc := Consult(s, t, l, otherwise).tasks[t].pc; pc == otherwise || pc == Finished
  {
    hide Epoch;
  }

  lemma RankFallsInserting(s: State, t: nat)
    requires Mid(s, t) && s.tasks[t].pc.Inserting?
    ensures |DoAdvance(s, t, true).tasks| == |s.tasks|
    ensures Rank(DoAdvance(s, t, true).tasks[t].pc) < Rank(s.tasks[t].pc)
  {
    hide Epoch, DoLoad, DoSet, Consult, Blank;
  }

  lemma RankFallsLate(s: State, t: nat)
    requires Mid(s, t) && s.tasks[t].pc.InFlight()
    ensures |DoAdvance(s, t, true).tasks| == |s.tasks|
    ensures Rank(DoAdvance(s, t, true).tasks[t].pc) < Rank(s.tasks[t].pc)
  {
    hide Epoch, DoInsert, DoLoad, Consult, Blank;
  }

  /** Lets the task go on until it is at rest again. */
  function Settle(s: State, t: nat): State
    requires t < |s.tasks|
    decreases Rank(s.tasks[t].pc)
  {
    if Mid(s, t) then
      RankFalls(s, t);
      Settle(DoAdvance(s, t, true), t)
    else s
  }

  function Turn(s: State, t: nat, loads: bool): State
    requires t < |s.tasks| && s.tasks[t].pc.AtRest()
  {
    TurnKeepsTasks(s, t, loads);
    Settle(DoAdvance(s, t, loads), t)
  }

  lemma TurnKeepsTasks(s: State, t: nat, loads: bool)
    requires t < |s.tasks| && s.tasks[t].pc.AtRest()
    ensures |DoAdvance(s, t, loads).tasks| == |s.tasks|
  {
    hide Epoch, Blank;
  }

  predicate Quiet(s: State) {
    forall t :: 0 <= t < |s.tasks| ==> s.tasks[t].pc.AtRest()
  }

  lemma SettleStep(s: State, t: nat, pc: Pc)
    requires t < |s.tasks| && !pc.AtRest()
    ensures var s1 := Goto(s, t, pc);
            |DoAdvance(s1, t, true).tasks| == |s.tasks| && Settle(s1, t) == Settle(DoAdvance(s1, t, true), t)
  {
    hide DoAdvance;
    RankFalls(Goto(s, t, pc), t);
  }

  lemma SettleRest(s: State, t: nat)
    requires t < |s.tasks| && s.tasks[t].pc.AtRest()
    ensures Settle(s, t) == s
  {
  }

  lemma GotoAgain(s: State, t: nat, pc: Pc, pc': Pc, answer: Answer)
    requires t < |s.tasks|
    ensures Goto(Goto(s, t, pc), t, pc') == Goto(s, t, pc') && Finish(Goto(s, t, pc), t, answer) == Finish(s, t, answer)
  {
    assert s.tasks[t := s.tasks[t].(pc := pc)][t := s.tasks[t].(pc := pc')] == s.tasks[t := s.tasks[t].(pc := pc')];
    assert s.tasks[t := s.tasks[t].(pc := pc)][t := s.tasks[t].(pc := Finished)]
        == s.tasks[t := s.tasks[t].(pc := Finished)];
  }

  lemma HopSettles(s: State, t: nat, pc: Pc, pc': Pc)
    requires t < |s.tasks| && !pc.AtRest()
    requires DoAdvance(Goto(s, t, pc), t, true) == Goto(Goto(s, t, pc), t, pc')
    ensures Settle(Goto(s, t, pc), t) == Settle(Goto(s, t, pc'), t)
  {
    hide DoAdvance, Settle;
    SettleStep(s, t, pc);
    GotoAgain(s, t, pc, pc', Failed);
  }

  lemma FoundSettles(s: State, t: nat, l: nat)
    requires t < |s.tasks| && s.tasks[t].name !in s.docs && s.tasks[t].name in s.loading
    requires s.loading[s.tasks[t].name] == l && Unanswered(s, l)
    ensures Settle(Goto(s, t, Looking), t) == Finish(s, t, Failed)
  {
    hide Settle, Epoch, DoLoad, DoSet;
    HopSettles(s, t, Looking, AtLock(l));
    HopSettles(s, t, AtLock(l), Rechecking);
    HopSettles(s, t, Rechecking, Inserting);
    BusySettles(s, t, l);
  }

  lemma BusySettles(s: State, t: nat, l: nat)
    requires t < |s.tasks| && s.tasks[t].name !in s.docs && s.tasks[t].name in s.loading
    requires s.loading[s.tasks[t].name] == l && Unanswered(s, l)
    ensures Settle(Goto(s, t, Inserting), t) == Finish(s, t, Failed)
  {
    hide Settle, Epoch, DoLoad, DoSet;
    HopSettles(s, t, Inserting, AtOther(l));
    HopSettles(s, t, AtOther(l), RecheckingOther);
    SettleStep(s, t, RecheckingOther);
    GotoAgain(s, t, RecheckingOther, Finished, Failed);
    SettleRest(Finish(s, t, Failed), t);
  }

  function Started(s: State, t: nat): State
    requires t < |s.tasks|
  {
    var name := s.tasks[t].name;
    Goto(s, t, Loading(|s.locks|)).(locks := s.locks + [Lock(name, None)], loading := s.loading[name := |s.locks|])
  }

  lemma FreshSettles(s: State, t: nat)
    requires t < |s.tasks| && s.tasks[t].name !in s.docs && s.tasks[t].name !in s.loading
    ensures Settle(Goto(s, t, Looking), t) == Started(s, t)
  {
    hide Settle;
    HopSettles(s, t, Looking, Inserting);
    SettleStep(s, t, Inserting);
    GotoAgain(s, t, Inserting, Loading(|s.locks|), Failed);
    SettleRest(Started(s, t), t);
  }

  lemma AsleepIsUnanswered(s: State, name: string)
    requires CoarseInv(s) && Quiet(s) && name in s.loading
    ensures Unanswered(s, s.loading[name])
  {
    var u: nat :| Loads(s, u, name);
    assert HoldsEntry(s, u);
    assert TaskOk(s, s.tasks[u]);
  }

  /** Who asks for a document is answered at once, with the entry, or with a failure if another
      caller is loading the document; otherwise he starts the load. */
  lemma CallIsAtomic(s: State, t: nat)
    requires CoarseInv(s) && Quiet(s) && t < |s.tasks| && s.tasks[t].pc.Checking?
    ensures var name := s.tasks[t].name;
            Turn(s, t, true)
            == if Blank(name) then Finish(s, t, Failed)
               else if name in s.docs then Finish(s, t, Ok(s.docs[name]))
               else if name in s.loading then Finish(s, t, Failed)
               else Started(s, t)
  {
    hide CoarseInv, Quiet, Blank, Epoch, Settle, Started;
    var name := s.tasks[t].name;
    if Blank(name) {
      SettleRest(Finish(s, t, Failed), t);
    } else if name in s.docs {
      SettleRest(Finish(s, t, Ok(s.docs[name])), t);
    } else if name in s.loading {
      AsleepIsUnanswered(s, name);
      FoundSettles(s, t, s.loading[name]);
    } else {
      FreshSettles(s, t);
    }
  }

  /** The end of a load: the lock has the answer, nobody is loading the name any more, and if the
      load went well the new document is the entry. */
  function Done(s: State, t: nat, loads: bool): State
    requires t < |s.tasks| && s.tasks[t].pc.Loading? && s.tasks[t].pc.lock < |s.locks|
  {
    var name, lock, answer := s.tasks[t].name, s.tasks[t].pc.lock, if loads then Ok(|s.loaded|) else Failed;
    Finish(s, t, answer).(loading := s.loading - {name},
                          locks := s.locks[lock := s.locks[lock].(answer := Some(answer))],
                          docs := if loads then s.docs[name := |s.loaded|] else s.docs,
                          loaded := if loads then s.loaded + [name] else s.loaded)
  }

  lemma LoadIsAtomic(s: State, t: nat, loads: bool)
    requires CoarseInv(s) && Quiet(s) && t < |s.tasks| && s.tasks[t].pc.Loading?
    ensures s.tasks[t].pc.lock < |s.locks| && Turn(s, t, loads) == Done(s, t, loads)
  {
    hide TasksOk, ResultsOk, LoadsOk, Quiet;
    assert PcOk(s, s.tasks[t]);
    LoadSettles(s, t, s.tasks[t].pc.lock, loads);
  }

  lemma LoadSettles(s: State, t: nat, lock: nat, loads: bool)
    requires t < |s.tasks| && s.tasks[t].pc == Loading(lock) && lock < |s.locks|
    ensures |DoAdvance(s, t, loads).tasks| == |s.tasks| && Settle(DoAdvance(s, t, loads), t) == Done(s, t, loads)
  {
    hide Settle;
    var answer := if loads then Ok(|s.loaded|) else Failed;
    var a := s.(loaded := if loads then s.loaded + [s.tasks[t].name] else s.loaded);
    assert DoAdvance(s, t, loads) == Goto(a, t, Setting(lock, answer));
    SettleStep(a, t, Setting(lock, answer));
    var b := a.(locks := s.locks[lock := s.locks[lock].(answer := Some(answer))]);
    if loads {
      GotoAgain(b, t, Setting(lock, answer), Publishing(lock, |s.loaded|), answer);
      SettleStep(b, t, Publishing(lock, |s.loaded|));
      var c := b.(docs := s.docs[s.tasks[t].name := |s.loaded|]);
      GotoAgain(c, t, Publishing(lock, |s.loaded|), Removing(lock, answer), answer);
      RemoveSettles(c, t, lock, answer);
    } else {
      GotoAgain(b, t, Setting(lock, answer), Removing(lock, answer), answer);
      RemoveSettles(b, t, lock, answer);
    }
  }

  lemma RemoveSettles(s: State, t: nat, lock: nat, answer: Answer)
    requires t < |s.tasks|
    ensures Settle(Goto(s, t, Removing(lock, answer)), t) == Finish(s.(loading := s.loading - {s.tasks[t].name}), t, answer)
  {
    hide Settle, Epoch;
    SettleStep(s, t, Removing(lock, answer));
    GotoAgain(s.(loading := s.loading - {s.tasks[t].name}), t, Removing(lock, answer), Finished, answer);
    SettleRest(Finish(s.(loading := s.loading - {s.tasks[t].name}), t, answer), t);
  }
}
