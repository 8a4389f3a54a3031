/** What each block of `create_document` does, said of the maps before and after it and under any
    interleaving, and which answers callers get in the end. */
module CreateDocumentOutcomes {
  import opened Wrappers
  import opened CreateDocumentModel

  /** The task is told `answer`, and nothing else happens to the tasks. */
  ghost predicate Answered(s: State, s': State, t: nat, answer: Answer) {
    && t < |s.tasks| && s'.tasks == s.tasks[t := Task(s.tasks[t].name, Finished)]
    && s'.results == s.results + [Result(s.tasks[t].name, Epoch(s, s.tasks[t].name), answer)]
  }

  /** The task goes on, and nobody is told anything. */
  ghost predicate GoesOn(s: State, s': State, t: nat, pc: Pc) {
    t < |s.tasks| && s'.tasks == s.tasks[t := Task(s.tasks[t].name, pc)] && s'.results == s.results
  }

  ghost predicate MapsStay(s: State, s': State) {
    s'.docs == s.docs && s'.loading == s.loading && s'.locks == s.locks && s'.loaded == s.loaded && s'.epochs == s.epochs
  }

  /** Each of the three looks into the documents answers with the entry if there is one, except that
      a blank name is refused before the first. Without an entry the caller goes on, or fails. */
  lemma LooksAnswer(s: State, t: nat, loads: bool)
    requires t < |s.tasks| && (s.tasks[t].pc.Checking? || s.tasks[t].pc.Rechecking? || s.tasks[t].pc.RecheckingOther?)
    ensures var s', name, pc := Apply(s, Advance(t, loads)), s.tasks[t].name, s.tasks[t].pc;
            && MapsStay(s, s')
            && if pc.Checking? && (forall c :: c in name ==> IsWhitespace(c)) then Answered(s, s', t, Failed)
               else if name in s.docs then Answered(s, s', t, Ok(s.docs[name]))
               else if pc.Checking? then GoesOn(s, s', t, Looking)
               else if pc.Rechecking? then GoesOn(s, s', t, Inserting)
               else Answered(s, s', t, Failed)
  {
    hide IsWhitespace;
  }

  /** The lock of another's load answers if it has an answer, success or failure; otherwise the caller
      looks into the documents again. */
  lemma LocksAnswer(s: State, t: nat, loads: bool)
    requires t < |s.tasks| && (s.tasks[t].pc.AtLock? || s.tasks[t].pc.AtOther?)
    requires s.tasks[t].pc.lock < |s.locks|
    ensures var s', answer := Apply(s, Advance(t, loads)), s.locks[s.tasks[t].pc.lock].answer;
            && MapsStay(s, s')
            && match answer
               case Some(a) => Answered(s, s', t, a)
               case None => GoesOn(s, s', t, if s.tasks[t].pc.AtLock? then Rechecking else RecheckingOther)
  {
    hide Blank;
  }

  /** A load in progress is found by its name; who finds none becomes the loader, with a lock of his
      own that has no answer, unless there is one by then. */
  lemma LoadsAreFound(s: State, t: nat, loads: bool)
    requires t < |s.tasks| && (s.tasks[t].pc.Looking? || s.tasks[t].pc.Inserting?)
    ensures var s', name, found := Apply(s, Advance(t, loads)), s.tasks[t].name, s.tasks[t].name in s.loading;
            && s'.docs == s.docs && s'.loaded == s.loaded && s'.epochs == s.epochs
            && (s.tasks[t].pc.Looking? ==>
                  MapsStay(s, s') && GoesOn(s, s', t, if found then AtLock(s.loading[name]) else Inserting))
            && (s.tasks[t].pc.Inserting? && found ==> MapsStay(s, s') && GoesOn(s, s', t, AtOther(s.loading[name])))
            && (s.tasks[t].pc.Inserting? && !found ==>
                  && GoesOn(s, s', t, Loading(|s.locks|)) && s'.locks == s.locks + [Lock(name, None)]
                  && s'.loading == s.loading[name := |s.locks|])
  {
    hide Blank, Epoch;
  }

  /** A loader goes through its steps: the document comes to be, the lock is answered, a document
      becomes the entry, the name is no longer being loaded, and the loader is answered. */
  lemma LoaderGoesOn(s: State, t: nat, loads: bool)
    requires t < |s.tasks| && s.tasks[t].pc.InFlight() && s.tasks[t].pc.lock < |s.locks|
    ensures var s', name, l := Apply(s, Advance(t, loads)), s.tasks[t].name, s.tasks[t].pc.lock;
            match s.tasks[t].pc
            case Loading(_) =>
              && MapsStay(s.(loaded := s'.loaded), s')
              && s'.loaded == (if loads then s.loaded + [name] else s.loaded)
              && GoesOn(s, s', t, Setting(l, if loads then Ok(|s.loaded|) else Failed))
            case Setting(_, answer) =>
              && MapsStay(s.(locks := s'.locks), s') && s'.locks == s.locks[l := Lock(s.locks[l].name, Some(answer))]
              && GoesOn(s, s', t, if answer.Ok? then Publishing(l, answer.doc) else Removing(l, Failed))
            case Publishing(_, doc) =>
              && MapsStay(s.(docs := s'.docs), s') && s'.docs == s.docs[name := doc]
              && GoesOn(s, s', t, Removing(l, Ok(doc)))
            case Removing(_, answer) =>
              && MapsStay(s.(loading := s'.loading), s') && s'.loading == s.loading - {name}
              && Answered(s, s', t, answer)
            case _ => true
  {
    hide Blank;
  }

  /** After an unload the name has no entry; tasks, loads and answers are not touched. */
  lemma UnloadForgets(s: State, name: string)
    ensures var s' := Apply(s, Unload(name));
            && s'.docs == s.docs - {name} && s'.loading == s.loading && s'.locks == s.locks
            && s'.tasks == s.tasks && s'.results == s.results && s'.loaded == s.loaded
            && Epoch(s', name) == Epoch(s, name) + (if name in s.docs then 1 else 0)
  {
  }

  /** A step moves one task, or adds one, and tells at most that one something. */
  ghost predicate OneMoves(s: State, s': State, a: Action) {
    && s.results <= s'.results
    && match a
       case Call(name) => s'.tasks == s.tasks + [Task(name, Checking)]
       case Unload(_) => s'.tasks == s.tasks
       case Advance(t, _) =>
         if t >= |s.tasks| || s.tasks[t].pc.Finished? then s' == s
         else |s'.tasks| == |s.tasks| && s'.tasks == s.tasks[t := s'.tasks[t]] && s'.tasks[t].name == s.tasks[t].name
  }

  lemma LockInRange(s: State, t: nat)
    requires Inv(s) && t < |s.tasks|
    ensures s.tasks[t].pc.InFlight() || s.tasks[t].pc.AtLock? || s.tasks[t].pc.AtOther? ==> s.tasks[t].pc.lock < |s.locks|
  {
    hide LoadsOk, AnswerOk, DocOk;
    assert PcOk(s, s.tasks[t]);
  }

  lemma StepMovesOne(s: State, a: Action)
    requires Inv(s)
    ensures OneMoves(s, Apply(s, a), a)
  {
    hide Inv, DoAdvance, MapsStay, Epoch, IsWhitespace;
    if a.Advance? && a.t < |s.tasks| {
      LockInRange(s, a.t);
      match s.tasks[a.t].pc
      case Checking => LooksAnswer(s, a.t, a.loads);
      case Rechecking => LooksAnswer(s, a.t, a.loads);
      case RecheckingOther => LooksAnswer(s, a.t, a.loads);
      case AtLock(_) => LocksAnswer(s, a.t, a.loads);
      case AtOther(_) => LocksAnswer(s, a.t, a.loads);
      case Looking => LoadsAreFound(s, a.t, a.loads);
      case Inserting => LoadsAreFound(s, a.t, a.loads);
      case Finished => FinishedIsDone(s, a.t, a.loads);
      case _ => LoaderGoesOn(s, a.t, a.loads);
    }
  }

  lemma FinishedIsDone(s: State, t: nat, loads: bool)
    requires t < |s.tasks| && s.tasks[t].pc.Finished?
    ensures Apply(s, Advance(t, loads)) == s
  {
  }

  // ---------------------------------------------------------------- a loader gets its own answer

  /** The load of the task has given `answer`, which it has not been told yet. */
  predicate Carries(s: State, t: nat, answer: Answer) {
    t < |s.tasks| &&
    match s.tasks[t].pc
    case Setting(_, a) => a == answer
    case Publishing(_, doc) => answer == Ok(doc)
    case Removing(_, a) => a == answer
    case _ => false
  }

  ghost predicate ToldSince(s: State, s': State, t: nat, name: string, answer: Answer) {
    && t < |s'.tasks| && s'.tasks[t] == Task(name, Finished)
    && exists i :: |s.results| <= i < |s'.results| && s'.results[i].name == name && s'.results[i].answer == answer
  }

  lemma CarriedOn(s: State, a: Action, t: nat, answer: Answer)
    requires Inv(s) && Carries(s, t, answer)
    ensures var s' := Apply(s, a);
            && |s.results| <= |s'.results|
            && ((Carries(s', t, answer) && s'.tasks[t].name == s.tasks[t].name)
                || ToldSince(s, s', t, s.tasks[t].name, answer))
  {
    hide Inv, Apply, MapsStay, Epoch;
    StepMovesOne(s, a);
    if a.Advance? && a.t == t {
      LockInRange(s, t);
      LoaderGoesOn(s, t, a.loads);
      if s.tasks[t].pc.Removing? {
        assert Apply(s, a).results[|s.results|].answer == answer;
      }
    }
  }

  /** Whatever the other tasks and unloads do in between, a loader is told what its own load gave: at
      any later time it still carries that answer, or it has been told it. */
  lemma {:induction false} LoaderGetsItsAnswer(run: seq<Action>, more: seq<Action>, t: nat, answer: Answer)
    requires Carries(Exec(run), t, answer)
    ensures var s, s' := Exec(run), Exec(run + more);
            && |s.results| <= |s'.results|
            && ((Carries(s', t, answer) && s'.tasks[t].name == s.tasks[t].name)
                || ToldSince(s, s', t, s.tasks[t].name, answer))
    decreases |more|
  {
    hide Exec, Apply, Inv;
    if more == [] {
      assert run + more == run;
    } else {
      var n := |more| - 1;
      LoaderGetsItsAnswer(run, more[..n], t, answer);
      assert (run + more)[..|run| + n] == run + more[..n];
      LastStep(run + more);
      InvAlways(run + more[..n]);
      if Carries(Exec(run + more[..n]), t, answer) {
        CarriedOn(Exec(run + more[..n]), more[n], t, answer);
      } else {
        StepMovesOne(Exec(run + more[..n]), more[n]);
      }
    }
  }

  lemma LastStep(run: seq<Action>)
    requires run != []
    ensures Exec(run) == Apply(Exec(run[..|run|-1]), run[|run|-1])
  {
  }

  // ---------------------------------------------------------------- an answer is final

  /** A lock of which the load is not over has no answer. */
  predicate Unanswered(s: State, t: nat) {
    t < |s.tasks| && (s.tasks[t].pc.Loading? || s.tasks[t].pc.Setting?) ==>
      s.tasks[t].pc.lock < |s.locks| && s.locks[s.tasks[t].pc.lock].answer == None
  }

  ghost predicate NoneEarly(s: State) {
    forall t: nat :: Unanswered(s, t)
  }

  /** Two loads never have the same lock. */
  lemma LocksDiffer(s: State, t: nat, u: nat)
    requires Inv(s) && t < |s.tasks| && u < |s.tasks| && s.tasks[t].pc.InFlight() && s.tasks[u].pc.InFlight()
    requires s.tasks[t].pc.lock == s.tasks[u].pc.lock
    ensures t == u
  {
    hide AnswerOk, DocOk;
    assert PcOk(s, s.tasks[t]) && PcOk(s, s.tasks[u]);
    assert HoldsEntry(s, t) && HoldsEntry(s, u);
    assert Loads(s, t, s.tasks[t].name) && Loads(s, u, s.tasks[t].name);
  }

  /** What a step does to the locks: one more without answer, or an answer to the lock of the task. */
  ghost predicate LocksMove(s: State, s': State, a: Action) {
    || s'.locks == s.locks
    || (a.Advance? && a.t < |s.tasks| && s.tasks[a.t].pc.Inserting? && s'.locks == s.locks + [Lock(s.tasks[a.t].name, None)])
    || (a.Advance? && a.t < |s.tasks| && s.tasks[a.t].pc.Setting? && s.tasks[a.t].pc.lock < |s.locks|
        && s'.locks == s.locks[s.tasks[a.t].pc.lock := Lock(s.locks[s.tasks[a.t].pc.lock].name, Some(s.tasks[a.t].pc.answer))])
  }

  lemma LocksMoveSo(s: State, a: Action)
    ensures LocksMove(s, Apply(s, a), a)
  {
    hide Blank, Epoch, IsWhitespace;
  }

  lemma OwnMove(s: State, t: nat, loads: bool)
    requires Inv(s) && t < |s.tasks| && Unanswered(s, t)
    ensures Unanswered(Apply(s, Advance(t, loads)), t)
  {
    hide Inv, Apply, Epoch;
    StepMovesOne(s, Advance(t, loads));
    LockInRange(s, t);
    match s.tasks[t].pc
    case Checking => LooksAnswer(s, t, loads);
    case Rechecking => LooksAnswer(s, t, loads);
    case RecheckingOther => LooksAnswer(s, t, loads);
    case AtLock(_) => LocksAnswer(s, t, loads);
    case AtOther(_) => LocksAnswer(s, t, loads);
    case Looking => LoadsAreFound(s, t, loads);
    case Inserting => LoadsAreFound(s, t, loads);
    case Finished =>
    case _ => LoaderGoesOn(s, t, loads);
  }

  lemma StepKeepsUnanswered(s: State, a: Action, t: nat)
    requires Inv(s) && Unanswered(s, t)
    ensures Unanswered(Apply(s, a), t)
  {
    hide Apply, Inv;
    LocksMoveSo(s, a);
    StepMovesOne(s, a);
    if a.Advance? && a.t == t && t < |s.tasks| {
      OwnMove(s, t, a.loads);
    } else if t < |s.tasks| {
      if a.Advance? && a.t < |s.tasks| && s.tasks[a.t].pc.Setting? && s.tasks[t].pc.InFlight()
         && s.tasks[t].pc.lock == s.tasks[a.t].pc.lock {
        LocksDiffer(s, t, a.t);
      }
    }
  }

  lemma {:induction false} NoneEarlyAlways(run: seq<Action>)
    ensures NoneEarly(Exec(run))
    decreases |run|
  {
    hide Apply, Unanswered, Inv;
    if run != [] {
      NoneEarlyAlways(run[..|run|-1]);
      InvAlways(run[..|run|-1]);
      forall t: nat ensures Unanswered(Exec(run), t) {
        StepKeepsUnanswered(Exec(run[..|run|-1]), run[|run|-1], t);
      }
    } else {
      forall t: nat ensures Unanswered(INIT, t) { NobodyAtFirst(t); }
    }
  }

  lemma NobodyAtFirst(t: nat)
    ensures Unanswered(INIT, t)
  {
  }

  /** Once a lock has an answer it keeps it, so that all who wait for one load are told the same. */
  lemma {:induction false} AnswerIsFinal(run: seq<Action>, more: seq<Action>, lock: nat)
    requires lock < |Exec(run).locks| && Exec(run).locks[lock].answer.Some?
    ensures lock < |Exec(run + more).locks| && Exec(run + more).locks[lock] == Exec(run).locks[lock]
    decreases |more|
  {
    hide Exec, Apply, NoneEarly;
    if more == [] {
      assert run + more == run;
    } else {
      var n := |more| - 1;
      AnswerIsFinal(run, more[..n], lock);
      assert (run + more)[..|run| + n] == run + more[..n];
      LastStep(run + more);
      NoneEarlyAlways(run + more[..n]);
      AnswerStays(Exec(run + more[..n]), more[n], lock);
    }
  }

  lemma AnswerStays(s: State, a: Action, lock: nat)
    requires NoneEarly(s) && lock < |s.locks| && s.locks[lock].answer.Some?
    ensures lock < |Apply(s, a).locks| && Apply(s, a).locks[lock] == s.locks[lock]
  {
    hide Apply;
    LocksMoveSo(s, a);
    assert a.Advance? ==> Unanswered(s, a.t);
  }
}
