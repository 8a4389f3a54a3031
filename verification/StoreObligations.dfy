/** No write without a store, on top of `StorePipelineModel`. For every integrated update a store
    begins after it, or a live task will begin one - unless another `Document` object of the same
    name makes a debounce call that displaces the only task that would. */
module StoreObligations {
  import opened StorePipelineModel
  import D = DebouncerModel

  /** A store of the document of update `u` began after `u` was integrated. */
  ghost predicate StoredAfter(s: State, u: nat)
    requires u < |s.updates|
  {
    exists i :: 0 <= i < |s.attempts| && s.attempts[i].doc == s.updates[u] && u < s.attempts[i].seen
  }

  /** Task `t` is live, belongs to `doc`, and has yet to begin its store. */
  ghost predicate WillStore(s: State, t: nat, doc: Doc) {
    && t in s.deb.tasks && s.deb.tasks[t].call < |s.callDoc| && DocOf(s, t) == doc
    && (s.deb.tasks[t].pc.PreStart() || RunsHook(s, t, AtMutex))
  }

  ghost predicate Obliged(s: State, u: nat)
    requires u < |s.updates|
  {
    StoredAfter(s, u) || u in s.observers || exists t :: WillStore(s, t, s.updates[u])
  }

  /** A debounce call for the document is made. */
  predicate Calls(s: State, a: Action, doc: Doc) {
    match a
    case Observe(u, _, _) => u < |s.updates| && s.updates[u] == doc
    case StoreNow(d, _) => d == doc
    case _ => false
  }

  predicate IsTimer(s: State, t: nat, name: string) {
    DebounceId(name) in s.deb.timers && s.deb.timers[DebounceId(name)].task == t
  }

  /** Another object of the name makes a call, while the timer that it drops is all there is. */
  ghost predicate Displaces(s: State, a: Action, u: nat)
    requires u < |s.updates|
  {
    && (exists doc :: Calls(s, a, doc) && doc != s.updates[u] && doc.name == s.updates[u].name)
    && !StoredAfter(s, u) && u !in s.observers
    && forall t :: WillStore(s, t, s.updates[u]) ==> IsTimer(s, t, s.updates[u].name)
  }

  lemma SameIdSameName(a: string, b: string)
    requires DebounceId(a) == DebounceId(b)
    ensures a == b
  {
    assert a == DebounceId(a)[|"onStoreDocument-"|..] && b == DebounceId(b)[|"onStoreDocument-"|..];
  }

  lemma IdOfTask(s: State, t: nat, doc: Doc)
    requires Inv(s) && WillStore(s, t, doc)
    ensures s.deb.tasks[t].id == DebounceId(doc.name)
  {
    hide HooksOk, StartsStore, AttemptsOk, UpdatesOk, D.TimersOk, D.StartsOk, D.AbortedOk, D.MarksOk, D.CoverOk;
  }

  // ---------------------------------------------------------------- a call

  /** What a call does to the tasks: it drops the timer of its id, and adds a task of its own. */
  lemma CallShape(s: State, doc: Doc, d: nat, m: nat)
    requires Inv(s)
    ensures var id, s', next := DebounceId(doc.name), CallDebounce(s, doc, d, m), s.deb.nextTask;
            && next !in s.deb.tasks && next in s'.deb.tasks
            && s'.deb.tasks[next].call == |s.callDoc| && s'.deb.tasks[next].pc.PreStart()
            && (forall t :: t != next ==>
                  (t in s'.deb.tasks <==> t in s.deb.tasks && !(id in s.deb.timers && s.deb.timers[id].task == t)))
            && (forall t :: t != next && t in s'.deb.tasks ==> s'.deb.tasks[t] == s.deb.tasks[t])
  {
    hide HooksOk, StartsStore, AttemptsOk, UpdatesOk, D.TimersOk, D.StartsOk, D.AbortedOk, D.MarksOk, D.CoverOk;
  }

  lemma CallKeepsTask(s: State, doc: Doc, d: nat, m: nat, t: nat, mine: Doc)
    requires Inv(s) && WillStore(s, t, mine)
    ensures WillStore(CallDebounce(s, doc, d, m), t, mine) <==> !IsTimer(s, t, doc.name)
  {
    hide Inv, D.DoDebounce;
    CallShape(s, doc, d, m);
  }

  lemma CallAddsTask(s: State, doc: Doc, d: nat, m: nat)
    requires Inv(s)
    ensures WillStore(CallDebounce(s, doc, d, m), s.deb.nextTask, doc)
  {
    CallShape(s, doc, d, m);
    hide D.Inv, HooksOk, StartsStore, AttemptsOk, UpdatesOk, D.DoDebounce;
  }

  lemma CallAddsNoOther(s: State, doc: Doc, d: nat, m: nat, t: nat, mine: Doc)
    requires Inv(s) && WillStore(CallDebounce(s, doc, d, m), t, mine) && doc != mine
    ensures WillStore(s, t, mine)
  {
    TaskHasDocAgain(s, t);
    CallShape(s, doc, d, m);
    hide Inv, D.DoDebounce;
  }

  lemma TaskHasDocAgain(s: State, t: nat)
    requires Inv(s)
    ensures t in s.deb.tasks ==> s.deb.tasks[t].call < |s.callDoc|
  {
  }

  /** The timer that a call drops belongs to a document of the call's name. */
  lemma TimerOfName(s: State, t: nat, mine: Doc, name: string)
    requires Inv(s) && WillStore(s, t, mine) && IsTimer(s, t, name)
    ensures mine.name == name
  {
    IdOfTask(s, t, mine);
    assert s.deb.tasks[t].id == DebounceId(name) by {
      hide HooksOk, StartsStore, AttemptsOk, UpdatesOk, D.TasksOk, D.StartsOk, D.AbortedOk, D.MarksOk, D.CoverOk;
    }
    hide Inv;
    SameIdSameName(mine.name, name);
  }

  /** The call itself keeps the obligation exactly unless it displaces. */
  lemma CallKeepsObligation(s: State, doc: Doc, d: nat, m: nat, u: nat)
    requires Inv(s) && u < |s.updates| && !StoredAfter(s, u)
    ensures var s', mine := CallDebounce(s, doc, d, m), s.updates[u];
            (exists t :: WillStore(s', t, mine))
            <==> doc == mine || exists t :: WillStore(s, t, mine) && !(doc.name == mine.name && IsTimer(s, t, mine.name))
  {
    hide Inv, D.DoDebounce, WillStore, IsTimer, CallDebounce;
    var s', mine := CallDebounce(s, doc, d, m), s.updates[u];
    if doc == mine {
      CallAddsTask(s, doc, d, m);
    } else {
      forall t ensures WillStore(s', t, mine)
                       <==> WillStore(s, t, mine) && !(doc.name == mine.name && IsTimer(s, t, mine.name))
      {
        if WillStore(s, t, mine) {
          CallKeepsTask(s, doc, d, m, t, mine);
          if IsTimer(s, t, doc.name) { TimerOfName(s, t, mine, doc.name); }
        } else if WillStore(s', t, mine) {
          CallAddsNoOther(s, doc, d, m, t, mine);
        }
      }
    }
  }

  // ---------------------------------------------------------------- every other step

  ghost predicate LogsGrow(s: State, s': State) {
    s.updates <= s'.updates && s.attempts <= s'.attempts
  }

  lemma StoredStays(s: State, s': State, u: nat)
    requires u < |s.updates| && LogsGrow(s, s') && StoredAfter(s, u)
    ensures StoredAfter(s', u)
  {
    var i :| 0 <= i < |s.attempts| && s.attempts[i].doc == s.updates[u] && u < s.attempts[i].seen;
    assert s'.attempts[i] == s.attempts[i] && s'.updates[u] == s.updates[u];
  }

  /** A step of the debouncer on its own: a task moves on, or the timer of an id hands its call on. */
  lemma DebouncerKeepsTask(s: State, b: D.Action, t: nat, doc: Doc)
    requires Inv(s) && Enabled(s, Debouncer(b)) && WillStore(s, t, doc)
    ensures exists t' :: WillStore(Apply(s, Debouncer(b)), t', doc)
  {
    hide D.Inv, HooksOk, CallsOk, StartsStore, AttemptsOk, UpdatesOk, D.Apply;
    var s' := Apply(s, Debouncer(b));
    if b.ExecuteNow? && b.id in s.deb.timers && s.deb.timers[b.id].task == t {
      HandedOn(s.deb, b.id);
      assert WillStore(s', s.deb.nextTask, doc);
    } else {
      TaskGoesOn(s.deb, b, t) by { HookIsRunning(s, t); }
      assert WillStore(s', t, doc);
    }
  }

  lemma HookIsRunning(s: State, t: nat)
    requires Inv(s)
    ensures t in s.hooks ==> t in s.deb.tasks && s.deb.tasks[t].pc.Running?
    ensures D.TasksOk(s.deb) && D.TimersOk(s.deb)
  {
  }

  lemma HandedOn(s: D.State, id: string)
    requires D.Inv(s) && id in s.timers
    ensures var s' := D.Apply(s, D.ExecuteNow(id));
            s.nextTask in s'.tasks && s'.tasks[s.nextTask].call == s.tasks[s.timers[id].task].call
            && s'.tasks[s.nextTask].pc.PreStart()
  {
    hide D.TasksOk, D.StartsOk, D.AbortedOk, D.MarksOk, D.CoverOk;
  }

  lemma TaskGoesOn(s: D.State, b: D.Action, t: nat)
    requires D.TasksOk(s) && D.Enabled(s, b) && !b.Debounce? && !b.Finish? && t in s.tasks
    requires s.tasks[t].pc.PreStart() || s.tasks[t].pc.Running?
    requires b.ExecuteNow? && b.id in s.timers ==> s.timers[b.id].task != t
    ensures var s' := D.Apply(s, b);
            && t in s'.tasks && s'.tasks[t].call == s.tasks[t].call
            && (s'.tasks[t].pc.PreStart() || s'.tasks[t].pc.Running?)
            && (s.tasks[t].pc.Running? ==> s'.tasks[t] == s.tasks[t])
            && (s'.tasks[t].pc.Running? && !s.tasks[t].pc.Running? ==> b == D.Begin(t))
  {
  }

  /** A store function that is at the mutex stays there, unless it begins its store. */
  lemma HookKeepsTask(s: State, a: Action, t: nat, u: nat)
    requires Inv(s) && Enabled(s, a) && (OfHook(a) || a.Return?) && u < |s.updates| && WillStore(s, t, s.updates[u])
    ensures WillStore(Apply(s, a), t, s.updates[u]) || StoredAfter(Apply(s, a), u)
  {
    hide D.Inv, CallsOk, StartsStore, AttemptsOk, UpdatesOk, D.Apply, D.Enabled;
    var s' := Apply(s, a);
    if a.Return? {
      ReturnTouchesOnly(s, a.t);
    } else if a == BeginStore(t) {
      assert s'.attempts[|s.attempts|] == Attempt(s.updates[u], s.deb.tasks[t].call, |s.updates|);
    }
  }

  lemma ReturnTouchesOnly(s: State, t: nat)
    requires Inv(s) && Enabled(s, Return(t))
    ensures var s' := Apply(s, Return(t));
            && s.hooks[t] == Done && !s.deb.tasks[t].pc.PreStart()
            && forall v :: v in s.deb.tasks && v != t ==> v in s'.deb.tasks && s'.deb.tasks[v] == s.deb.tasks[v]
  {
    hide D.Inv, CallsOk, StartsStore, AttemptsOk, UpdatesOk;
  }

  lemma OtherStepKeepsObligation(s: State, a: Action, u: nat)
    requires Inv(s) && Enabled(s, a) && !a.Observe? && !a.StoreNow? && u < |s.updates| && Obliged(s, u)
    ensures LogsGrow(s, Apply(s, a)) && Obliged(Apply(s, a), u)
  {
    hide Inv, WillStore, StoredAfter, D.Enabled, D.Apply, RunsHook, DocOf, Log;
    var s', mine := Apply(s, a), s.updates[u];
    OtherStepGrows(s, a);
    if StoredAfter(s, u) {
      StoredStays(s, s', u);
    } else if u !in s.observers {
      var t :| WillStore(s, t, mine);
      if a.Debouncer? {
        DebouncerKeepsTask(s, a.a, t, mine);
      } else if a.Integrate? {
        IntegrateKeepsTask(s, a.doc, t, mine);
      } else {
        HookKeepsTask(s, a, t, u);
      }
    }
  }

  lemma OtherStepGrows(s: State, a: Action)
    requires Enabled(s, a) && !a.Observe? && !a.StoreNow?
    ensures LogsGrow(s, Apply(s, a)) && s.observers <= Apply(s, a).observers
  {
    hide D.Enabled, D.Apply;
  }

  lemma IntegrateKeepsTask(s: State, doc: Doc, t: nat, mine: Doc)
    requires WillStore(s, t, mine)
    ensures WillStore(Apply(s, Integrate(doc)), t, mine)
  {
  }

  // ---------------------------------------------------------------- the obligation over runs

  lemma CallStep(s: State, a: Action, u: nat)
    requires Inv(s) && Enabled(s, a) && (a.Observe? || a.StoreNow?) && u < |s.updates| && Obliged(s, u)
    ensures u < |Apply(s, a).updates| && (Obliged(Apply(s, a), u) <==> !Displaces(s, a, u))
  {
    hide Inv, WillStore, IsTimer, D.DoDebounce;
    var doc := if a.Observe? then s.updates[a.u] else a.doc;
    var d, m := if a.Observe? then a.debounce else 0, a.maxDebounce;
    var s1, s', mine := CallDebounce(s, doc, d, m), Apply(s, a), s.updates[u];
    assert s' == s1.(observers := s'.observers);
    assert forall other :: Calls(s, a, other) <==> other == doc;
    assert StoredAfter(s', u) <==> StoredAfter(s, u);
    assert forall t :: WillStore(s', t, mine) <==> WillStore(s1, t, mine) by {
      forall t ensures WillStore(s', t, mine) <==> WillStore(s1, t, mine) { ObserversDoNotStore(s1, s', t, mine); }
    }
    if !StoredAfter(s, u) {
      CallKeepsObligation(s, doc, d, m, u);
    }
  }

  lemma ObserversDoNotStore(s: State, s': State, t: nat, doc: Doc)
    requires s' == s.(observers := s'.observers)
    ensures WillStore(s', t, doc) <==> WillStore(s, t, doc)
  {
  }

  /** A step keeps the obligation towards an update if and only if it does not displace. */
  lemma ObligedUnlessDisplaced(s: State, a: Action, u: nat)
    requires Inv(s) && Enabled(s, a) && u < |s.updates| && Obliged(s, u)
    ensures u < |Apply(s, a).updates| && (Obliged(Apply(s, a), u) <==> !Displaces(s, a, u))
  {
    hide Inv, Obliged, Enabled, Apply;
    if a.Observe? || a.StoreNow? {
      CallStep(s, a, u);
    } else {
      OtherStepKeepsObligation(s, a, u);
    }
  }

  /** A run in which the update `u` is never displaced. */
  ghost predicate Undisplaced(run: seq<Action>, u: nat)
    decreases |run|
  {
    run == [] ||
    var s, a := Exec(INIT, run[..|run|-1]), run[|run|-1];
    Undisplaced(run[..|run|-1], u) && !(Enabled(s, a) && u < |s.updates| && Displaces(s, a, u))
  }

  /** No integrated update is left without a store that began after it, or an observer, timer, run or
      hook that will begin one, in any run in which no call displaces it. */
  lemma {:induction false} NoWriteUncovered(run: seq<Action>, u: nat)
    requires u < |Exec(INIT, run).updates| && Undisplaced(run, u)
    ensures Obliged(Exec(INIT, run), u)
    decreases |run|
  {
    hide Inv, Enabled, Displaces, WillStore, StoredAfter, Apply;
    var s, a := Exec(INIT, run[..|run|-1]), run[|run|-1];
    InvAlways(run[..|run|-1]);
    if Enabled(s, a) {
      UpdatesOfStep(s, a);
      if u < |s.updates| {
        NoWriteUncovered(run[..|run|-1], u);
        ObligedUnlessDisplaced(s, a, u);
      }
    } else {
      NoWriteUncovered(run[..|run|-1], u);
    }
  }

  lemma UpdatesOfStep(s: State, a: Action)
    requires Enabled(s, a)
    ensures forall u: nat :: |s.updates| <= u < |Apply(s, a).updates| ==> u in Apply(s, a).observers
  {
    hide D.Enabled, D.Apply;
  }

  /** When the pipeline has come to rest, every update that was not displaced has been followed by a store. */
  lemma AtRestEverythingStored(run: seq<Action>, u: nat)
    requires var s := Exec(INIT, run);
             s.observers == {} && s.deb.tasks == map[] && u < |s.updates| && Undisplaced(run, u)
    ensures StoredAfter(Exec(INIT, run), u)
  {
    hide Exec, Undisplaced, StoredAfter;
    NoWriteUncovered(run, u);
  }

  /** After update `u`, no other `Document` object of the same name has made a `debounce` call. */
  ghost predicate SoleInstance(s: State, u: nat)
    requires u < |s.updates|
  {
    forall k :: 0 <= k < |s.callDoc| && k < |s.callSeen| && u < s.callSeen[k] && s.callDoc[k].name == s.updates[u].name
      ==> s.callDoc[k] == s.updates[u]
  }

  lemma LogsOfStep(s: State, a: Action)
    requires Inv(s) && Enabled(s, a)
    ensures var s' := Apply(s, a);
            && s.updates <= s'.updates && s.callDoc <= s'.callDoc && s.callSeen <= s'.callSeen
            && |s.callDoc| == |s.callSeen|
            && forall doc :: Calls(s, a, doc) ==>
                 s'.callDoc == s.callDoc + [doc] && s'.callSeen == s.callSeen + [|s.updates|]
  {
    hide D.Inv, HooksOk, StartsStore, AttemptsOk, UpdatesOk, D.Enabled, D.Apply, D.DoDebounce;
  }

  lemma DisplacingIsNotSole(s: State, a: Action, u: nat)
    requires Inv(s) && Enabled(s, a) && u < |s.updates| && u < |Apply(s, a).updates| && Displaces(s, a, u)
    ensures !SoleInstance(Apply(s, a), u)
  {
    hide Inv, Enabled, Apply, Calls, WillStore, StoredAfter;
    LogsOfStep(s, a);
    assert Apply(s, a).callSeen[|s.callDoc|] == |s.updates|;
  }

  lemma SoleBefore(s: State, a: Action, u: nat)
    requires Inv(s) && Enabled(s, a) && u < |s.updates| && u < |Apply(s, a).updates| && SoleInstance(Apply(s, a), u)
    ensures SoleInstance(s, u) && !Displaces(s, a, u)
  {
    hide Inv, Enabled, Apply, Displaces;
    LogsOfStep(s, a);
    var s' := Apply(s, a);
    if Displaces(s, a, u) {
      DisplacingIsNotSole(s, a, u);
    }
    assert forall k :: 0 <= k < |s.callDoc| ==> s'.callDoc[k] == s.callDoc[k] && s'.callSeen[k] == s.callSeen[k];
  }

  lemma {:induction false} NotYetDisplaced(run: seq<Action>, u: nat)
    requires u >= |Exec(INIT, run).updates|
    ensures Undisplaced(run, u)
    decreases |run|
  {
    hide Inv, Enabled, Apply, Displaces;
    if run != [] {
      var s, a := Exec(INIT, run[..|run|-1]), run[|run|-1];
      InvAlways(run[..|run|-1]);
      if Enabled(s, a) { LogsOfStep(s, a); }
      NotYetDisplaced(run[..|run|-1], u);
    }
  }

  /** In particular nothing is displaced while one object at a time answers to the name. */
  lemma {:induction false} SoleInstanceIsUndisplaced(run: seq<Action>, u: nat)
    requires u < |Exec(INIT, run).updates| && SoleInstance(Exec(INIT, run), u)
    ensures Undisplaced(run, u)
    decreases |run|
  {
    hide Inv, Enabled, Apply, Displaces, SoleInstance;
    if run != [] {
      var s, a := Exec(INIT, run[..|run|-1]), run[|run|-1];
      InvAlways(run[..|run|-1]);
      if u >= |s.updates| {
        NotYetDisplaced(run[..|run|-1], u);
      } else {
        if Enabled(s, a) { SoleBefore(s, a, u); }
        SoleInstanceIsUndisplaced(run[..|run|-1], u);
      }
    }
  }

  /** Displacing happens: the call of a second `Document` object of the same name aborts the timer
      that carries the store of the first one. */
  lemma OtherInstanceDisplaces(name: string)
    ensures exists run, a: Action ::
              var s := Exec(INIT, run);
              |s.updates| > 0 && Enabled(s, a) && Obliged(s, 0) && Displaces(s, a, 0) && !Obliged(Apply(s, a), 0)
  {
    var a, b := Doc(name, 0), Doc(name, 1);
    var s1 := Apply(INIT, Integrate(a));
    var s2 := Apply(s1, Observe(0, 1, 5));
    Run2(Integrate(a), Observe(0, 1, 5), s1, s2);
    assert WillStore(s2, 0, a);
    assert Calls(s2, StoreNow(b, 5), b);
    assert Displaces(s2, StoreNow(b, 5), 0);
    InvAlways([Integrate(a), Observe(0, 1, 5)]);
    hide Inv, Enabled, Apply, Obliged, Displaces;
    ObligedUnlessDisplaced(s2, StoreNow(b, 5), 0);
  }

  lemma Run2(a: Action, b: Action, s1: State, s2: State)
    requires Enabled(INIT, a) && s1 == Apply(INIT, a) && Enabled(s1, b) && s2 == Apply(s1, b)
    ensures Exec(INIT, [a, b]) == s2
  {
    hide Enabled, Apply;
    assert [a, b][..1] == [a] && [a][..0] == [];
    assert Exec(INIT, [a]) == s1;
  }
}
