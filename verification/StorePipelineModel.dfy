/** From an integrated update to the store hooks, on top of the debouncer.

    Every update that a document integrates spawns an observer task. The observer calls `debounce`
    under the id of the document's name; the function of that call waits for the save mutex of the
    document it was made for, runs the store hook and, if that succeeded, the after-store hook.
    Hooks, the loading and unloading of documents and the configured delays are arbitrary. */
module StorePipelineModel {
  import D = DebouncerModel

  /** Two `Document` objects can bear the same name, one after the other. */
  datatype Doc = Doc(name: string, instance: nat)

  /** Where the function of a call is; it is in the map `hooks` exactly while it runs. */
  datatype HookPc = AtMutex | Storing | StoreOk | AfterStoring | Unlocking | Done

  datatype Event =
    | StoreBegin(t: nat)
    | StoreEnd(t: nat, ok: bool)
    | AfterBegin(t: nat)
    | AfterEnd(t: nat)

  /** A store hook that began when `seen` updates had been integrated. */
  datatype Attempt = Attempt(doc: Doc, call: nat, seen: nat)

  datatype State = State(
    deb: D.State,
    updates: seq<Doc>,          // the document of each integrated update
    observers: set<nat>,        // updates whose observer task has yet to call `debounce`
    callDoc: seq<Doc>,          // the document of each `debounce` call
    callSeen: seq<nat>,         // the number of updates integrated before it
    hooks: map<nat, HookPc>,
    savers: map<Doc, nat>,      // who holds the save mutex
    attempts: seq<Attempt>,
    traces: map<Doc, seq<Event>>)

  datatype Action =
    | Integrate(doc: Doc)
    | Observe(u: nat, debounce: nat, maxDebounce: nat)
    | StoreNow(doc: Doc, maxDebounce: nat)
    | Debouncer(a: D.Action)
    | BeginStore(t: nat)
    | EndStore(t: nat, ok: bool)
    | BeginAfter(t: nat)
    | EndAfter(t: nat)
    | Unlock(t: nat)
    | Return(t: nat)

  const INIT := State(D.INIT, [], {}, [], [], map[], map[], [], map[])

  function DebounceId(name: string): string {
    "onStoreDocument-" + name
  }

  /** The document whose store function task `t` runs. */
  predicate RunsHook(s: State, t: nat, pc: HookPc) {
    && t in s.hooks && s.hooks[t] == pc
    && t in s.deb.tasks && s.deb.tasks[t].call < |s.callDoc|
  }

  function DocOf(s: State, t: nat): Doc
    requires t in s.deb.tasks && s.deb.tasks[t].call < |s.callDoc|
  {
    s.callDoc[s.deb.tasks[t].call]
  }

  function TraceOf(s: State, doc: Doc): seq<Event> {
    if doc in s.traces then s.traces[doc] else []
  }

  predicate Enabled(s: State, a: Action) {
    match a
    case Integrate(_) => true
    case Observe(u, _, _) => u in s.observers && u < |s.updates|
    case StoreNow(_, _) => true
    case Debouncer(b) => D.Enabled(s.deb, b) && !b.Debounce? && !b.Finish?
    case BeginStore(t) => RunsHook(s, t, AtMutex) && DocOf(s, t) !in s.savers
    case EndStore(t, _) => RunsHook(s, t, Storing)
    case BeginAfter(t) => RunsHook(s, t, StoreOk)
    case EndAfter(t) => RunsHook(s, t, AfterStoring)
    case Unlock(t) => RunsHook(s, t, Unlocking)
    case Return(t) => RunsHook(s, t, Done) && D.Enabled(s.deb, D.Finish(t))
  }

  function CallDebounce(s: State, doc: Doc, debounce: nat, maxDebounce: nat): State {
    s.(deb := D.DoDebounce(s.deb, DebounceId(doc.name), debounce, maxDebounce),
       callDoc := s.callDoc + [doc], callSeen := s.callSeen + [|s.updates|])
  }

  function Log(s: State, t: nat, pc: HookPc, e: Event): State
    requires t in s.deb.tasks && s.deb.tasks[t].call < |s.callDoc|
  {
    var doc := DocOf(s, t);
    s.(hooks := s.hooks[t := pc], traces := s.traces[doc := TraceOf(s, doc) + [e]])
  }

  function Apply(s: State, a: Action): State
    requires Enabled(s, a)
  {
    match a
    case Integrate(doc) => s.(observers := s.observers + {|s.updates|}, updates := s.updates + [doc])
    case Observe(u, d, m) => CallDebounce(s, s.updates[u], d, m).(observers := s.observers - {u})
    case StoreNow(doc, m) => CallDebounce(s, doc, 0, m)
    case Debouncer(b) =>
      var s' := s.(deb := D.Apply(s.deb, b));
      if b.Begin? then s'.(hooks := s.hooks[b.t := AtMutex]) else s'
    case BeginStore(t) =>
      var doc, call := DocOf(s, t), s.deb.tasks[t].call;
      Log(s, t, Storing, StoreBegin(t))
        .(savers := s.savers[doc := t], attempts := s.attempts + [Attempt(doc, call, |s.updates|)])
    case EndStore(t, ok) => Log(s, t, if ok then StoreOk else Unlocking, StoreEnd(t, ok))
    case BeginAfter(t) => Log(s, t, AfterStoring, AfterBegin(t))
    case EndAfter(t) => Log(s, t, Unlocking, AfterEnd(t))
    case Unlock(t) => s.(hooks := s.hooks[t := Done], savers := s.savers - {DocOf(s, t)})
    case Return(t) => s.(hooks := s.hooks - {t}, deb := D.Apply(s.deb, D.Finish(t)))
  }

  /** The state after the run; an action that is not enabled changes nothing. */
  ghost function Exec(s: State, run: seq<Action>): State
    decreases |run|
  {
    if run == [] then s
    else
      var before := Exec(s, run[..|run|-1]);
      var a := run[|run|-1];
      if Enabled(before, a) then Apply(before, a) else before
  }

  // ---------------------------------------------------------------- the invariant

  ghost predicate CallsOk(s: State) {
    && |s.callDoc| == |s.callSeen| == |s.deb.calls|
    && (forall n :: 0 <= n < |s.callDoc| ==> s.deb.calls[n].id == DebounceId(s.callDoc[n].name))
    && (forall n :: 0 <= n < |s.callSeen| ==> s.callSeen[n] <= |s.updates|)
    && (forall n, k :: 0 <= n <= k < |s.callSeen| ==> s.callSeen[n] <= s.callSeen[k])
  }

  ghost predicate HooksOk(s: State) {
    forall t :: t in s.hooks <==> t in s.deb.tasks && s.deb.tasks[t].pc.Running?
  }

  ghost predicate Attempted(s: State, k: nat) {
    exists i :: 0 <= i < |s.attempts| && s.attempts[i].call == k
  }

  ghost predicate AboutToStore(s: State, k: nat) {
    exists t :: RunsHook(s, t, AtMutex) && s.deb.tasks[t].call == k
  }

  /** A function that was started has begun to store or is waiting for the save mutex. */
  ghost predicate StartsStore(s: State) {
    forall i :: 0 <= i < |s.deb.starts| ==>
      Attempted(s, s.deb.starts[i].call) || AboutToStore(s, s.deb.starts[i].call)
  }

  ghost predicate AttemptsOk(s: State) {
    forall i :: 0 <= i < |s.attempts| ==>
      var a := s.attempts[i];
      a.call < |s.callDoc| && a.call < |s.callSeen| && a.doc == s.callDoc[a.call] && s.callSeen[a.call] <= a.seen
  }

  ghost predicate CalledFor(s: State, u: nat)
    requires u < |s.updates|
  {
    exists n :: 0 <= n < |s.callDoc| && n < |s.callSeen| && s.callDoc[n] == s.updates[u] && u < s.callSeen[n]
  }

  ghost predicate UpdatesOk(s: State) {
    forall u :: 0 <= u < |s.updates| ==> u in s.observers || CalledFor(s, u)
  }

  ghost predicate Inv(s: State) {
    D.Inv(s.deb) && CallsOk(s) && HooksOk(s) && StartsStore(s) && AttemptsOk(s) && UpdatesOk(s)
  }

  // ---------------------------------------------------------------- preservation

  /** What was called for stays so while the logs only grow. */
  lemma CalledForGrows(s: State, s': State, u: nat)
    requires s.updates <= s'.updates && s.callDoc <= s'.callDoc && s.callSeen <= s'.callSeen
    requires u < |s.updates| && CalledFor(s, u)
    ensures CalledFor(s', u)
  {
    var n :| 0 <= n < |s.callDoc| && n < |s.callSeen| && s.callDoc[n] == s.updates[u] && u < s.callSeen[n];
    assert s'.updates[u] == s.updates[u] && s'.callDoc[n] == s.updates[u] && u < s'.callSeen[n];
  }

  lemma UpdatesGrow(s: State, s': State)
    requires UpdatesOk(s) && s'.updates == s.updates && s.callDoc <= s'.callDoc && s.callSeen <= s'.callSeen
    requires forall u: nat :: u in s.observers && u < |s.updates| ==> u in s'.observers || CalledFor(s', u)
    ensures UpdatesOk(s')
  {
    forall u: nat | u < |s.updates| && CalledFor(s, u) ensures CalledFor(s', u) { CalledForGrows(s, s', u); }
  }

  lemma StartsStoreGrows(s: State, s': State)
    requires StartsStore(s) && s'.deb.starts == s.deb.starts && s.attempts <= s'.attempts
    requires forall t :: RunsHook(s, t, AtMutex) ==>
               (RunsHook(s', t, AtMutex) && s'.deb.tasks[t].call == s.deb.tasks[t].call)
               || Attempted(s', s.deb.tasks[t].call)
    ensures StartsStore(s')
  {
    forall i | 0 <= i < |s.deb.starts|
      ensures Attempted(s', s.deb.starts[i].call) || AboutToStore(s', s.deb.starts[i].call)
    {
      var k := s.deb.starts[i].call;
      if Attempted(s, k) {
        var j :| 0 <= j < |s.attempts| && s.attempts[j].call == k;
        assert s'.attempts[j] == s.attempts[j];
      } else {
        assert AboutToStore(s, k);
        var t :| RunsHook(s, t, AtMutex) && s.deb.tasks[t].call == k;
        assert RunsHook(s', t, AtMutex) || Attempted(s', k);
      }
    }
  }

  lemma CallLogs(s: State, doc: Doc, d: nat, m: nat)
    requires CallsOk(s) && AttemptsOk(s)
    ensures CallsOk(CallDebounce(s, doc, d, m)) && AttemptsOk(CallDebounce(s, doc, d, m))
  {
    D.DebounceLogs(s.deb, DebounceId(doc.name), d, m);
    hide D.DoDebounce;
  }

  lemma CallPreserves(s: State, doc: Doc, d: nat, m: nat)
    requires Inv(s)
    ensures Inv(CallDebounce(s, doc, d, m))
  {
    var id := DebounceId(doc.name);
    var s' := CallDebounce(s, doc, d, m);
    D.StepPreservesInv(s.deb, D.Action.Debounce(id, d, m));
    CallLogs(s, doc, d, m);
    RunningUntouched(s.deb, id, d, m);
    hide D.Inv, D.DoDebounce, CallsOk, AttemptsOk, StartsStore, UpdatesOk, Attempted, AboutToStore, DocOf;
    StartsStoreGrows(s, s');
    UpdatesGrow(s, s');
  }

  /** A `debounce` call leaves every task alone whose function is running. */
  lemma RunningUntouched(s: D.State, id: string, d: nat, m: nat)
    requires D.Inv(s)
    ensures var s' := D.DoDebounce(s, id, d, m);
            && s'.starts == s.starts
            && forall t :: (t in s.tasks && s.tasks[t].pc.Running?) || (t in s'.tasks && s'.tasks[t].pc.Running?) ==>
                 t in s.tasks && t in s'.tasks && s'.tasks[t] == s.tasks[t]
  {
    hide D.StartsOk, D.AbortedOk, D.MarksOk, D.CoverOk;
    assert s.nextTask !in s.tasks;
  }

  lemma ObservePreserves(s: State, u: nat, d: nat, m: nat)
    requires Inv(s) && Enabled(s, Observe(u, d, m))
    ensures Inv(Apply(s, Observe(u, d, m)))
  {
    hide D.Inv, D.DoDebounce, CallsOk, HooksOk, AttemptsOk, StartsStore, UpdatesOk, CalledFor, DocOf;
    CallPreserves(s, s.updates[u], d, m);
    CallIsFor(s, u, d, m);
    Observed(CallDebounce(s, s.updates[u], d, m), u);
  }

  lemma CallIsFor(s: State, u: nat, d: nat, m: nat)
    requires u < |s.updates| && CallsOk(s)
    ensures u < |CallDebounce(s, s.updates[u], d, m).updates| && CalledFor(CallDebounce(s, s.updates[u], d, m), u)
  {
    hide D.DoDebounce;
    assert CallDebounce(s, s.updates[u], d, m).callDoc[|s.callDoc|] == s.updates[u];
  }

  /** An observer that has made its call is no longer needed. */
  lemma Observed(s: State, u: nat)
    requires Inv(s) && u < |s.updates| && CalledFor(s, u)
    ensures Inv(s.(observers := s.observers - {u}))
  {
    hide D.Inv, StartsStore, CalledFor, Attempted, AboutToStore, DocOf;
    var s' := s.(observers := s.observers - {u});
    StartsStoreGrows(s, s');
    forall v: nat | v < |s.updates| && CalledFor(s, v) ensures CalledFor(s', v) { CalledForGrows(s, s', v); }
  }

  lemma IntegratePreserves(s: State, doc: Doc)
    requires Inv(s)
    ensures Inv(Apply(s, Integrate(doc)))
  {
    var s' := Apply(s, Integrate(doc));
    hide D.Inv, StartsStore, CalledFor, Attempted, AboutToStore;
    StartsStoreGrows(s, s');
    forall u: nat | u < |s.updates| && CalledFor(s, u) ensures CalledFor(s', u) { CalledForGrows(s, s', u); }
  }

  /** A debouncer step that neither starts nor ends a function, nor makes a call. */
  ghost predicate Quiet(s: D.State, s': D.State) {
    && s'.calls == s.calls && s'.starts == s.starts
    && forall t :: (t in s.tasks && s.tasks[t].pc.Running?) || (t in s'.tasks && s'.tasks[t].pc.Running?) ==>
         t in s.tasks && t in s'.tasks && s'.tasks[t] == s.tasks[t]
  }

  lemma DebouncerStepIsQuiet(s: D.State, a: D.Action)
    requires D.Inv(s) && D.Enabled(s, a) && !a.Debounce? && !a.Finish? && !a.Begin?
    ensures Quiet(s, D.Apply(s, a))
  {
    hide D.TasksOk, D.TimersOk, D.StartsOk, D.AbortedOk, D.MarksOk, D.CoverOk, Quiet;
    if a.ExecuteNow? {
      ExecuteNowIsQuiet(s, a.id);
    } else {
      OtherStepIsQuiet(s, a);
    }
  }

  lemma ExecuteNowIsQuiet(s: D.State, id: string)
    requires D.TasksOk(s) && D.TimersOk(s)
    ensures Quiet(s, D.DoExecuteNow(s, id))
  {
    assert s.nextTask !in s.tasks;
  }

  lemma OtherStepIsQuiet(s: D.State, a: D.Action)
    requires D.Enabled(s, a) && !a.ExecuteNow? && !a.Debounce? && !a.Finish? && !a.Begin?
    ensures Quiet(s, D.Apply(s, a))
  {
  }

  /** The logs of calls and updates matter to the invariant, the save mutex and the traces do not. */
  lemma LogsUntouched(s: State, s': State)
    requires Inv(s) && s'.deb.calls == s.deb.calls && s'.callDoc == s.callDoc && s'.callSeen == s.callSeen
    requires s'.updates == s.updates && s'.observers == s.observers
    ensures CallsOk(s') && UpdatesOk(s') && (s'.attempts == s.attempts ==> AttemptsOk(s'))
  {
    hide D.Inv, HooksOk, StartsStore;
    UpdatesGrow(s, s');
  }

  lemma QuietPreserves(s: State, s': State)
    requires Inv(s) && D.Inv(s'.deb) && Quiet(s.deb, s'.deb) && s' == s.(deb := s'.deb)
    ensures Inv(s')
  {
    hide D.Inv, HooksOk, Quiet, StartsStore, UpdatesOk, CallsOk, AttemptsOk, Attempted, AboutToStore, DocOf, RunsHook;
    QuietHooks(s, s');
    LogsUntouched(s, s');
    StartsStoreGrows(s, s');
  }

  lemma QuietHooks(s: State, s': State)
    requires HooksOk(s) && Quiet(s.deb, s'.deb) && s' == s.(deb := s'.deb)
    ensures HooksOk(s') && s'.deb.starts == s.deb.starts && s'.deb.calls == s.deb.calls
    ensures forall t :: RunsHook(s, t, AtMutex) ==>
              RunsHook(s', t, AtMutex) && s'.deb.tasks[t].call == s.deb.tasks[t].call
  {
  }

  lemma TaskHasDoc(s: State, t: nat)
    requires Inv(s) && t in s.deb.tasks
    ensures s.deb.tasks[t].call < |s.callDoc|
  {
  }

  lemma BeginShape(s: State, t: nat)
    requires Inv(s) && D.Enabled(s.deb, D.Begin(t))
    ensures var s' := Apply(s, Debouncer(D.Begin(t)));
            && D.Inv(s'.deb) && HooksOk(s') && t !in s.hooks
            && t in s.deb.tasks && s'.deb.starts == s.deb.starts + [D.Start(t, s.deb.tasks[t].call)]
            && s'.deb.calls == s.deb.calls
            && (forall u :: u in s.hooks ==> u in s'.deb.tasks && s'.deb.tasks[u] == s.deb.tasks[u])
            && AboutToStore(s', s.deb.tasks[t].call)
            && s' == s.(deb := s'.deb, hooks := s.hooks[t := AtMutex])
  {
    hide StartsStore, UpdatesOk, AttemptsOk, D.Inv, CallsOk;
    var s', task := Apply(s, Debouncer(D.Begin(t))), s.deb.tasks[t];
    TaskHasDoc(s, t);
    D.StepPreservesInv(s.deb, D.Begin(t));
    assert s'.deb.tasks == s.deb.tasks[t := task.(pc := D.Running(task.pc.lock))];
    assert RunsHook(s', t, AtMutex);
  }

  lemma BeginPreserves(s: State, t: nat)
    requires Inv(s) && D.Enabled(s.deb, D.Begin(t))
    ensures Inv(Apply(s, Debouncer(D.Begin(t))))
  {
    hide D.Inv, D.Apply, D.Enabled, HooksOk, StartsStore, UpdatesOk, CallsOk, AttemptsOk, Attempted, Apply, AboutToStore;
    var s' := Apply(s, Debouncer(D.Begin(t)));
    BeginShape(s, t);
    LogsUntouched(s, s');
    StartAddsObligation(s, s', t);
  }

  lemma StartAddsObligation(s: State, s': State, t: nat)
    requires Inv(s) && t in s.deb.tasks && s'.attempts == s.attempts
    requires s'.deb.starts == s.deb.starts + [D.Start(t, s.deb.tasks[t].call)]
    requires AboutToStore(s', s.deb.tasks[t].call)
    requires forall u :: RunsHook(s, u, AtMutex) ==>
               RunsHook(s', u, AtMutex) && s'.deb.tasks[u].call == s.deb.tasks[u].call
    ensures StartsStore(s')
  {
    hide D.Inv;
    StartsStoreGrows(s, s'.(deb := s'.deb.(starts := s.deb.starts)));
    forall i | 0 <= i < |s.deb.starts|
      ensures Attempted(s', s.deb.starts[i].call) || AboutToStore(s', s.deb.starts[i].call)
    {
      var s1, k := s'.(deb := s'.deb.(starts := s.deb.starts)), s.deb.starts[i].call;
      assert s1.deb.starts[i].call == k;
      assert Attempted(s1, k) ==> Attempted(s', k);
      if AboutToStore(s1, k) {
        var u :| RunsHook(s1, u, AtMutex) && s1.deb.tasks[u].call == k;
        assert RunsHook(s', u, AtMutex);
      }
    }
  }

  predicate OfHook(a: Action) {
    a.BeginStore? || a.EndStore? || a.BeginAfter? || a.EndAfter? || a.Unlock?
  }

  /** A store function moves on from one program point to the next, and never back to the mutex. */
  lemma HookStepShape(s: State, a: Action)
    requires Enabled(s, a) && OfHook(a)
    ensures var s' := Apply(s, a);
            && s'.deb == s.deb && s'.callDoc == s.callDoc && s'.callSeen == s.callSeen
            && s'.updates == s.updates && s'.observers == s.observers
            && a.t in s.hooks && a.t in s'.hooks && s'.hooks == s.hooks[a.t := s'.hooks[a.t]] && s'.hooks[a.t] != AtMutex
            && (s'.attempts == s.attempts || a.BeginStore?) && s.attempts <= s'.attempts
            && (s.hooks[a.t] == AtMutex ==> a.BeginStore?)
  {
  }

  lemma HookPreserves(s: State, a: Action)
    requires Inv(s) && Enabled(s, a) && OfHook(a)
    ensures Inv(Apply(s, a))
  {
    hide D.Inv, StartsStore, UpdatesOk, CallsOk, AttemptsOk, Attempted, AboutToStore, Apply, Enabled, DocOf;
    var s' := Apply(s, a);
    HookStepShape(s, a);
    if a.BeginStore? {
      BeginStoreLogs(s, a.t);
    }
    LogsUntouched(s, s');
    StartsStoreGrows(s, s');
  }

  lemma BeginStoreLogs(s: State, t: nat)
    requires Inv(s) && Enabled(s, BeginStore(t))
    ensures Attempted(Apply(s, BeginStore(t)), s.deb.tasks[t].call) && AttemptsOk(Apply(s, BeginStore(t)))
  {
    hide D.Inv, HooksOk, StartsStore, UpdatesOk;
    assert Apply(s, BeginStore(t)).attempts[|s.attempts|].call == s.deb.tasks[t].call;
  }

  lemma ReturnShape(s: State, t: nat)
    requires Inv(s) && Enabled(s, Return(t))
    ensures var s' := Apply(s, Return(t));
            && D.Inv(s'.deb) && HooksOk(s')
            && s'.deb.starts == s.deb.starts && s'.deb.calls == s.deb.calls
            && t in s.hooks && s.hooks[t] == Done
            && (forall u :: u in s.hooks && u != t ==> u in s'.deb.tasks && s'.deb.tasks[u] == s.deb.tasks[u])
            && s' == s.(deb := s'.deb, hooks := s.hooks - {t})
  {
    hide StartsStore, UpdatesOk, AttemptsOk, D.Inv;
    var s' := Apply(s, Return(t));
    D.StepPreservesInv(s.deb, D.Finish(t));
    assert s'.deb.tasks == s.deb.tasks[t := s.deb.tasks[t].(pc := D.Finished(s.deb.tasks[t].pc.lock))];
  }

  lemma ReturnPreserves(s: State, t: nat)
    requires Inv(s) && Enabled(s, Return(t))
    ensures Inv(Apply(s, Return(t)))
  {
    hide D.Inv, HooksOk, StartsStore, UpdatesOk, CallsOk, AttemptsOk, Attempted, AboutToStore, Apply, Enabled, DocOf;
    var s' := Apply(s, Return(t));
    ReturnShape(s, t);
    LogsUntouched(s, s');
    StartsStoreGrows(s, s');
  }

  lemma StepPreservesInv(s: State, a: Action)
    requires Inv(s) && Enabled(s, a)
    ensures Inv(Apply(s, a))
  {
    hide D.Inv, CallsOk, HooksOk, StartsStore, AttemptsOk, UpdatesOk, CallDebounce, Log, D.Enabled, D.Apply, RunsHook;
    match a
    case Integrate(doc) => IntegratePreserves(s, doc);
    case Observe(u, d, m) => ObservePreserves(s, u, d, m);
    case StoreNow(doc, m) => CallPreserves(s, doc, 0, m);
    case Debouncer(b) =>
      if b.Begin? {
        BeginPreserves(s, b.t);
      } else {
        D.StepPreservesInv(s.deb, b);
        DebouncerStepIsQuiet(s.deb, b);
        QuietPreserves(s, Apply(s, a));
      }
    case Return(t) => ReturnPreserves(s, t);
    case _ => HookPreserves(s, a);
  }

  lemma InitInv()
    ensures Inv(INIT)
  {
    hide D.Inv;
    D.InvAlways([]);
    DebouncerStartsAt();
  }

  lemma DebouncerStartsAt()
    ensures D.Exec(D.INIT, []) == D.INIT
  {
  }

  lemma {:induction false} InvAlways(run: seq<Action>)
    ensures Inv(Exec(INIT, run))
    decreases |run|
  {
    InitInv();
    if run != [] {
      var s, a := Exec(INIT, run[..|run|-1]), run[|run|-1];
      InvAlways(run[..|run|-1]);
      if Enabled(s, a) {
        StepPreservesInv(s, a);
      }
      hide Inv, Enabled, Apply;
    }
    hide Inv;
  }
}
