/** What a single call of the debouncer brings about, told by what can be observed: the triggers, the
    entries of the map, and who carries which call. */
module DebouncerCalls {
  import opened DebouncerModel

  /** Task `t` runs the function of call `n` for `id` without waiting for a timer. */
  ghost predicate RunsNow(s: State, t: nat, id: Id, n: nat) {
    && t in s.tasks && s.tasks[t].id == id && s.tasks[t].call == n && s.tasks[t].isRun
    && s.tasks[t].pc.PreStart() && !s.tasks[t].pc.Sleeping?
  }

  /** Nothing happens to the tasks but that `gone`, if any, is aborted and `next` is new. */
  ghost predicate OthersUntouched(s: State, s': State, gone: set<nat>, next: nat) {
    && next !in s.tasks && next in s'.tasks && s'.aborted == s.aborted + gone
    && (forall t :: t in gone ==> t in s.tasks && t !in s'.tasks)
    && (forall t :: t in s.tasks && t !in gone ==> t in s'.tasks && s'.tasks[t] == s.tasks[t])
    && (forall t :: t in s'.tasks && t != next ==> t in s.tasks)
  }

  ghost predicate EntriesUntouched(s: State, s': State, id: Id) {
    && (forall i :: i != id ==> (i in s'.timers <==> i in s.timers))
    && (forall i :: i != id && i in s.timers ==> s'.timers[i] == s.timers[i])
  }

  function TimerOf(s: State, id: Id): set<nat> {
    if id in s.timers then {s.timers[id].task} else {}
  }

  /** A call is triggered at once exactly if its delay is zero or the chain of its timer has lasted
      long enough; otherwise a timer of its own takes over the chain, due after its delay. Either way
      the timer that was there is aborted, and nothing else is touched. */
  lemma CallOutcome(s: State, id: Id, d: nat, m: nat)
    requires TasksOk(s) && TimersOk(s)
    ensures var s', n, t := Apply(s, Action.Debounce(id, d, m)), |s.calls|, s.nextTask;
            var start := if id in s.timers then s.timers[id].start else s.now;
            && s'.calls[..n] == s.calls && |s'.calls| == n + 1 && s'.calls[n].id == id && s'.calls[n].time == s.now
            && OthersUntouched(s, s', TimerOf(s, id), t) && EntriesUntouched(s, s', id)
            && (d == 0 || s.now >= start + m ==>
                  s'.triggers == s.triggers + [Trigger(id, n, s.now)] && id !in s'.timers && RunsNow(s', t, id, n))
            && (d > 0 && s.now < start + m ==>
                  && s'.triggers == s.triggers && id in s'.timers && s'.timers[id] == Entry(start, t, n)
                  && s'.tasks[t].call == n && !s'.tasks[t].isRun && s'.tasks[t].pc == Sleeping(s.now + d))
  {
    hide DropTimer, OthersUntouched, EntriesUntouched, DoDebounce;
    CallTouches(s, id, d, m);
    if d == 0 || RunsAtOnce(s, id, d, m) {
      ImmediateCall(s, id, d, m);
    } else {
      DelayedCall(s, id, d, m);
    }
  }

  lemma CallTouches(s: State, id: Id, d: nat, m: nat)
    requires TasksOk(s) && TimersOk(s)
    ensures var s', n := DoDebounce(s, id, d, m), |s.calls|;
            && s'.calls[..n] == s.calls && |s'.calls| == n + 1 && s'.calls[n].id == id && s'.calls[n].time == s.now
            && OthersUntouched(s, s', TimerOf(s, id), s.nextTask) && EntriesUntouched(s, s', id)
  {
    hide TasksOk, TimersOk, DropTimer, RunsAtOnce;
    DropsOnlyTimer(s, id);
    TimerNeedNotBeNew(s, id);
  }

  lemma TimerNeedNotBeNew(s: State, id: Id)
    requires TasksOk(s) && TimersOk(s)
    ensures s.nextTask !in TimerOf(s, id)
  {
  }

  lemma ImmediateCall(s: State, id: Id, d: nat, m: nat)
    requires TasksOk(s) && TimersOk(s) && RunsAtOnce(s, id, d, m)
    ensures var s', n, t := DoDebounce(s, id, d, m), |s.calls|, s.nextTask;
            s'.triggers == s.triggers + [Trigger(id, n, s.now)] && id !in s'.timers && RunsNow(s', t, id, n)
  {
    hide TasksOk, TimersOk, DropTimer, EntriesUntouched;
    DropsOnlyTimer(s, id);
  }

  lemma DelayedCall(s: State, id: Id, d: nat, m: nat)
    requires TasksOk(s) && TimersOk(s) && !RunsAtOnce(s, id, d, m)
    ensures var s', n, t := DoDebounce(s, id, d, m), |s.calls|, s.nextTask;
            && s'.triggers == s.triggers && id in s'.timers && s'.timers[id] == Entry(ChainStart(s, id), t, n)
            && t in s'.tasks && s'.tasks[t].call == n && !s'.tasks[t].isRun && s'.tasks[t].pc == Sleeping(s.now + d)
  {
    hide TasksOk, TimersOk, DropTimer, EntriesUntouched;
    DropsOnlyTimer(s, id);
  }

  lemma DropsOnlyTimer(s: State, id: Id)
    requires TasksOk(s) && TimersOk(s)
    ensures var s' := DropTimer(s, id);
            && s'.nextTask == s.nextTask && s.nextTask !in s.tasks && id !in s'.timers
            && s'.aborted == s.aborted + TimerOf(s, id) && s'.triggers == s.triggers && s'.calls == s.calls
            && s'.now == s.now && s'.starts == s.starts && EntriesUntouched(s, s', id)
            && (forall t :: t in TimerOf(s, id) ==> t in s.tasks && t !in s'.tasks)
            && (forall t :: t in s.tasks && t !in TimerOf(s, id) ==> t in s'.tasks && s'.tasks[t] == s.tasks[t])
            && (forall t :: t in s'.tasks ==> t in s.tasks)
  {
  }

  /** `execute_now` takes the timer of the id, aborts it, and runs its function at once; without a
      timer it does nothing. */
  lemma ExecuteNowOutcome(s: State, id: Id)
    requires TasksOk(s) && TimersOk(s)
    ensures var s' := Apply(s, ExecuteNow(id));
            && (id !in s.timers ==> s' == s)
            && (id in s.timers ==>
                  var e := s.timers[id];
                  && s'.triggers == s.triggers + [Trigger(id, e.call, s.now)] && id !in s'.timers
                  && e.task in s'.aborted && RunsNow(s', s.nextTask, id, e.call)
                  && OthersUntouched(s, s', {e.task}, s.nextTask) && EntriesUntouched(s, s', id)
                  && s'.calls == s.calls)
  {
    hide DropTimer;
    DropsOnlyTimer(s, id);
  }

  /** A timer that wakes triggers its own call and takes the entry of its id, whoever put it there. */
  lemma WakingOutcome(s: State, t: nat)
    requires Enabled(s, Fire(t))
    ensures var s', id := Apply(s, Fire(t)), s.tasks[t].id;
            && s'.triggers == s.triggers + [Trigger(id, s.tasks[t].call, s.now)]
            && id !in s'.timers && EntriesUntouched(s, s', id)
            && s'.aborted == s.aborted && Enabled(s', GetLock(t))
            && s'.tasks.Keys == s.tasks.Keys && forall u :: u in s.tasks && u != t ==> s'.tasks[u] == s.tasks[u]
  {
  }

  /** A run drops the entry of its id, but the task behind the entry goes on. */
  lemma DetachingOutcome(s: State, t: nat)
    requires Enabled(s, Detach(t))
    ensures var s', id := Apply(s, Detach(t)), s.tasks[t].id;
            && id !in s'.timers && EntriesUntouched(s, s', id)
            && s'.aborted == s.aborted && s'.triggers == s.triggers
            && s'.tasks.Keys == s.tasks.Keys && forall u :: u in s.tasks && u != t ==> s'.tasks[u] == s.tasks[u]
  {
  }

  /** The order of the steps of a task: it looks up the lock of its id, waits for it, drops the entry
      of its id if it is a run, starts its function, and once that has returned takes the lock out of
      the map and gives it back. */
  lemma OrderOfSteps(s: State, a: Action, t: nat)
    requires Enabled(s, a) && OfTask(a) && a.t == t
    ensures var s', id := Apply(s, a), s.tasks[t].id;
            && (a.GetLock? ==>
                  && id in s'.running && t in s'.tasks && s'.tasks[t].pc == Waiting(s'.running[id])
                  && (id in s.running ==> s'.running[id] == s.running[id])
                  && (id !in s.running ==> s'.running[id] == s.nextLock < s'.nextLock))
            && (a.Acquire? ==> s.tasks[t].pc.lock !in s.held && s'.held == s.held + {s.tasks[t].pc.lock}
                               && Enabled(s', if s.tasks[t].isRun then Detach(t) else Begin(t)))
            && (a.Detach? ==> Enabled(s', Begin(t)))
            && (a.Begin? ==> s'.starts == s.starts + [Start(t, s.tasks[t].call)] && Enabled(s', Finish(t)))
            && (!a.Begin? ==> s'.starts == s.starts)
            && (a.Finish? ==> Enabled(s', Forget(t)))
            && (a.Forget? ==> id !in s'.running && Enabled(s', Release(t)))
            && (a.Release? ==> t !in s'.tasks && s'.held == s.held - {s.tasks[t].pc.lock})
  {
  }

  // ---------------------------------------------------------------- over runs

  /** Task `t` is, or was, a run for call `n`; it is not aborted, and if the function of the call has
      not been started, it goes on to start it. */
  ghost predicate Kept(s: State, t: nat, id: Id, n: nat) {
    && t < s.nextTask && t !in s.aborted
    && (t in s.tasks ==> s.tasks[t].isRun && s.tasks[t].call == n && !s.tasks[t].pc.Sleeping?)
    && (HasStarted(s, n) || RunsNow(s, t, id, n))
  }

  lemma StartedStays(s: State, s': State, n: nat)
    requires s.starts <= s'.starts && HasStarted(s, n)
    ensures HasStarted(s', n)
  {
    var i :| 0 <= i < |s.starts| && s.starts[i].call == n;
    assert s'.starts[i].call == n;
  }

  lemma StepKeepsRun(s: State, a: Action, t: nat, id: Id, n: nat)
    requires TasksOk(s) && TimersOk(s) && Enabled(s, a) && Kept(s, t, id, n)
    ensures Kept(Apply(s, a), t, id, n)
  {
    hide TasksOk, TimersOk, DoDebounce, DoExecuteNow, HasStarted;
    if a.Debounce? || a.ExecuteNow? {
      RunSurvivesCall(s, a, t, id, n);
    } else if a.Tick? {
      if HasStarted(s, n) { StartedStays(s, Apply(s, a), n); }
    } else {
      RunGoesOn(s, a, t, id, n);
    }
  }

  /** A call only ever aborts a timer that sleeps, and that never is a run. */
  lemma RunSurvivesCall(s: State, a: Action, t: nat, id: Id, n: nat)
    requires TasksOk(s) && TimersOk(s) && (a.Debounce? || a.ExecuteNow?) && Kept(s, t, id, n)
    ensures Kept(Apply(s, a), t, id, n)
  {
    hide TasksOk, DoDebounce, DoExecuteNow, HasStarted, DropTimer;
    var s' := Apply(s, a);
    assert t !in TimerOf(s, a.id);
    CallKeepsStarts(s, a);
    if HasStarted(s, n) { StartedStays(s, s', n); }
    if a.Debounce? {
      CallOutcome(s, a.id, a.debounce, a.maxDebounce);
    } else {
      ExecuteNowOutcome(s, a.id);
    }
  }

  lemma CallKeepsStarts(s: State, a: Action)
    requires a.Debounce? || a.ExecuteNow?
    ensures Apply(s, a).starts == s.starts && s.nextTask <= Apply(s, a).nextTask
  {
  }

  lemma RunGoesOn(s: State, a: Action, t: nat, id: Id, n: nat)
    requires Enabled(s, a) && OfTask(a) && Kept(s, t, id, n)
    ensures Kept(Apply(s, a), t, id, n)
  {
    hide HasStarted, Apply, Enabled, Advances;
    TaskActionAdvances(s, a);
    AdvanceKeepsRun(s, Apply(s, a), a.t, t, id, n);
  }

  lemma AdvanceKeepsRun(s: State, s': State, u: nat, t: nat, id: Id, n: nat)
    requires Advances(s, s', u) && Kept(s, t, id, n)
    ensures Kept(s', t, id, n)
  {
    hide HasStarted;
    if HasStarted(s, n) {
      StartedStays(s, s', n);
    } else if s'.starts != s.starts && u == t {
      NewStart(s, s', u, n);
    }
  }

  lemma NewStart(s: State, s': State, u: nat, n: nat)
    requires u in s.tasks && s.tasks[u].call == n && s'.starts == s.starts + [Start(u, n)]
    ensures HasStarted(s', n)
  {
    assert s'.starts[|s.starts|].call == n;
  }

  lemma {:induction false} RunIsKept(s: State, more: seq<Action>, t: nat, id: Id, n: nat)
    requires Inv(s) && Kept(s, t, id, n)
    ensures Inv(Exec(s, more)) && Kept(Exec(s, more), t, id, n)
    decreases |more|
  {
    hide TasksOk, TimersOk, StartsOk, AbortedOk, MarksOk, CoverOk, Enabled, Apply, Kept;
    if more != [] {
      var last := |more| - 1;
      RunIsKept(s, more[..last], t, id, n);
      if Enabled(Exec(s, more[..last]), more[last]) {
        StepPreservesInv(Exec(s, more[..last]), more[last]);
        StepKeepsRun(Exec(s, more[..last]), more[last], t, id, n);
      }
    }
  }

  ghost predicate TriggeredAt(s: State, id: Id, n: nat, time: nat) {
    Trigger(id, n, time) in s.triggers
  }

  lemma {:induction false} TriggersStay(s: State, more: seq<Action>)
    ensures s.triggers <= Exec(s, more).triggers && s.calls <= Exec(s, more).calls
    decreases |more|
  {
    hide Enabled, Apply;
    if more != [] {
      var last := |more| - 1;
      TriggersStay(s, more[..last]);
      if Enabled(Exec(s, more[..last]), more[last]) {
        LogsStay(Exec(s, more[..last]), more[last]);
      }
    }
  }

  lemma LogsStay(s: State, a: Action)
    requires Enabled(s, a)
    ensures s.triggers <= Apply(s, a).triggers && s.calls <= Apply(s, a).calls
  {
  }

  /** A call with no delay, or at the end of its chain, is triggered at the time it is made, and
      nothing that happens later - no other call, no `execute_now` - takes it back: its task is never
      aborted, and it has started its function or is about to. */
  lemma ImmediateCallIsFinal(run: seq<Action>, id: Id, d: nat, m: nat, more: seq<Action>)
    requires var s := Exec(INIT, run);
             d == 0 || s.now >= (if id in s.timers then s.timers[id].start else s.now) + m
    ensures var s := Exec(INIT, run); var s' := Exec(Apply(s, Action.Debounce(id, d, m)), more); var n := |s.calls|;
            && TriggeredAt(s', id, n, s.now) && s.nextTask !in s'.aborted
            && (HasStarted(s', n) || RunsNow(s', s.nextTask, id, n))
  {
    hide Exec, TasksOk, TimersOk, StartsOk, AbortedOk, MarksOk, CoverOk, Apply, HasStarted;
    var s := Exec(INIT, run);
    InvAlways(run);
    var a := Action.Debounce(id, d, m);
    CallOutcome(s, id, d, m);
    StepPreservesInv(s, a);
    FreshIsNotAborted(s);
    FinalFrom(Apply(s, a), more, s.nextTask, id, |s.calls|, s.now);
  }

  lemma FreshIsNotAborted(s: State)
    requires Inv(s)
    ensures s.nextTask !in s.aborted && s.nextTask !in s.tasks
    ensures forall id :: s.nextTask !in TimerOf(s, id)
  {
    hide StartsOk, MarksOk, CoverOk;
  }

  lemma FinalFrom(s: State, more: seq<Action>, t: nat, id: Id, n: nat, time: nat)
    requires Inv(s) && RunsNow(s, t, id, n) && t !in s.aborted && TriggeredAt(s, id, n, time)
    ensures var s' := Exec(s, more);
            && TriggeredAt(s', id, n, time) && t !in s'.aborted && (HasStarted(s', n) || RunsNow(s', t, id, n))
  {
    hide Exec, TimersOk, StartsOk, AbortedOk, MarksOk, CoverOk, HasStarted;
    RunIsKept(s, more, t, id, n);
    TriggersStay(s, more);
  }

  /** Every call that the listed timer of the id covers - its own, and the earlier ones on the id - is
      served by `execute_now`: a function of the id no older than the call is triggered at that very
      time, and nothing that happens later takes it back. */
  lemma ExecuteNowIsPrompt(run: seq<Action>, id: Id, n: nat, more: seq<Action>)
    requires var s := Exec(INIT, run);
             id in s.timers && n <= s.timers[id].call && n < |s.calls| && s.calls[n].id == id
    ensures var s := Exec(INIT, run); var s' := Exec(Apply(s, ExecuteNow(id)), more); var k := s.timers[id].call;
            && SameIdLater(s', n, k) && TriggeredAt(s', id, k, s.now) && s.nextTask !in s'.aborted
            && (HasStarted(s', k) || RunsNow(s', s.nextTask, id, k))
  {
    hide Exec, TasksOk, TimersOk, StartsOk, AbortedOk, MarksOk, CoverOk, Apply, HasStarted;
    var s := Exec(INIT, run);
    InvAlways(run);
    ExecuteNowOutcome(s, id);
    StepPreservesInv(s, ExecuteNow(id));
    FreshIsNotAborted(s);
    ListedCallExists(s, id);
    FinalFrom(Apply(s, ExecuteNow(id)), more, s.nextTask, id, s.timers[id].call, s.now);
    TriggersStay(Apply(s, ExecuteNow(id)), more);
  }

  lemma ListedCallExists(s: State, id: Id)
    requires Inv(s) && id in s.timers
    ensures s.timers[id].call < |s.calls| && s.calls[s.timers[id].call].id == id
  {
    hide StartsOk, AbortedOk, MarksOk, CoverOk;
  }
}
