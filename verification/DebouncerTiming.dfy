/** What the debouncer promises about time, on top of `DebouncerModel`:

      - however often a timer is replaced or detached, a call made at time t is covered by a function
        that is triggered no later than t + max_debounce + debounce;
      - a burst of calls triggers one function, the last call's, `debounce` after the last call. */
module DebouncerTiming {
  import opened DebouncerModel

  // ---------------------------------------------------------------- the deadline

  /** Every call so far asked for at most `d` of debounce and at most `m` in all. */
  ghost predicate Bounded(s: State, d: nat, m: nat) {
    forall n :: 0 <= n < |s.calls| ==> s.calls[n].debounce <= d && s.calls[n].maxDebounce <= m
  }

  ghost predicate TriggeredBy(s: State, k: nat, latest: nat) {
    exists j :: 0 <= j < |s.triggers| && s.triggers[j].call == k && s.triggers[j].time <= latest
  }

  /** Task `t` sleeps on call `k`, wakes up by `latest`, and if the `timers` map still names it,
      a later call that replaces it inherits a chain that started no later than `time`. */
  ghost predicate WakesBy(s: State, t: nat, k: nat, time: nat, latest: nat) {
    && t in s.tasks && s.tasks[t].call == k && s.tasks[t].pc.Sleeping? && s.tasks[t].pc.deadline <= latest
    && (s.tasks[t].id in s.timers && s.timers[s.tasks[t].id].task == t ==> s.timers[s.tasks[t].id].start <= time)
  }

  ghost predicate Timely(s: State, time: nat, latest: nat, k: nat) {
    TriggeredBy(s, k, latest) || exists t :: WakesBy(s, t, k, time, latest)
  }

  ghost predicate OnTime(s: State, n: nat, d: nat, m: nat)
    requires n < |s.calls|
  {
    var time := s.calls[n].time;
    exists k :: SameIdLater(s, n, k) && Timely(s, time, time + m + d, k)
  }

  ghost predicate AllOnTime(s: State, d: nat, m: nat) {
    forall n :: 0 <= n < |s.calls| ==> OnTime(s, n, d, m)
  }

  lemma CallsGrow(s: State, a: Action)
    requires Enabled(s, a)
    ensures s.calls <= Apply(s, a).calls && s.triggers <= Apply(s, a).triggers
    ensures a.Debounce? ==> Apply(s, a).calls == s.calls + [Call(a.id, s.now, a.debounce, a.maxDebounce, |s.starts|)]
    ensures !a.Debounce? ==> Apply(s, a).calls == s.calls
  {
  }

  lemma TriggeredStays(s: State, s': State, k: nat, latest: nat)
    requires s.triggers <= s'.triggers && TriggeredBy(s, k, latest)
    ensures TriggeredBy(s', k, latest)
  {
    var j :| 0 <= j < |s.triggers| && s.triggers[j].call == k && s.triggers[j].time <= latest;
    assert s'.triggers[j] == s.triggers[j];
  }

  lemma TaskActionKeepsTimely(s: State, a: Action, time: nat, latest: nat, k: nat)
    requires Inv(s) && Enabled(s, a) && OfTask(a) && Timely(s, time, latest, k)
    ensures Timely(Apply(s, a), time, latest, k)
  {
    var s' := Apply(s, a);
    CallsGrow(s, a);
    hide StartsOk, AbortedOk, MarksOk, CoverOk;
    if TriggeredBy(s, k, latest) {
      TriggeredStays(s, s', k, latest);
    } else {
      var t :| WakesBy(s, t, k, time, latest);
      if t == a.t {
        assert s'.triggers[|s.triggers|] == Trigger(s.tasks[t].id, k, s.now);
      } else {
        assert WakesBy(s', t, k, time, latest);
      }
    }
  }

  lemma TickKeepsTimely(s: State, time: nat, latest: nat, k: nat)
    requires Enabled(s, Tick) && Timely(s, time, latest, k)
    ensures Timely(Apply(s, Tick), time, latest, k)
  {
    var s' := Apply(s, Tick);
    assert TriggeredBy(s, k, latest) ==> TriggeredBy(s', k, latest);
    assert forall t :: WakesBy(s, t, k, time, latest) ==> WakesBy(s', t, k, time, latest);
  }

  /** A timer that is not dropped is not disturbed by the call or the `execute_now` that drops another. */
  lemma OtherTimerUndisturbed(s: State, a: Action, t: nat, time: nat, latest: nat, k: nat)
    requires Inv(s) && (a.Debounce? || a.ExecuteNow?) && WakesBy(s, t, k, time, latest)
    requires a.id in s.timers ==> s.timers[a.id].task != t
    ensures WakesBy(Apply(s, a), t, k, time, latest)
  {
    hide TasksOk, TimersOk, StartsOk, AbortedOk, MarksOk, CoverOk, DropTimer;
    UndroppedTimer(s, a.id, t);
  }

  lemma UndroppedTimer(s: State, id: Id, t: nat)
    requires TasksOk(s) && t in s.tasks && (id in s.timers ==> s.timers[id].task != t)
    ensures var s' := DropTimer(s, id);
            && t < s.nextTask && s'.nextTask == s.nextTask && t in s'.tasks && s'.tasks[t] == s.tasks[t]
            && (s.tasks[t].id != id && s.tasks[t].id in s'.timers ==>
                  s.tasks[t].id in s.timers && s'.timers[s.tasks[t].id] == s.timers[s.tasks[t].id])
            && id !in s'.timers
  {
  }

  lemma ExecuteNowKeepsTimely(s: State, id: Id, time: nat, latest: nat, k: nat)
    requires Inv(s) && Timely(s, time, latest, k)
    ensures Timely(DoExecuteNow(s, id), time, latest, k)
  {
    hide StartsOk, AbortedOk, MarksOk, CoverOk;
    var s' := DoExecuteNow(s, id);
    CallsGrow(s, ExecuteNow(id));
    if TriggeredBy(s, k, latest) {
      TriggeredStays(s, s', k, latest);
    } else {
      var t :| WakesBy(s, t, k, time, latest);
      if id in s.timers && s.timers[id].task == t {
        assert s'.triggers[|s.triggers|] == Trigger(s.tasks[t].id, k, s.now);
      } else {
        OtherTimerUndisturbed(s, ExecuteNow(id), t, time, latest, k);
      }
    }
  }

  /** The call itself is on time: it runs at once or its timer is due within `debounce`. */
  lemma CallIsTimely(s: State, id: Id, debounce: nat, maxDebounce: nat, time: nat, latest: nat)
    requires Inv(s) && s.now <= latest && ChainStart(s, id) <= time
    requires !RunsAtOnce(s, id, debounce, maxDebounce) ==> s.now + debounce <= latest
    ensures Timely(DoDebounce(s, id, debounce, maxDebounce), time, latest, |s.calls|)
  {
    hide StartsOk, AbortedOk, MarksOk, CoverOk;
    var s' := DoDebounce(s, id, debounce, maxDebounce);
    if RunsAtOnce(s, id, debounce, maxDebounce) {
      assert s'.triggers[|s.triggers|] == Trigger(id, |s.calls|, s.now);
    } else {
      assert WakesBy(s', s.nextTask, |s.calls|, time, latest);
    }
  }

  /** The call that replaces the timer a call relied on inherits the chain, hence the bound. */
  lemma ReplacementIsTimely(s: State, id: Id, debounce: nat, maxDebounce: nat, t: nat, n: nat, k: nat, d: nat, m: nat)
    requires Inv(s) && n < |s.calls| && SameIdLater(s, n, k) && debounce <= d && maxDebounce <= m
    requires WakesBy(s, t, k, s.calls[n].time, s.calls[n].time + m + d)
    requires id in s.timers && s.timers[id].task == t
    ensures OnTime(DoDebounce(s, id, debounce, maxDebounce), n, d, m)
  {
    hide TasksOk, TimersOk, StartsOk, AbortedOk, MarksOk, CoverOk, DoDebounce, Timely, RunsAtOnce;
    var s', time := DoDebounce(s, id, debounce, maxDebounce), s.calls[n].time;
    DebounceLogs(s, id, debounce, maxDebounce);
    ReplacedInherits(s, id, debounce, maxDebounce, t, k, time, time + m + d);
    CallIsTimely(s, id, debounce, maxDebounce, time, time + m + d);
    assert SameIdLater(s', n, |s.calls|);
  }

  lemma ReplacedInherits(s: State, id: Id, debounce: nat, maxDebounce: nat, t: nat, k: nat, time: nat, latest: nat)
    requires Inv(s) && WakesBy(s, t, k, time, latest) && id in s.timers && s.timers[id].task == t
    ensures s.now <= latest && ChainStart(s, id) <= time && k < |s.calls| && s.calls[k].id == id
    ensures !RunsAtOnce(s, id, debounce, maxDebounce) ==> s.now < time + maxDebounce
  {
    hide StartsOk, AbortedOk, MarksOk, CoverOk;
  }

  lemma DebounceKeepsOnTime(s: State, id: Id, debounce: nat, maxDebounce: nat, n: nat, d: nat, m: nat)
    requires Inv(s) && n < |s.calls| && OnTime(s, n, d, m) && debounce <= d && maxDebounce <= m
    ensures OnTime(DoDebounce(s, id, debounce, maxDebounce), n, d, m)
  {
    hide Inv, WakesBy, TriggeredBy, DoDebounce;
    var s', time := DoDebounce(s, id, debounce, maxDebounce), s.calls[n].time;
    var latest := time + m + d;
    CallsGrow(s, Action.Debounce(id, debounce, maxDebounce));
    var k: nat :| SameIdLater(s, n, k) && Timely(s, time, latest, k);
    assert SameIdLater(s', n, k);
    if TriggeredBy(s, k, latest) {
      TriggeredStays(s, s', k, latest);
    } else {
      var t :| WakesBy(s, t, k, time, latest);
      if id in s.timers && s.timers[id].task == t {
        ReplacementIsTimely(s, id, debounce, maxDebounce, t, n, k, d, m);
      } else {
        OtherTimerUndisturbed(s, Action.Debounce(id, debounce, maxDebounce), t, time, latest, k);
      }
    }
  }

  lemma StepOfCall(s: State, a: Action)
    requires Enabled(s, a)
    ensures a.Debounce? ==>
              Apply(s, a) == DoDebounce(s, a.id, a.debounce, a.maxDebounce)
              && |Apply(s, a).calls| == |s.calls| + 1 && Apply(s, a).calls[|s.calls|].debounce == a.debounce
              && Apply(s, a).calls[|s.calls|].maxDebounce == a.maxDebounce
    ensures a.ExecuteNow? ==> Apply(s, a) == DoExecuteNow(s, a.id)
  {
  }

  lemma StepKeepsOnTime(s: State, a: Action, n: nat, d: nat, m: nat)
    requires Inv(s) && Enabled(s, a) && n < |s.calls| && OnTime(s, n, d, m)
    requires Bounded(Apply(s, a), d, m)
    ensures n < |Apply(s, a).calls| && OnTime(Apply(s, a), n, d, m)
  {
    hide Inv, WakesBy, TriggeredBy, Apply, DoDebounce, DoExecuteNow, Timely;
    var s', time := Apply(s, a), s.calls[n].time;
    CallsGrow(s, a);
    StepOfCall(s, a);
    if a.Debounce? {
      assert s'.calls[|s.calls|].debounce == a.debounce;
      DebounceKeepsOnTime(s, a.id, a.debounce, a.maxDebounce, n, d, m);
    } else {
      var k: nat :| SameIdLater(s, n, k) && Timely(s, time, time + m + d, k);
      assert SameIdLater(s', n, k);
      if OfTask(a) { TaskActionKeepsTimely(s, a, time, time + m + d, k); }
      else if a.Tick? { TickKeepsTimely(s, time, time + m + d, k); }
      else { ExecuteNowKeepsTimely(s, a.id, time, time + m + d, k); }
    }
  }

  lemma NewCallIsOnTime(s: State, id: Id, debounce: nat, maxDebounce: nat, d: nat, m: nat)
    requires Inv(s) && debounce <= d && maxDebounce <= m
    ensures |s.calls| < |DoDebounce(s, id, debounce, maxDebounce).calls|
    ensures OnTime(DoDebounce(s, id, debounce, maxDebounce), |s.calls|, d, m)
  {
    DebounceLogs(s, id, debounce, maxDebounce);
    ChainStartIsPast(s, id);
    hide Inv, DoDebounce;
    CallIsTimely(s, id, debounce, maxDebounce, s.now, s.now + m + d);
    assert SameIdLater(DoDebounce(s, id, debounce, maxDebounce), |s.calls|, |s.calls|);
  }

  lemma {:induction false} AllOnTimeAlways(run: seq<Action>, d: nat, m: nat)
    requires Bounded(Exec(INIT, run), d, m)
    ensures AllOnTime(Exec(INIT, run), d, m)
    decreases |run|
  {
    if run != [] {
      var s, a := Exec(INIT, run[..|run|-1]), run[|run|-1];
      InvAlways(run[..|run|-1]);
      if Enabled(s, a) {
        CallsGrow(s, a);
        hide Inv, OnTime, DoDebounce, DoExecuteNow, Enabled;
        var s' := Apply(s, a);
        assert Exec(INIT, run) == s';
        assert forall n :: 0 <= n < |s.calls| ==> s'.calls[n] == s.calls[n];
        AllOnTimeAlways(run[..|run|-1], d, m);
        forall n | 0 <= n < |s'.calls|
          ensures OnTime(s', n, d, m)
        {
          if n < |s.calls| {
            StepKeepsOnTime(s, a, n, d, m);
          } else {
            assert s'.calls[n].debounce <= d;
            NewCallIsOnTime(s, a.id, a.debounce, a.maxDebounce, d, m);
          }
        }
      } else {
        AllOnTimeAlways(run[..|run|-1], d, m);
      }
    }
  }

  /** Once `max_debounce + debounce` has passed since a call, a function of that call or of a later
      one on its id has been triggered within that time. */
  lemma DeadlineBound(run: seq<Action>, n: nat, d: nat, m: nat)
    requires var s := Exec(INIT, run);
             Bounded(s, d, m) && n < |s.calls| && s.calls[n].time + m + d < s.now
    ensures var s := Exec(INIT, run);
            exists k :: SameIdLater(s, n, k) && TriggeredBy(s, k, s.calls[n].time + m + d)
  {
    var s := Exec(INIT, run);
    AllOnTimeAlways(run, d, m);
    InvAlways(run);
    hide Exec, TimersOk, StartsOk, AbortedOk, MarksOk, CoverOk, TriggeredBy;
    var time := s.calls[n].time;
    assert OnTime(s, n, d, m);
    var k: nat :| SameIdLater(s, n, k) && Timely(s, time, time + m + d, k);
    assert TriggeredBy(s, k, time + m + d);
  }

  // ---------------------------------------------------------------- coalescing

  /** The calls on `id` from number `from` on, in order. */
  ghost function CallsOn(calls: seq<Call>, from: nat, id: Id): (ons: seq<nat>)
    ensures forall i :: 0 <= i < |ons| ==> ons[i] < |calls|
  {
    if |calls| <= from then []
    else
      var last := |calls| - 1;
      CallsOn(calls[..last], from, id) + (if calls[last].id == id then [last] else [])
  }

  ghost function TriggersOn(triggers: seq<Trigger>, from: nat, id: Id): seq<Trigger> {
    if |triggers| <= from then []
    else
      var last := |triggers| - 1;
      TriggersOn(triggers[..last], from, id) + (if triggers[last].id == id then [triggers[last]] else [])
  }

  /** Gaps below `d`, and a total span below `m`. */
  ghost predicate IsBurst(calls: seq<Call>, ons: seq<nat>, d: nat, m: nat)
    requires forall i :: 0 <= i < |ons| ==> ons[i] < |calls|
  {
    d > 0 && forall i :: 0 <= i < |ons| ==> CallInBurst(calls, ons, i, d, m)
  }

  ghost predicate CallInBurst(calls: seq<Call>, ons: seq<nat>, i: nat, d: nat, m: nat)
    requires i < |ons| && forall j :: 0 <= j < |ons| ==> ons[j] < |calls|
  {
    var c := calls[ons[i]];
    && c.debounce == d && c.maxDebounce == m
    && c.time < calls[ons[0]].time + m
    && (i > 0 ==> c.time < calls[ons[i-1]].time + d)
  }

  ghost predicate Idle(s: State, id: Id) {
    id !in s.timers && forall t :: t in s.tasks ==> s.tasks[t].id != id
  }

  /** One timer sleeps on the last call, in the chain of the first one. */
  ghost predicate Armed(s: State, id: Id, first: nat, last: nat, due: nat) {
    && id in s.timers && s.timers[id].start == first && s.timers[id].call == last
    && var t := s.timers[id].task;
    && t in s.tasks && s.tasks[t] == Task(id, last, false, Sleeping(due))
    && forall u :: u in s.tasks && s.tasks[u].id == id ==> u == t
  }

  ghost predicate Fired(s: State, id: Id, due: nat) {
    && id !in s.timers && due <= s.now
    && forall u :: u in s.tasks && s.tasks[u].id == id ==> !s.tasks[u].pc.Sleeping?
  }

  ghost predicate BurstState(base: State, s: State, id: Id, d: nat) {
    var ons := CallsOn(s.calls, |base.calls|, id);
    var fired := TriggersOn(s.triggers, |base.triggers|, id);
    if ons == [] then fired == [] && Idle(s, id)
    else
      var last := ons[|ons|-1];
      var due := s.calls[last].time + d;
      || (fired == [] && Armed(s, id, s.calls[ons[0]].time, last, due))
      || (fired == [Trigger(id, last, due)] && Fired(s, id, due))
  }

  // The action concerns an id other than `id`, or only the clock.
  ghost predicate Elsewhere(s: State, a: Action, id: Id) {
    match a
    case Tick => true
    case Debounce(i, _, _) => i != id
    case ExecuteNow(i) => i != id
    case _ => a.t in s.tasks && s.tasks[a.t].id != id
  }

  ghost predicate SameFor(s: State, s': State, id: Id) {
    && (id in s.timers <==> id in s'.timers) && (id in s.timers ==> s'.timers[id] == s.timers[id])
    && (forall t :: t in s'.tasks && s'.tasks[t].id == id ==> t in s.tasks && s.tasks[t] == s'.tasks[t])
    && (forall t :: t in s.tasks && s.tasks[t].id == id ==> t in s'.tasks && s.tasks[t] == s'.tasks[t])
    && s.now <= s'.now
  }

  lemma ElsewhereSameFor(s: State, a: Action, id: Id)
    requires Inv(s) && Enabled(s, a) && Elsewhere(s, a, id)
    ensures SameFor(s, Apply(s, a), id)
  {
    hide TasksOk, TimersOk, StartsOk, AbortedOk, MarksOk, CoverOk, Apply, SameFor, Advances;
    match a
    case Tick => TickSameFor(s, id);
    case Debounce(other, d, m) => DebounceSameFor(s, other, d, m, id);
    case ExecuteNow(other) => ExecuteNowSameFor(s, other, id);
    case _ =>
      TaskActionAdvances(s, a);
      AdvanceSameFor(s, Apply(s, a), a.t, id);
  }

  lemma TickSameFor(s: State, id: Id)
    requires Enabled(s, Tick)
    ensures SameFor(s, Apply(s, Tick), id)
  {
  }

  lemma DebounceSameFor(s: State, other: Id, d: nat, m: nat, id: Id)
    requires TasksOk(s) && TimersOk(s) && other != id
    ensures SameFor(s, Apply(s, Action.Debounce(other, d, m)), id)
  {
    hide TasksOk, TimersOk, DropTimer;
    DropSameFor(s, other, id);
  }

  lemma ExecuteNowSameFor(s: State, other: Id, id: Id)
    requires TasksOk(s) && TimersOk(s) && other != id
    ensures SameFor(s, Apply(s, ExecuteNow(other)), id)
  {
    hide TasksOk, TimersOk, DropTimer;
    DropSameFor(s, other, id);
  }

  lemma AdvanceSameFor(s: State, s': State, t: nat, id: Id)
    requires Advances(s, s', t) && s.tasks[t].id != id
    ensures SameFor(s, s', id)
  {
  }

  /** Tasks numbered below `nextTask` keep their place when a new one is spawned for another id. */
  lemma DropSameFor(s: State, other: Id, id: Id)
    requires TasksOk(s) && TimersOk(s) && other != id
    ensures SameFor(s, DropTimer(s, other), id) && s.nextTask !in DropTimer(s, other).tasks
    ensures DropTimer(s, other).nextTask == s.nextTask && s.nextTask !in s.tasks
  {
    assert other in s.timers ==> s.tasks[s.timers[other].task].id == other;
  }

  lemma ElsewhereLogs(s: State, a: Action, id: Id, from: nat)
    requires Enabled(s, a) && Elsewhere(s, a, id)
    ensures CallsOn(Apply(s, a).calls, from, id) == CallsOn(s.calls, from, id)
    ensures TriggersOn(Apply(s, a).triggers, from, id) == TriggersOn(s.triggers, from, id)
  {
    var s' := Apply(s, a);
    CallsGrow(s, a);
    if |s'.calls| > |s.calls| {
      assert s'.calls[..|s.calls|] == s.calls;
    }
    if |s'.triggers| > |s.triggers| {
      assert s'.triggers[..|s.triggers|] == s.triggers;
    }
  }

  lemma SameForPhases(s: State, s': State, id: Id)
    requires SameFor(s, s', id)
    ensures Idle(s, id) ==> Idle(s', id)
    ensures forall first, last, due :: Armed(s, id, first, last, due) ==> Armed(s', id, first, last, due)
    ensures forall due :: Fired(s, id, due) ==> Fired(s', id, due)
  {
  }

  lemma ElsewhereKeepsBurst(base: State, s: State, a: Action, id: Id, d: nat)
    requires Inv(s) && Enabled(s, a) && Elsewhere(s, a, id) && BurstState(base, s, id, d)
    ensures BurstState(base, Apply(s, a), id, d)
  {
    hide Inv, Enabled, Apply, CallsOn, TriggersOn, Elsewhere, Idle, Armed, Fired, SameFor, BurstState;
    var s' := Apply(s, a);
    ElsewhereSameFor(s, a, id);
    SameForPhases(s, s', id);
    ElsewhereLogs(s, a, id, |base.calls|);
    ElsewhereLogs(s, a, id, |base.triggers|);
    CallsGrow(s, a);
    SamePhase(base, s, s', id, d);
  }

  lemma SamePhase(base: State, s: State, s': State, id: Id, d: nat)
    requires BurstState(base, s, id, d)
    requires CallsOn(s'.calls, |base.calls|, id) == CallsOn(s.calls, |base.calls|, id)
    requires TriggersOn(s'.triggers, |base.triggers|, id) == TriggersOn(s.triggers, |base.triggers|, id)
    requires |s.calls| <= |s'.calls| && forall n :: 0 <= n < |s.calls| ==> s'.calls[n] == s.calls[n]
    requires Idle(s, id) ==> Idle(s', id)
    requires forall first, last, due :: Armed(s, id, first, last, due) ==> Armed(s', id, first, last, due)
    requires forall due :: Fired(s, id, due) ==> Fired(s', id, due)
    ensures BurstState(base, s', id, d)
  {
    hide CallsOn, TriggersOn, Idle, Armed, Fired;
  }

  /** The only task of a burst that can act before the burst is over is the armed timer. */
  lemma OwnTaskKeepsBurst(base: State, s: State, a: Action, id: Id, d: nat)
    requires Inv(s) && Enabled(s, a) && OfTask(a) && s.tasks[a.t].id == id && BurstState(base, s, id, d)
    requires |base.triggers| <= |s.triggers|
    ensures BurstState(base, Apply(s, a), id, d)
  {
    hide TasksOk, TimersOk, StartsOk, AbortedOk, MarksOk, CoverOk, CallsOn, BurstState, Apply;
    if a.Fire? {
      FireEndsBurst(base, s, a.t, id, d);
    } else {
      OwnStepAsleep(s, a);
      AdvanceKeepsBurst(base, s, Apply(s, a), a.t, id, d);
    }
  }

  lemma OwnStepAsleep(s: State, a: Action)
    requires Enabled(s, a) && OfTask(a) && !a.Fire?
    ensures Advances(s, Apply(s, a), a.t) && Apply(s, a).triggers == s.triggers && !s.tasks[a.t].pc.Sleeping?
  {
  }

  lemma AdvanceKeepsBurst(base: State, s: State, s': State, t: nat, id: Id, d: nat)
    requires Advances(s, s', t) && s'.triggers == s.triggers && s.tasks[t].id == id && !s.tasks[t].pc.Sleeping?
    requires BurstState(base, s, id, d)
    ensures BurstState(base, s', id, d)
  {
    hide CallsOn, TriggersOn;
  }

  lemma FireEndsBurst(base: State, s: State, t: nat, id: Id, d: nat)
    requires TasksOk(s) && Enabled(s, Fire(t)) && s.tasks[t].id == id && BurstState(base, s, id, d)
    requires |base.triggers| <= |s.triggers|
    ensures BurstState(base, Apply(s, Fire(t)), id, d)
  {
    hide CallsOn;
    var s' := Apply(s, Fire(t));
    assert s'.triggers[..|s.triggers|] == s.triggers;
    assert s.tasks[t].pc.deadline == s.now;
  }

  lemma CallArms(s: State, id: Id, d: nat, m: nat, first: nat, last: nat, due: nat)
    requires TasksOk(s) && TimersOk(s) && d > 0 && s.now - first < m
    requires (Idle(s, id) && first == s.now) || Armed(s, id, first, last, due)
    ensures Armed(DoDebounce(s, id, d, m), id, first, |s.calls|, s.now + d)
    ensures DoDebounce(s, id, d, m).triggers == s.triggers
  {
    assert s.nextTask !in s.tasks;
  }

  lemma CallKeepsBurst(base: State, s: State, id: Id, d: nat, m: nat)
    requires Inv(s) && BurstState(base, s, id, d)
    requires |base.calls| <= |s.calls|
    requires var s' := DoDebounce(s, id, d, m); IsBurst(s'.calls, CallsOn(s'.calls, |base.calls|, id), d, m)
    ensures BurstState(base, DoDebounce(s, id, d, m), id, d)
  {
    var s', n := DoDebounce(s, id, d, m), |s.calls|;
    DebounceLogs(s, id, d, m);
    hide StartsOk, AbortedOk, MarksOk, CoverOk, DoDebounce, TasksOk, TimersOk, Armed, Idle;
    var ons, ons' := CallsOn(s.calls, |base.calls|, id), CallsOn(s'.calls, |base.calls|, id);
    assert s'.calls[..n] == s.calls;
    assert ons' == ons + [n];
    assert CallInBurst(s'.calls, ons', |ons|, d, m);
    if ons == [] {
      CallArms(s, id, d, m, s.now, 0, 0);
    } else {
      var first, last := s.calls[ons[0]].time, ons[|ons|-1];
      assert ons'[0] == ons[0] && ons'[|ons|-1] == last && s'.calls[last] == s.calls[last];
      CallArms(s, id, d, m, first, last, s.calls[last].time + d);
    }
  }

  lemma CallsOnGrows(calls: seq<Call>, call: Call, from: nat, id: Id)
    ensures CallsOn(calls, from, id) <= CallsOn(calls + [call], from, id)
  {
    assert (calls + [call])[..|calls|] == calls;
  }

  lemma BurstOfPrefix(calls: seq<Call>, call: Call, from: nat, id: Id, d: nat, m: nat)
    requires IsBurst(calls + [call], CallsOn(calls + [call], from, id), d, m)
    ensures IsBurst(calls, CallsOn(calls, from, id), d, m)
  {
    CallsOnGrows(calls, call, from, id);
    hide CallsOn;
    var ons, ons' := CallsOn(calls, from, id), CallsOn(calls + [call], from, id);
    assert forall i :: 0 <= i < |ons| ==> ons'[i] == ons[i] && (calls + [call])[ons[i]] == calls[ons[i]];
    forall i | 0 <= i < |ons|
      ensures CallInBurst(calls, ons, i, d, m)
    {
      assert CallInBurst(calls + [call], ons', i, d, m);
    }
  }

  /** A run in which nobody asks for `id` to be executed at once. */
  ghost predicate NoExecuteNow(run: seq<Action>, id: Id) {
    forall i :: 0 <= i < |run| ==> run[i] != ExecuteNow(id)
  }

  lemma {:induction false} BurstStateAlways(base: State, run: seq<Action>, id: Id, d: nat, m: nat)
    requires Inv(base) && Idle(base, id) && NoExecuteNow(run, id)
    requires var s := Exec(base, run); IsBurst(s.calls, CallsOn(s.calls, |base.calls|, id), d, m)
    ensures var s := Exec(base, run);
            Inv(s) && base.calls <= s.calls && base.triggers <= s.triggers && BurstState(base, s, id, d)
    decreases |run|
  {
    if run != [] {
      var s, a := Exec(base, run[..|run|-1]), run[|run|-1];
      if Enabled(s, a) {
        CallsGrow(s, a);
        if a.Debounce? {
          BurstOfPrefix(s.calls, Call(a.id, s.now, a.debounce, a.maxDebounce, |s.starts|), |base.calls|, id, d, m);
        }
        BurstStateAlways(base, run[..|run|-1], id, d, m);
        StepPreservesInv(s, a);
        hide Inv, BurstState, Apply, IsBurst, CallsOn, Idle, Enabled;
        BurstStep(base, s, a, id, d, m);
      } else {
        BurstStateAlways(base, run[..|run|-1], id, d, m);
      }
    }
  }

  lemma BurstStep(base: State, s: State, a: Action, id: Id, d: nat, m: nat)
    requires Inv(s) && Enabled(s, a) && a != ExecuteNow(id) && BurstState(base, s, id, d)
    requires |base.calls| <= |s.calls| && |base.triggers| <= |s.triggers|
    requires var s' := Apply(s, a); IsBurst(s'.calls, CallsOn(s'.calls, |base.calls|, id), d, m)
    ensures BurstState(base, Apply(s, a), id, d)
  {
    hide Inv, BurstState, DoDebounce, DoExecuteNow;
    if Elsewhere(s, a, id) {
      ElsewhereKeepsBurst(base, s, a, id, d);
    } else if OfTask(a) {
      OwnTaskKeepsBurst(base, s, a, id, d);
    } else {
      LastCallOfBurst(base, s, a, id, d, m);
      CallKeepsBurst(base, s, id, d, m);
    }
  }

  lemma LastCallOfBurst(base: State, s: State, a: Action, id: Id, d: nat, m: nat)
    requires Enabled(s, a) && a.Debounce? && a.id == id && |base.calls| <= |s.calls|
    requires var s' := Apply(s, a); IsBurst(s'.calls, CallsOn(s'.calls, |base.calls|, id), d, m)
    ensures a == Action.Debounce(id, d, m)
  {
    CallsGrow(s, a);
    hide Apply, Enabled;
    var s', n := Apply(s, a), |s.calls|;
    var ons' := CallsOn(s'.calls, |base.calls|, id);
    assert s'.calls[n].id == id;
    assert ons'[|ons'|-1] == n;
    assert CallInBurst(s'.calls, ons', |ons'|-1, d, m);
  }

  lemma BurstIsPunctual(base: State, s: State, id: Id, d: nat)
    requires TasksOk(s) && BurstState(base, s, id, d) && CallsOn(s.calls, |base.calls|, id) != []
    ensures var ons := CallsOn(s.calls, |base.calls|, id);
            var last := ons[|ons|-1];
            var due := s.calls[last].time + d;
            var fired := TriggersOn(s.triggers, |base.triggers|, id);
            && (fired == [] || fired == [Trigger(id, last, due)])
            && (s.now < due ==> fired == []) && (due < s.now ==> fired != [])
  {
    hide CallsOn, TriggersOn;
  }

  /** A burst from an idle id, with every gap below `d`, a span below `m` and no `execute_now`,
      triggers exactly one function: that of the last call, `d` after that call. Nothing is
      triggered before, whatever the other ids do meanwhile. */
  lemma BurstCoalesces(base: State, run: seq<Action>, id: Id, d: nat, m: nat)
    requires Inv(base) && Idle(base, id) && NoExecuteNow(run, id)
    requires var s := Exec(base, run);
             var ons := CallsOn(s.calls, |base.calls|, id);
             ons != [] && IsBurst(s.calls, ons, d, m)
    ensures var s := Exec(base, run);
            var ons := CallsOn(s.calls, |base.calls|, id);
            var last := ons[|ons|-1];
            var due := s.calls[last].time + d;
            var fired := TriggersOn(s.triggers, |base.triggers|, id);
            && (s.now < due ==> fired == [])
            && (due < s.now ==> fired == [Trigger(id, last, due)])
            && (s.now == due ==> fired == [] || fired == [Trigger(id, last, due)])
  {
    hide Exec, IsBurst, CallsOn, TriggersOn, BurstState, Idle, TasksOk, TimersOk, StartsOk, AbortedOk, MarksOk, CoverOk;
    BurstStateAlways(base, run, id, d, m);
    BurstIsPunctual(base, Exec(base, run), id, d);
  }
}
