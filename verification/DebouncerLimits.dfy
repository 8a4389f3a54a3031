/** When functions of one id exclude each other. The task that finishes takes the execution lock of
    its id out of the map even if another task has got hold of it already; the next task then gets a
    fresh lock. Functions of an id exclude each other as long as no finisher leaves a task behind in
    this way, and a task that is left behind can always be overtaken. */
module DebouncerLimits {
  import opened DebouncerModel

  /** The task has got hold of a lock, and has not yet forgotten it. */
  predicate Bound(pc: Pc) {
    pc.Waiting? || pc.Detaching? || pc.Ready? || pc.Running? || pc.Finished?
  }

  predicate HasLock(pc: Pc) {
    Bound(pc) || pc.Leaving?
  }

  predicate Holds(pc: Pc) {
    HasLock(pc) && !pc.Waiting?
  }

  predicate BoundTask(s: State, t: nat, id: Id) {
    t in s.tasks && s.tasks[t].id == id && Bound(s.tasks[t].pc)
  }

  predicate UnderListedLock(s: State, t: nat, id: Id)
    requires BoundTask(s, t, id)
  {
    id in s.running && s.tasks[t].pc.lock == s.running[id]
  }

  /** Every task of the id has the lock that the map lists. */
  ghost predicate Listed(s: State, id: Id) {
    forall t: nat :: BoundTask(s, t, id) ==> UnderListedLock(s, t, id)
  }

  /** A finisher forgets the lock of the id while another task has it. */
  ghost predicate LeavesBehind(s: State, a: Action, id: Id) {
    a.Forget? && BoundTask(s, a.t, id) && exists u: nat :: u != a.t && BoundTask(s, u, id)
  }

  ghost predicate BothRunning(s: State, t: nat, u: nat, id: Id) {
    && t != u && t in s.tasks && u in s.tasks
    && s.tasks[t].id == s.tasks[u].id == id && s.tasks[t].pc.Running? && s.tasks[u].pc.Running?
  }

  // ---------------------------------------------------------------- locks

  /** A lock that a task has belongs to its id. */
  ghost predicate LockOk(s: State, t: nat) {
    t in s.tasks && HasLock(s.tasks[t].pc) ==>
      var id, lock := s.tasks[t].id, s.tasks[t].pc.lock;
      && lock < s.nextLock && (Holds(s.tasks[t].pc) ==> lock in s.held)
      && (forall other :: other in s.running && s.running[other] == lock ==> other == id)
  }

  /** Tasks with one lock are of one id, and only one of them holds it. */
  ghost predicate PairOk(s: State, t: nat, u: nat) {
    t in s.tasks && u in s.tasks && HasLock(s.tasks[t].pc) && HasLock(s.tasks[u].pc)
    && s.tasks[t].pc.lock == s.tasks[u].pc.lock ==>
      s.tasks[t].id == s.tasks[u].id && (Holds(s.tasks[t].pc) && Holds(s.tasks[u].pc) ==> t == u)
  }

  ghost predicate Holder(s: State, t: nat, lock: nat) {
    t in s.tasks && Holds(s.tasks[t].pc) && s.tasks[t].pc.lock == lock
  }

  ghost predicate HeldOk(s: State, lock: nat) {
    lock in s.held ==> exists t: nat :: Holder(s, t, lock)
  }

  ghost predicate RunningOk(s: State) {
    && (forall id :: id in s.running ==> s.running[id] < s.nextLock)
    && (forall id, other :: id in s.running && other in s.running && s.running[id] == s.running[other] ==> id == other)
  }

  ghost predicate LocksOk(s: State) {
    && (forall t: nat :: LockOk(s, t)) && (forall t: nat, u: nat :: PairOk(s, t, u))
    && (forall lock: nat :: HeldOk(s, lock)) && RunningOk(s)
  }

  /** Nobody gets or gives back a lock. */
  ghost predicate SameLocks(s: State, s': State) {
    && s'.running == s.running && s'.held == s.held && s'.nextLock == s.nextLock
    && (forall t: nat :: t in s.tasks && HasLock(s.tasks[t].pc) ==> t in s'.tasks && s'.tasks[t] == s.tasks[t])
    && (forall t: nat :: t in s'.tasks && HasLock(s'.tasks[t].pc) ==> t in s.tasks && s'.tasks[t] == s.tasks[t])
  }

  lemma SameLocksOk(s: State, s': State)
    requires LocksOk(s) && SameLocks(s, s')
    ensures LocksOk(s')
  {
    forall t: nat ensures LockOk(s', t) { assert LockOk(s, t); }
    forall t: nat, u: nat ensures PairOk(s', t, u) { assert PairOk(s, t, u); }
    forall lock: nat ensures HeldOk(s', lock) {
      assert HeldOk(s, lock);
      if lock in s.held {
        var t: nat :| Holder(s, t, lock);
        assert Holder(s', t, lock);
      }
    }
  }

  lemma UnlockedStep(s: State, a: Action)
    requires TasksOk(s) && TimersOk(s) && Enabled(s, a) && (a.Tick? || a.Debounce? || a.ExecuteNow? || a.Fire?)
    ensures SameLocks(s, Apply(s, a))
  {
    hide DropTimer, SameLocks;
    match a
    case Tick => StillSame(s, s.now + 1);
    case Fire(t) => WakingSame(s, t);
    case Debounce(id, d, m) =>
      DropSame(s, id);
      SpawnSame(s, DropTimer(s, id), Apply(s, a));
    case ExecuteNow(id) =>
      DropSame(s, id);
      StillSame(s, s.now);
      if id in s.timers { SpawnSame(s, DropTimer(s, id), Apply(s, a)); }
  }

  lemma StillSame(s: State, now: nat)
    ensures SameLocks(s, s.(now := now))
  {
  }

  lemma WakingSame(s: State, t: nat)
    requires Enabled(s, Fire(t))
    ensures SameLocks(s, Apply(s, Fire(t)))
  {
  }

  lemma DropSame(s: State, id: Id)
    requires TasksOk(s) && TimersOk(s)
    ensures SameLocks(s, DropTimer(s, id)) && s.nextTask !in DropTimer(s, id).tasks
    ensures DropTimer(s, id).nextTask == s.nextTask
  {
  }

  lemma SpawnSame(s: State, s1: State, s': State)
    requires SameLocks(s, s1) && s1.nextTask !in s1.tasks
    requires s1.nextTask in s'.tasks && s'.tasks == s1.tasks[s1.nextTask := s'.tasks[s1.nextTask]]
    requires !HasLock(s'.tasks[s1.nextTask].pc)
    requires s'.running == s1.running && s'.held == s1.held && s'.nextLock == s1.nextLock
    ensures SameLocks(s, s')
  {
  }

  /** A task goes on with the lock it has, held or not as before. */
  lemma GoingOnKeepsLocks(s: State, s': State, t: nat, pc: Pc)
    requires LocksOk(s) && t in s.tasks && s'.tasks == s.tasks[t := s.tasks[t].(pc := pc)]
    requires s'.held == s.held && s'.nextLock == s.nextLock
    requires forall id :: id in s'.running ==> id in s.running && s'.running[id] == s.running[id]
    requires Holds(s.tasks[t].pc) && Holds(pc) && pc.lock == s.tasks[t].pc.lock
    ensures LocksOk(s')
  {
    forall u: nat ensures LockOk(s', u) { assert LockOk(s, u); }
    forall u: nat, v: nat ensures PairOk(s', u, v) { assert PairOk(s, u, v); }
    forall lock: nat ensures HeldOk(s', lock) {
      assert HeldOk(s, lock);
      if lock in s.held {
        var u: nat :| Holder(s, u, lock);
        assert Holder(s', u, lock);
      }
    }
  }

  lemma GetLockKeepsLocks(s: State, t: nat)
    requires LocksOk(s) && Enabled(s, GetLock(t))
    ensures LocksOk(Apply(s, GetLock(t)))
  {
    var s' := Apply(s, GetLock(t));
    forall u: nat ensures LockOk(s', u) { assert LockOk(s, u); }
    forall u: nat, v: nat ensures PairOk(s', u, v) { assert PairOk(s, u, v) && LockOk(s, u) && LockOk(s, v); }
    forall lock: nat ensures HeldOk(s', lock) {
      assert HeldOk(s, lock);
      if lock in s.held {
        var u: nat :| Holder(s, u, lock);
        assert Holder(s', u, lock);
      }
    }
  }

  lemma AcquireKeepsLocks(s: State, t: nat)
    requires LocksOk(s) && Enabled(s, Acquire(t))
    ensures LocksOk(Apply(s, Acquire(t)))
  {
    var s' := Apply(s, Acquire(t));
    forall u: nat ensures LockOk(s', u) { assert LockOk(s, u); }
    forall u: nat, v: nat ensures PairOk(s', u, v) { assert PairOk(s, u, v) && LockOk(s, u) && LockOk(s, v); }
    forall lock: nat ensures HeldOk(s', lock) {
      assert HeldOk(s, lock);
      if lock in s.held {
        var u: nat :| Holder(s, u, lock);
        assert Holder(s', u, lock);
      } else if lock in s'.held {
        assert Holder(s', t, lock);
      }
    }
  }

  lemma ReleaseKeepsLocks(s: State, t: nat)
    requires LocksOk(s) && Enabled(s, Release(t))
    ensures LocksOk(Apply(s, Release(t)))
  {
    var s' := Apply(s, Release(t));
    forall u: nat ensures LockOk(s', u) { assert LockOk(s, u) && PairOk(s, t, u); }
    forall u: nat, v: nat ensures PairOk(s', u, v) { assert PairOk(s, u, v); }
    forall lock: nat ensures HeldOk(s', lock) {
      assert HeldOk(s, lock);
      if lock in s'.held {
        var u: nat :| Holder(s, u, lock);
        assert Holder(s', u, lock);
      }
    }
  }

  lemma StepKeepsLocks(s: State, a: Action)
    requires TasksOk(s) && TimersOk(s) && LocksOk(s) && Enabled(s, a)
    ensures LocksOk(Apply(s, a))
  {
    hide TasksOk, TimersOk, LocksOk, SameLocks, DoDebounce, DoExecuteNow, DoGetLock;
    match a
    case GetLock(t) => GetLockKeepsLocks(s, t);
    case Acquire(t) => AcquireKeepsLocks(s, t);
    case Detach(t) => GoingOnKeepsLocks(s, Apply(s, a), t, Ready(s.tasks[t].pc.lock));
    case Begin(t) => GoingOnKeepsLocks(s, Apply(s, a), t, Running(s.tasks[t].pc.lock));
    case Finish(t) => GoingOnKeepsLocks(s, Apply(s, a), t, Finished(s.tasks[t].pc.lock));
    case Forget(t) => GoingOnKeepsLocks(s, Apply(s, a), t, Leaving(s.tasks[t].pc.lock));
    case Release(t) => ReleaseKeepsLocks(s, t);
    case _ =>
      UnlockedStep(s, a);
      SameLocksOk(s, Apply(s, a));
  }

  lemma {:induction false} LocksAlways(run: seq<Action>)
    ensures LocksOk(Exec(INIT, run)) && Inv(Exec(INIT, run))
    decreases |run|
  {
    hide Inv, Enabled, Apply;
    InvAlways(run);
    if run != [] {
      var s, a := Exec(INIT, run[..|run|-1]), run[|run|-1];
      LocksAlways(run[..|run|-1]);
      if Enabled(s, a) {
        StepKeepsLocks(s, a) by { InvParts(s); }
      }
    }
  }

  lemma InvParts(s: State)
    requires Inv(s)
    ensures TasksOk(s) && TimersOk(s)
  {
  }

  // ---------------------------------------------------------------- while nobody is left behind

  /** The tasks of an id stay under the listed lock exactly as long as no finisher leaves one behind. */
  lemma ListedUnlessLeftBehind(s: State, a: Action, id: Id)
    requires TasksOk(s) && TimersOk(s) && Enabled(s, a) && Listed(s, id)
    ensures Listed(Apply(s, a), id) <==> !LeavesBehind(s, a, id)
  {
    hide TasksOk, TimersOk, DoDebounce, DoExecuteNow;
    var s' := Apply(s, a);
    if a.Tick? || a.Debounce? || a.ExecuteNow? || a.Fire? {
      UnlockedStep(s, a);
      forall t: nat | BoundTask(s', t, id) ensures UnderListedLock(s', t, id) { assert BoundTask(s, t, id); }
    } else {
      TaskStepListed(s, a, id);
    }
  }

  lemma TaskStepListed(s: State, a: Action, id: Id)
    requires Enabled(s, a) && OfTask(a) && !a.Fire? && Listed(s, id)
    ensures Listed(Apply(s, a), id) <==> !LeavesBehind(s, a, id)
  {
    var s' := Apply(s, a);
    forall u: nat ensures u != a.t ==> (BoundTask(s', u, id) <==> BoundTask(s, u, id)) {
    }
    if LeavesBehind(s, a, id) {
      var u: nat :| u != a.t && BoundTask(s, u, id);
      assert BoundTask(s', u, id) && !UnderListedLock(s', u, id);
    } else {
      forall t: nat | BoundTask(s', t, id) ensures UnderListedLock(s', t, id) {
        if t != a.t { assert BoundTask(s, t, id) && UnderListedLock(s, t, id); }
        assert a.t == t && !a.GetLock? ==> BoundTask(s, t, id);
      }
    }
  }

  /** Under the listed lock, functions of the id exclude each other. */
  lemma ListedExcludes(s: State, t: nat, u: nat, id: Id)
    requires LocksOk(s) && Listed(s, id)
    ensures !BothRunning(s, t, u, id)
  {
    if BothRunning(s, t, u, id) {
      assert BoundTask(s, t, id) && BoundTask(s, u, id) && PairOk(s, t, u);
    }
  }

  /** A run in which no finisher of the id leaves another task behind. */
  ghost predicate NoneLeftBehind(run: seq<Action>, id: Id)
    decreases |run|
  {
    run == [] ||
    var s, a := Exec(INIT, run[..|run|-1]), run[|run|-1];
    NoneLeftBehind(run[..|run|-1], id) && !(Enabled(s, a) && LeavesBehind(s, a, id))
  }

  lemma {:induction false} ListedAlways(run: seq<Action>, id: Id)
    requires NoneLeftBehind(run, id)
    ensures Listed(Exec(INIT, run), id)
    decreases |run|
  {
    hide Inv, Enabled, Apply, LeavesBehind;
    if run != [] {
      var s, a := Exec(INIT, run[..|run|-1]), run[|run|-1];
      ListedAlways(run[..|run|-1], id);
      InvAlways(run[..|run|-1]);
      if Enabled(s, a) {
        ListedUnlessLeftBehind(s, a, id) by { InvParts(s); }
      }
    }
  }

  /** Functions of one id exclude each other in every run in which no finisher leaves a task behind. */
  lemma ExclusionUnlessLeftBehind(run: seq<Action>, t: nat, u: nat, id: Id)
    requires NoneLeftBehind(run, id)
    ensures !BothRunning(Exec(INIT, run), t, u, id)
  {
    hide Exec, NoneLeftBehind, Inv, LocksOk, Listed, BothRunning;
    ListedAlways(run, id);
    LocksAlways(run);
    ListedExcludes(Exec(INIT, run), t, u, id);
  }

  // ---------------------------------------------------------------- once somebody is left behind

  /** A task whose lock the map does not list. */
  ghost predicate Stray(s: State, t: nat, id: Id) {
    BoundTask(s, t, id) && !UnderListedLock(s, t, id)
  }

  ghost predicate Good(s: State) {
    Inv(s) && LocksOk(s)
  }

  lemma Then(s: State, run: seq<Action>, a: Action) returns (next: seq<Action>)
    requires Good(Exec(s, run)) && Enabled(Exec(s, run), a)
    ensures next == run + [a] && Exec(s, next) == Apply(Exec(s, run), a) && Good(Exec(s, next))
  {
    hide Inv, LocksOk, Enabled, Apply;
    next := run + [a];
    assert next[..|run|] == run;
    InvParts(Exec(s, run));
    StepPreservesInv(Exec(s, run), a);
    StepKeepsLocks(Exec(s, run), a);
  }

  lemma {:induction false} ExecConcat(s: State, run: seq<Action>, rest: seq<Action>)
    ensures Exec(s, run + rest) == Exec(Exec(s, run), rest)
    decreases |rest|
  {
    hide Enabled, Apply;
    if rest == [] {
      assert run + rest == run;
    } else {
      assert (run + rest)[..|run + rest|-1] == run + rest[..|rest|-1];
      ExecConcat(s, run, rest[..|rest|-1]);
    }
  }

  lemma NothingYet(s: State)
    ensures Exec(s, []) == s
  {
  }

  ghost predicate RunsUnder(s: State, t: nat, id: Id, lock: nat) {
    t in s.tasks && s.tasks[t].id == id && s.tasks[t].pc == Running(lock)
  }

  /** A task that holds its lock and has yet to return can be running. */
  lemma RunUp(s: State, t: nat) returns (run: seq<Action>)
    requires Good(s) && t in s.tasks
    requires s.tasks[t].pc.Detaching? || s.tasks[t].pc.Ready? || s.tasks[t].pc.Running?
    ensures Good(Exec(s, run)) && RunsUnder(Exec(s, run), t, s.tasks[t].id, s.tasks[t].pc.lock)
    ensures Exec(s, run).running == s.running
    ensures forall r :: r in s.tasks && r != t ==> r in Exec(s, run).tasks && Exec(s, run).tasks[r] == s.tasks[r]
  {
    hide Good, Exec;
    run := [];
    NothingYet(s);
    if s.tasks[t].pc.Detaching? {
      run := Then(s, run, Detach(t));
    }
    if !s.tasks[t].pc.Running? {
      run := Then(s, run, Begin(t));
    }
  }

  /** The task that holds the lock, once its function has returned, can give it back. */
  lemma GiveBack(s: State, t: nat) returns (run: seq<Action>)
    requires Good(s) && t in s.tasks && (s.tasks[t].pc.Finished? || s.tasks[t].pc.Leaving?)
    ensures Good(Exec(s, run)) && s.tasks[t].pc.lock !in Exec(s, run).held
    ensures Exec(s, run).running == s.running || Exec(s, run).running == s.running - {s.tasks[t].id}
    ensures Exec(s, run).tasks == s.tasks - {t}
  {
    hide Good, Exec;
    run := [];
    NothingYet(s);
    if s.tasks[t].pc.Finished? {
      run := Then(s, run, Forget(t));
    }
    run := Then(s, run, Release(t));
  }

  /** What can be brought about for the lock that task `v` waits for: a function runs under it, and
      functions under other locks go on running. */
  ghost predicate Seized(s: State, s': State, v: nat, w: nat)
    requires v in s.tasks && s.tasks[v].pc.Waiting?
  {
    var id, lock := s.tasks[v].id, s.tasks[v].pc.lock;
    && Good(s') && RunsUnder(s', w, id, lock)
    && (s'.running == s.running || s'.running == s.running - {id})
    && (forall r, l :: RunsUnder(s, r, id, l) && l != lock ==> RunsUnder(s', r, id, l))
  }

  lemma SeizeFree(s: State, v: nat) returns (run: seq<Action>)
    requires Good(s) && v in s.tasks && s.tasks[v].pc.Waiting? && s.tasks[v].pc.lock !in s.held
    ensures Seized(s, Exec(s, run), v, v)
  {
    hide Good, Exec;
    NothingYet(s);
    var first := Then(s, [], Acquire(v));
    var s1 := Exec(s, first);
    var more := RunUp(s1, v);
    ExecConcat(s, first, more);
    run := first + more;
  }

  lemma HolderOf(s: State, v: nat) returns (h: nat)
    requires Good(s) && v in s.tasks && s.tasks[v].pc.Waiting? && s.tasks[v].pc.lock in s.held
    ensures h != v && Holder(s, h, s.tasks[v].pc.lock) && s.tasks[h].id == s.tasks[v].id
  {
    hide Inv;
    var lock := s.tasks[v].pc.lock;
    assert HeldOk(s, lock);
    h :| Holder(s, h, lock);
    assert PairOk(s, v, h);
  }

  lemma Seize(s: State, v: nat) returns (run: seq<Action>, w: nat)
    requires Good(s) && v in s.tasks && s.tasks[v].pc.Waiting?
    ensures Seized(s, Exec(s, run), v, w)
  {
    hide Good, Exec;
    if s.tasks[v].pc.lock !in s.held {
      w := v;
      run := SeizeFree(s, v);
    } else {
      var h := HolderOf(s, v);
      if s.tasks[h].pc.Finished? || s.tasks[h].pc.Leaving? {
        var first := GiveBack(s, h);
        var more := SeizeFree(Exec(s, first), v);
        ExecConcat(s, first, more);
        run, w := first + more, v;
      } else {
        w := h;
        run := RunUp(s, h);
      }
    }
  }

  /** A new call that runs at once gets hold of the listed lock, or of a fresh one. */
  lemma NewCall(s: State, id: Id) returns (run: seq<Action>, v: nat)
    requires Good(s)
    ensures var s' := Exec(s, run);
            && Good(s') && v !in s.tasks && v in s'.tasks && id in s'.running
            && s'.tasks[v].id == id && s'.tasks[v].pc == Waiting(s'.running[id])
            && (if id in s.running then s'.running == s.running else s'.running[id] == s.nextLock)
            && (forall t :: t in s.tasks && HasLock(s.tasks[t].pc) ==> t in s'.tasks && s'.tasks[t] == s.tasks[t])
  {
    hide Good, Exec, SameLocks;
    NothingYet(s);
    v := s.nextTask;
    var call := Action.Debounce(id, 0, 0);
    CallSpawns(s, id);
    var first := Then(s, [], call);
    CallKeepsLockers(s, id);
    run := Then(s, first, GetLock(v));
  }

  lemma CallSpawns(s: State, id: Id)
    requires Good(s)
    ensures var s' := Apply(s, Action.Debounce(id, 0, 0));
            s.nextTask !in s.tasks && s.nextTask in s'.tasks
            && s'.tasks[s.nextTask].id == id && s'.tasks[s.nextTask].pc == WantLock
  {
    hide LocksOk, StartsOk, AbortedOk, MarksOk, CoverOk;
  }

  lemma CallKeepsLockers(s: State, id: Id)
    requires Good(s)
    ensures var s' := Apply(s, Action.Debounce(id, 0, 0));
            && s'.running == s.running && s'.nextLock == s.nextLock
            && (forall t :: t in s.tasks && HasLock(s.tasks[t].pc) ==> t in s'.tasks && s'.tasks[t] == s.tasks[t])
  {
    hide LocksOk, TasksOk, TimersOk, StartsOk, AbortedOk, MarksOk, CoverOk, DoDebounce;
    UnlockedStep(s, Action.Debounce(id, 0, 0));
  }

  lemma LockIsOld(s: State, t: nat)
    requires Good(s) && t in s.tasks && HasLock(s.tasks[t].pc)
    ensures s.tasks[t].pc.lock < s.nextLock
  {
    hide Inv;
    assert LockOk(s, t);
  }

  /** From a stray task one gets to a running function whose lock is not listed. */
  lemma StrayRuns(s: State, t: nat, id: Id) returns (run: seq<Action>, r: nat)
    requires Good(s) && Stray(s, t, id)
    ensures Good(Exec(s, run)) && Stray(Exec(s, run), r, id) && Exec(s, run).tasks[r].pc.Running?
  {
    hide Good, Exec;
    if s.tasks[t].pc.Waiting? {
      run, r := Seize(s, t);
    } else if s.tasks[t].pc.Finished? {
      var first, v := NewCall(s, id);
      var second := Then(s, first, Forget(t));
      var s2 := Exec(s, second);
      var more, w := Seize(s2, v);
      ExecConcat(s, second, more);
      run, r := second + more, w;
    } else {
      r := t;
      run := RunUp(s, t);
    }
  }

  /** From every state with a task that is left behind, a new call can run beside it. */
  lemma StrayIsJoined(s: State, t: nat, id: Id)
    requires Good(s) && Stray(s, t, id)
    ensures exists run, u, v :: BothRunning(Exec(s, run), u, v, id)
  {
    hide Good, Exec;
    var run1, r := StrayRuns(s, t, id);
    var s1 := Exec(s, run1);
    var run2, v := NewCall(s1, id);
    var s2 := Exec(s1, run2);
    LockIsOld(s1, r);
    assert RunsUnder(s2, r, id, s1.tasks[r].pc.lock);
    var run3, w := Seize(s2, v);
    ExecConcat(s1, run2, run3);
    ExecConcat(s, run1, run2 + run3);
    assert BothRunning(Exec(s, run1 + (run2 + run3)), r, w, id);
  }

  /** Conversely, after every step that leaves a task behind, two functions of the id can run at the
      same time. */
  lemma LeftBehindIsJoined(run: seq<Action>, a: Action, id: Id)
    requires Enabled(Exec(INIT, run), a) && LeavesBehind(Exec(INIT, run), a, id)
    ensures exists more, u, v :: BothRunning(Exec(INIT, run + [a] + more), u, v, id)
  {
    hide Exec, Inv, LocksOk;
    LocksAlways(run);
    var s := Exec(INIT, run);
    var next := Then(INIT, run, a);
    var u: nat :| u != a.t && BoundTask(s, u, id);
    StrayIsJoined(Exec(INIT, next), u, id);
    var more, v, w :| BothRunning(Exec(Exec(INIT, next), more), v, w, id);
    ExecConcat(INIT, next, more);
  }

  /** A finisher can leave a task behind: any two calls that run at once will do. */
  lemma FinisherLeavesBehind(id: Id) returns (run: seq<Action>)
    ensures Enabled(Exec(INIT, run), Forget(0)) && LeavesBehind(Exec(INIT, run), Forget(0), id)
  {
    run := FirstReturned(id);
    hide Exec;
    assert BoundTask(Exec(INIT, run), 1, id);
  }

  lemma FirstReturned(id: Id) returns (run: seq<Action>)
    ensures Exec(INIT, run).tasks == map[0 := Task(id, 0, true, Finished(0)), 1 := Task(id, 1, true, Waiting(0))]
  {
    hide Exec, Good;
    run := BothLookedUp(id);
    run := Then(INIT, run, Acquire(0));
    run := Then(INIT, run, Detach(0));
    run := Then(INIT, run, Begin(0));
    run := Then(INIT, run, Finish(0));
  }

  lemma InitIsGood()
    ensures Exec(INIT, []) == INIT && Good(INIT)
  {
    LocksAlways([]);
  }

  lemma BothLookedUp(id: Id) returns (run: seq<Action>)
    ensures var s := Exec(INIT, run);
            && Good(s) && s.held == {} && s.tasks == map[0 := Task(id, 0, true, Waiting(0)), 1 := Task(id, 1, true, Waiting(0))]
  {
    hide Exec, Good;
    InitIsGood();
    run := [];
    run := Then(INIT, run, Action.Debounce(id, 0, 1));
    run := Then(INIT, run, GetLock(0));
    run := Then(INIT, run, Action.Debounce(id, 0, 1));
    run := Then(INIT, run, GetLock(1));
  }

  /** So the lock per id does not exclude: two functions of any id can run at the same time. */
  lemma PerIdExclusionFails(id: Id)
    ensures exists run, t, u :: BothRunning(Exec(INIT, run), t, u, id)
  {
    hide Exec, Enabled, LeavesBehind, BothRunning;
    var run := FinisherLeavesBehind(id);
    LeftBehindIsJoined(run, Forget(0), id);
  }
}
