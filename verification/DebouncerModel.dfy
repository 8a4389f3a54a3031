/** The debouncer as a transition system.

    Any number of tasks may be at any program point. One action is one block of the
    source that runs under one lock (or one await-free stretch between two locks):

      - `Debounce` and `ExecuteNow` are the blocks under the `timers` lock;
      - `Fire` is a timer task waking up and removing the entry of its id;
      - `GetLock` .. `Release` are the steps that a timer task and a `run` share.

    Time is a natural number. Timers are punctual: `Tick` waits for every timer that is due.
    Aborting a task takes effect before the victim's next step. */
module DebouncerModel {

  type Id = string

  datatype Pc =
    | Sleeping(deadline: nat)   // timer task, up to and including its wait for the `timers` lock
    | WantLock                  // about to get or insert the per-id execution lock
    | Waiting(lock: nat)        // waiting for that lock
    | Detaching(lock: nat)      // a run that holds the lock, about to drop the timer entry of its id
    | Ready(lock: nat)          // about to start the function
    | Running(lock: nat)
    | Finished(lock: nat)       // the function returned, about to forget the per-id lock
    | Leaving(lock: nat)        // about to release the lock
  {
    predicate PreStart() {
      Sleeping? || WantLock? || Waiting? || Detaching? || Ready?
    }
  }

  datatype Task = Task(id: Id, call: nat, isRun: bool, pc: Pc)

  /** An entry of the `timers` map. */
  datatype Entry = Entry(start: nat, task: nat, call: nat)

  /** The history of one `debounce` call: `mark` is the number of functions started before it. */
  datatype Call = Call(id: Id, time: nat, debounce: nat, maxDebounce: nat, mark: nat)

  datatype Start = Start(task: nat, call: nat)

  /** A function is triggered when its timer fires or when a call runs it at once. */
  datatype Trigger = Trigger(id: Id, call: nat, time: nat)

  datatype State = State(
    now: nat,
    timers: map<Id, Entry>,
    running: map<Id, nat>,
    held: set<nat>,
    tasks: map<nat, Task>,
    nextTask: nat,
    nextLock: nat,
    calls: seq<Call>,
    starts: seq<Start>,
    triggers: seq<Trigger>,
    aborted: set<nat>)

  datatype Action =
    | Tick
    | Debounce(id: Id, debounce: nat, maxDebounce: nat)
    | ExecuteNow(id: Id)
    | Fire(t: nat)
    | GetLock(t: nat)
    | Acquire(t: nat)
    | Detach(t: nat)
    | Begin(t: nat)
    | Finish(t: nat)
    | Forget(t: nat)
    | Release(t: nat)

  const INIT := State(0, map[], map[], {}, map[], 0, 0, [], [], [], {})

  predicate Enabled(s: State, a: Action) {
    match a
    case Tick => forall t :: t in s.tasks && s.tasks[t].pc.Sleeping? ==> s.now < s.tasks[t].pc.deadline
    case Debounce(_, _, _) => true
    case ExecuteNow(_) => true
    case Fire(t) => t in s.tasks && s.tasks[t].pc.Sleeping? && s.tasks[t].pc.deadline <= s.now
    case GetLock(t) => t in s.tasks && s.tasks[t].pc.WantLock?
    case Acquire(t) => t in s.tasks && s.tasks[t].pc.Waiting? && s.tasks[t].pc.lock !in s.held
    case Detach(t) => t in s.tasks && s.tasks[t].pc.Detaching?
    case Begin(t) => t in s.tasks && s.tasks[t].pc.Ready?
    case Finish(t) => t in s.tasks && s.tasks[t].pc.Running?
    case Forget(t) => t in s.tasks && s.tasks[t].pc.Finished?
    case Release(t) => t in s.tasks && s.tasks[t].pc.Leaving?
  }

  function Move(s: State, t: nat, pc: Pc): State
    requires t in s.tasks
  {
    s.(tasks := s.tasks[t := s.tasks[t].(pc := pc)])
  }

  /** The timer of `id`, if the map has one, is taken out and its task aborted. */
  function DropTimer(s: State, id: Id): State {
    if id in s.timers then
      s.(timers := s.timers - {id},
         tasks := s.tasks - {s.timers[id].task},
         aborted := s.aborted + {s.timers[id].task})
    else s
  }

  function Spawn(s: State, task: Task): State {
    s.(tasks := s.tasks[s.nextTask := task], nextTask := s.nextTask + 1)
  }

  function ChainStart(s: State, id: Id): nat {
    if id in s.timers then s.timers[id].start else s.now
  }

  predicate RunsAtOnce(s: State, id: Id, debounce: nat, maxDebounce: nat) {
    debounce == 0 || s.now - ChainStart(s, id) >= maxDebounce
  }

  /** The call on record, the old timer gone, and the task that carries the call not yet spawned. */
  function Logged(s: State, id: Id, d: nat, m: nat): State {
    DropTimer(s, id).(calls := s.calls + [Call(id, s.now, d, m, |s.starts|)])
  }

  function TaskOfCall(s: State, id: Id, d: nat, m: nat): Task {
    if RunsAtOnce(s, id, d, m) then Task(id, |s.calls|, true, WantLock)
    else Task(id, |s.calls|, false, Sleeping(s.now + d))
  }

  function DoDebounce(s: State, id: Id, d: nat, m: nat): State {
    var n := |s.calls|;
    var s' := Spawn(Logged(s, id, d, m), TaskOfCall(s, id, d, m));
    if RunsAtOnce(s, id, d, m) then s'.(triggers := s.triggers + [Trigger(id, n, s.now)])
    else s'.(timers := s'.timers[id := Entry(ChainStart(s, id), s.nextTask, n)])
  }

  function DoExecuteNow(s: State, id: Id): State {
    if id in s.timers then
      var n := s.timers[id].call;
      Spawn(DropTimer(s, id), Task(id, n, true, WantLock)).(triggers := s.triggers + [Trigger(id, n, s.now)])
    else s
  }

  function DoGetLock(s: State, t: nat): State
    requires t in s.tasks
  {
    var id := s.tasks[t].id;
    if id in s.running then Move(s, t, Waiting(s.running[id]))
    else Move(s, t, Waiting(s.nextLock)).(running := s.running[id := s.nextLock], nextLock := s.nextLock + 1)
  }

  function Apply(s: State, a: Action): State
    requires Enabled(s, a)
  {
    match a
    case Tick => s.(now := s.now + 1)
    case Debounce(id, d, m) => DoDebounce(s, id, d, m)
    case ExecuteNow(id) => DoExecuteNow(s, id)
    case Fire(t) =>
      Move(s, t, WantLock).(timers := s.timers - {s.tasks[t].id},
                            triggers := s.triggers + [Trigger(s.tasks[t].id, s.tasks[t].call, s.now)])
    case GetLock(t) => DoGetLock(s, t)
    case Acquire(t) =>
      var lock := s.tasks[t].pc.lock;
      Move(s, t, if s.tasks[t].isRun then Detaching(lock) else Ready(lock)).(held := s.held + {lock})
    case Detach(t) => Move(s, t, Ready(s.tasks[t].pc.lock)).(timers := s.timers - {s.tasks[t].id})
    case Begin(t) => Move(s, t, Running(s.tasks[t].pc.lock)).(starts := s.starts + [Start(t, s.tasks[t].call)])
    case Finish(t) => Move(s, t, Finished(s.tasks[t].pc.lock))
    case Forget(t) => Move(s, t, Leaving(s.tasks[t].pc.lock)).(running := s.running - {s.tasks[t].id})
    case Release(t) => s.(tasks := s.tasks - {t}, held := s.held - {s.tasks[t].pc.lock})
  }

  // ---------------------------------------------------------------- runs

  /** The state after the run; an action that is not enabled changes nothing. */
  ghost function Exec(s: State, run: seq<Action>): State
    decreases |run|
  {
    if run == [] then s
    else
      var before := Exec(s, run[..|run|-1]);
      var a := run[|run|-1];
      if Enabled(before, a) then Apply(before, a) else before
  }

  // ---------------------------------------------------------------- the invariant

  /** Tasks are numbered, carry a call of their own id, and no two carry the same call. */
  ghost predicate TasksOk(s: State) {
    && (forall t :: t in s.tasks ==>
          t < s.nextTask && s.tasks[t].call < |s.calls| && s.calls[s.tasks[t].call].id == s.tasks[t].id)
    && (forall t, u :: t in s.tasks && u in s.tasks && s.tasks[t].call == s.tasks[u].call ==> t == u)
    && (forall t :: t in s.tasks && s.tasks[t].pc.Sleeping? ==> s.now <= s.tasks[t].pc.deadline)
  }

  /** The `timers` map only names sleeping timer tasks (but not all of them). */
  ghost predicate TimersOk(s: State) {
    forall id :: id in s.timers ==>
      var e := s.timers[id];
      && e.task in s.tasks && s.tasks[e.task].id == id && s.tasks[e.task].call == e.call
      && s.tasks[e.task].pc.Sleeping? && e.start <= s.now
  }

  ghost predicate HasStarted(s: State, n: nat) {
    exists i :: 0 <= i < |s.starts| && s.starts[i].call == n
  }

  /** Each call starts at most once, after the call, by a task that is not aborted. */
  ghost predicate StartsOk(s: State) {
    && (forall i :: 0 <= i < |s.starts| ==> s.starts[i].call < |s.calls| && s.starts[i].task < s.nextTask)
    && (forall i, j :: 0 <= i < j < |s.starts| ==> s.starts[i].call != s.starts[j].call)
    && (forall i :: 0 <= i < |s.starts| && s.starts[i].task in s.tasks ==>
          s.tasks[s.starts[i].task].call == s.starts[i].call)
    && (forall t :: t in s.tasks ==> (HasStarted(s, s.tasks[t].call) <==> !s.tasks[t].pc.PreStart()))
  }

  ghost predicate AbortedOk(s: State) {
    && (forall t :: t in s.aborted ==> t < s.nextTask && t !in s.tasks)
    && (forall i :: 0 <= i < |s.starts| ==> s.starts[i].task !in s.aborted)
  }

  ghost predicate MarksOk(s: State) {
    && (forall n :: 0 <= n < |s.calls| ==> s.calls[n].mark <= |s.starts| && s.calls[n].time <= s.now)
    && (forall n, k :: 0 <= n <= k < |s.calls| ==>
          s.calls[n].mark <= s.calls[k].mark && s.calls[n].time <= s.calls[k].time)
    && (forall i :: 0 <= i < |s.starts| && s.starts[i].call < |s.calls| ==> s.calls[s.starts[i].call].mark <= i)
  }

  /** Task `t` is live, has not started its function yet, and that function is the one of call `k`. */
  ghost predicate Carries(s: State, t: nat, k: nat) {
    t in s.tasks && s.tasks[t].call == k && s.tasks[t].pc.PreStart()
  }

  ghost predicate Carried(s: State, k: nat) {
    exists t :: Carries(s, t, k)
  }

  ghost predicate Alive(s: State, k: nat) {
    HasStarted(s, k) || Carried(s, k)
  }

  ghost predicate SameIdLater(s: State, n: nat, k: nat) {
    n <= k < |s.calls| && s.calls[k].id == s.calls[n].id
  }

  ghost predicate Covered(s: State, n: nat)
    requires n < |s.calls|
  {
    exists k :: SameIdLater(s, n, k) && Alive(s, k)
  }

  ghost predicate CoverOk(s: State) {
    forall n :: 0 <= n < |s.calls| ==> Covered(s, n)
  }

  ghost predicate Inv(s: State) {
    TasksOk(s) && TimersOk(s) && StartsOk(s) && AbortedOk(s) && MarksOk(s) && CoverOk(s)
  }

  // ---------------------------------------------------------------- preservation

  /** Everything but coverage, which dropping a timer breaks for a moment. */
  ghost predicate Sound(s: State) {
    TasksOk(s) && TimersOk(s) && StartsOk(s) && AbortedOk(s) && MarksOk(s)
  }

  /** What every step of a task on its own has in common: it never goes back to sleep, and it
      takes at most its id out of `timers` - for certain when it wakes up. */
  ghost predicate Advances(s: State, s': State, t: nat) {
    && t in s.tasks
    && s'.now == s.now && s'.calls == s.calls && s'.nextTask == s.nextTask && s'.aborted == s.aborted
    && (s'.timers == s.timers - {s.tasks[t].id} || (s'.timers == s.timers && !s.tasks[t].pc.Sleeping?))
    && (|| AdvancesWithin(s, s', t)
        || (s'.tasks == s.tasks - {t} && !s.tasks[t].pc.PreStart() && s'.starts == s.starts))
  }

  ghost predicate AdvancesWithin(s: State, s': State, t: nat)
    requires t in s.tasks
  {
    && t in s'.tasks
    && var pc := s'.tasks[t].pc;
    && s'.tasks == s.tasks[t := s.tasks[t].(pc := pc)] && !pc.Sleeping?
    && (|| (s'.starts == s.starts && pc.PreStart() == s.tasks[t].pc.PreStart())
        || (s'.starts == s.starts + [Start(t, s.tasks[t].call)] && s.tasks[t].pc.PreStart() && !pc.PreStart()))
  }

  predicate OfTask(a: Action) {
    !a.Tick? && !a.Debounce? && !a.ExecuteNow?
  }

  lemma TaskActionAdvances(s: State, a: Action)
    requires Enabled(s, a) && OfTask(a)
    ensures Advances(s, Apply(s, a), a.t)
  {
  }

  lemma AdvancePreservesTasks(s: State, s': State, t: nat)
    requires TasksOk(s) && Advances(s, s', t)
    ensures TasksOk(s')
  {
    assert forall u :: u in s'.tasks ==>
      u in s.tasks && s'.tasks[u].call == s.tasks[u].call && s'.tasks[u].id == s.tasks[u].id;
  }

  lemma AdvancePreservesTimers(s: State, s': State, t: nat)
    requires TasksOk(s) && TimersOk(s) && Advances(s, s', t)
    ensures TimersOk(s')
  {
    forall id | id in s'.timers
      ensures s'.timers[id] == s.timers[id] && s.timers[id].task != t
    {
      assert id in s.timers && s.tasks[s.timers[id].task].id == id;
    }
  }

  lemma AdvancePreservesAborted(s: State, s': State, t: nat)
    requires Sound(s) && Advances(s, s', t)
    ensures AbortedOk(s') && MarksOk(s')
  {
  }

  lemma StartedAfterAdvance(s: State, s': State, t: nat, n: nat)
    requires Sound(s) && Advances(s, s', t)
    ensures HasStarted(s', n) <==>
            HasStarted(s, n) || (s'.starts != s.starts && n == s.tasks[t].call)
  {
    if HasStarted(s, n) {
      var i :| 0 <= i < |s.starts| && s.starts[i].call == n;
      assert s'.starts[i].call == n;
    }
    if s'.starts != s.starts {
      assert s'.starts[|s.starts|].call == s.tasks[t].call;
    }
  }

  lemma AdvancePreservesStarts(s: State, s': State, t: nat)
    requires Sound(s) && Advances(s, s', t)
    ensures StartsOk(s')
  {
    forall n {
      StartedAfterAdvance(s, s', t, n);
    }
    assert s'.starts != s.starts ==> !HasStarted(s, s.tasks[t].call);
  }

  lemma AdvanceKeepsAlive(s: State, s': State, t: nat, k: nat)
    requires Sound(s) && Advances(s, s', t) && Alive(s, k)
    ensures Alive(s', k)
  {
    StartedAfterAdvance(s, s', t, k);
    if Carried(s, k) {
      var u :| Carries(s, u, k);
      assert u != t || s'.starts == s.starts ==> Carries(s', u, k);
    }
  }

  lemma AdvancePreserves(s: State, s': State, t: nat)
    requires Inv(s) && Advances(s, s', t)
    ensures Inv(s')
  {
    AdvancePreservesTasks(s, s', t);
    AdvancePreservesTimers(s, s', t);
    AdvancePreservesAborted(s, s', t);
    AdvancePreservesStarts(s, s', t);
    forall n | 0 <= n < |s'.calls|
      ensures Covered(s', n)
    {
      assert Covered(s, n);
      var k: nat :| SameIdLater(s, n, k) && Alive(s, k);
      AdvanceKeepsAlive(s, s', t, k);
      assert SameIdLater(s', n, k);
    }
  }

  lemma DropKeepsTasks(s: State, id: Id)
    requires TasksOk(s) && TimersOk(s)
    ensures TasksOk(DropTimer(s, id)) && TimersOk(DropTimer(s, id))
  {
    var s' := DropTimer(s, id);
    assert forall u :: u in s'.tasks ==> u in s.tasks && s'.tasks[u] == s.tasks[u];
    forall i | i in s'.timers && id in s.timers
      ensures s.timers[i].task != s.timers[id].task
    {
      assert s.tasks[s.timers[i].task].id == i && s.tasks[s.timers[id].task].id == id;
    }
  }

  lemma DropKeepsStarts(s: State, id: Id)
    requires Sound(s)
    ensures StartsOk(DropTimer(s, id)) && MarksOk(DropTimer(s, id)) && AbortedOk(DropTimer(s, id))
  {
    var s' := DropTimer(s, id);
    assert forall n :: HasStarted(s', n) == HasStarted(s, n);
    if id in s.timers {
      assert s.tasks[s.timers[id].task].pc.PreStart();
    }
  }

  lemma LogKeepsSound(s: State, call: Call)
    requires Sound(s) && call.time == s.now && call.mark == |s.starts|
    ensures Sound(s.(calls := s.calls + [call]))
  {
    var s' := s.(calls := s.calls + [call]);
    assert forall n :: HasStarted(s', n) == HasStarted(s, n);
  }

  /** A task for a call that has not started and that no task carries. */
  ghost predicate Unclaimed(s: State, task: Task) {
    && task.call < |s.calls| && s.calls[task.call].id == task.id && task.pc.PreStart()
    && (task.pc.Sleeping? ==> s.now <= task.pc.deadline)
    && !HasStarted(s, task.call)
    && (forall t :: t in s.tasks ==> s.tasks[t].call != task.call)
  }

  lemma SpawnKeepsTasks(s: State, task: Task)
    requires TasksOk(s) && TimersOk(s) && Unclaimed(s, task)
    ensures TasksOk(Spawn(s, task)) && TimersOk(Spawn(s, task))
  {
    assert s.nextTask !in s.tasks;
  }

  lemma SpawnKeepsStarts(s: State, task: Task)
    requires Sound(s) && Unclaimed(s, task)
    ensures StartsOk(Spawn(s, task)) && AbortedOk(Spawn(s, task)) && MarksOk(Spawn(s, task))
  {
    var s' := Spawn(s, task);
    assert s.nextTask !in s.tasks;
    assert forall n :: HasStarted(s', n) == HasStarted(s, n);
  }

  lemma LoggedIsSound(s: State, id: Id, d: nat, m: nat)
    requires Sound(s)
    ensures Sound(Logged(s, id, d, m))
  {
    hide TasksOk, TimersOk, StartsOk, AbortedOk, MarksOk;
    DropKeepsTasks(s, id);
    DropKeepsStarts(s, id);
    LogKeepsSound(DropTimer(s, id), Call(id, s.now, d, m, |s.starts|));
  }

  lemma CallIsUnclaimed(s: State, id: Id, d: nat, m: nat)
    requires Sound(s)
    ensures Unclaimed(Logged(s, id, d, m), TaskOfCall(s, id, d, m))
  {
    hide TimersOk, AbortedOk, MarksOk;
    var s1 := Logged(s, id, d, m);
    assert forall t :: t in s1.tasks ==> s1.tasks[t] == s.tasks[t] && s.tasks[t].call < |s.calls|;
  }

  lemma SoundAfterDebounce(s: State, id: Id, d: nat, m: nat)
    requires Sound(s)
    ensures Sound(DoDebounce(s, id, d, m))
  {
    hide TasksOk, TimersOk, StartsOk, AbortedOk, MarksOk, Unclaimed, DropTimer;
    LoggedIsSound(s, id, d, m);
    CallIsUnclaimed(s, id, d, m);
    var s1, task := Logged(s, id, d, m), TaskOfCall(s, id, d, m);
    SpawnKeepsTasks(s1, task);
    SpawnKeepsStarts(s1, task);
    if RunsAtOnce(s, id, d, m) {
      SoundWithTriggers(Spawn(s1, task), s.triggers + [Trigger(id, |s.calls|, s.now)]);
    } else {
      assert s1.nextTask == s.nextTask && ChainStart(s, id) <= s1.now by { ChainStartIsPast(s, id); DropFrame(s, id); }
      SoundWithTimer(Spawn(s1, task), id, Entry(ChainStart(s, id), s.nextTask, |s.calls|));
    }
  }

  lemma DropFrame(s: State, id: Id)
    ensures DropTimer(s, id) == s.(timers := DropTimer(s, id).timers, tasks := DropTimer(s, id).tasks,
                                   aborted := DropTimer(s, id).aborted)
  {
  }

  lemma ChainStartIsPast(s: State, id: Id)
    requires TimersOk(s)
    ensures ChainStart(s, id) <= s.now
  {
  }

  lemma SoundWithTriggers(s: State, triggers: seq<Trigger>)
    requires Sound(s)
    ensures Sound(s.(triggers := triggers))
  {
    assert forall n :: HasStarted(s.(triggers := triggers), n) == HasStarted(s, n);
  }

  lemma SoundWithTimer(s: State, id: Id, e: Entry)
    requires Sound(s) && e.task in s.tasks && e.start <= s.now
    requires s.tasks[e.task].id == id && s.tasks[e.task].call == e.call && s.tasks[e.task].pc.Sleeping?
    ensures Sound(s.(timers := s.timers[id := e]))
  {
    hide TasksOk, TimersOk, StartsOk, AbortedOk, MarksOk;
    TimerIsOk(s, id, e);
    TimersMatterOnlyThere(s, s.timers[id := e]);
  }

  lemma TimerIsOk(s: State, id: Id, e: Entry)
    requires TimersOk(s) && e.task in s.tasks && e.start <= s.now
    requires s.tasks[e.task].id == id && s.tasks[e.task].call == e.call && s.tasks[e.task].pc.Sleeping?
    ensures TimersOk(s.(timers := s.timers[id := e]))
  {
  }

  lemma TimersMatterOnlyThere(s: State, timers: map<Id, Entry>)
    requires Sound(s)
    ensures var s' := s.(timers := timers); TasksOk(s') && StartsOk(s') && AbortedOk(s') && MarksOk(s')
  {
    hide TimersOk;
    assert forall n :: HasStarted(s.(timers := timers), n) == HasStarted(s, n);
  }

  lemma SoundAfterExecuteNow(s: State, id: Id)
    requires Sound(s) && id in s.timers
    ensures Sound(DoExecuteNow(s, id))
  {
    hide TasksOk, TimersOk, StartsOk, AbortedOk, MarksOk, Unclaimed, DropTimer;
    var n := s.timers[id].call;
    var s1, task := DropTimer(s, id), Task(id, n, true, WantLock);
    DropKeepsTasks(s, id);
    DropKeepsStarts(s, id);
    DroppedIsUnclaimed(s, id);
    SpawnKeepsTasks(s1, task);
    SpawnKeepsStarts(s1, task);
    SoundWithTriggers(Spawn(s1, task), s.triggers + [Trigger(id, n, s.now)]);
  }

  lemma DroppedIsUnclaimed(s: State, id: Id)
    requires Sound(s) && id in s.timers
    ensures Unclaimed(DropTimer(s, id), Task(id, s.timers[id].call, true, WantLock))
  {
    hide AbortedOk, MarksOk;
    var e, s1 := s.timers[id], DropTimer(s, id);
    assert s.tasks[e.task].call == e.call && s.tasks[e.task].pc.PreStart();
    assert forall n :: HasStarted(s1, n) == HasStarted(s, n);
  }

  // ---------------------------------------------------------------- no scheduled work is lost

  /** Work that is alive stays so, unless its carrier is the timer that is dropped. */
  lemma DropKeepsAlive(s: State, id: Id, k: nat)
    requires Alive(s, k)
    ensures Alive(DropTimer(s, id), k) || (id in s.timers && Carries(s, s.timers[id].task, k))
  {
    var s1 := DropTimer(s, id);
    if HasStarted(s, k) {
      assert HasStarted(s1, k);
    } else {
      var t :| Carries(s, t, k);
      assert t in s1.tasks ==> Carries(s1, t, k);
    }
  }

  lemma SpawnKeepsAlive(s: State, s': State, task: Task, k: nat)
    requires s.nextTask !in s.tasks && task.pc.PreStart()
    requires s'.tasks == Spawn(s, task).tasks && s'.starts == s.starts
    ensures Alive(s', task.call)
    ensures Alive(s, k) ==> Alive(s', k)
  {
    assert Carries(s', s.nextTask, task.call);
    if HasStarted(s, k) {
      assert HasStarted(s', k);
    } else if Carried(s, k) {
      var t :| Carries(s, t, k);
      assert Carries(s', t, k);
    }
  }

  lemma CoverAfterDebounce(s: State, id: Id, d: nat, m: nat, n: nat)
    requires Inv(s) && n <= |s.calls|
    ensures Covered(DoDebounce(s, id, d, m), n)
  {
    hide StartsOk, AbortedOk, MarksOk, DropTimer;
    var s', s1, last := DoDebounce(s, id, d, m), Logged(s, id, d, m), |s.calls|;
    assert s1.nextTask !in s1.tasks && s1.nextTask == s.nextTask by { SpawnSlotIsFree(s, id); }
    DropFrame(s, id);
    SpawnKeepsAlive(s1, s', TaskOfCall(s, id, d, m), last);
    if n == last {
      assert SameIdLater(s', n, last);
    } else {
      assert Covered(s, n);
      var k: nat :| SameIdLater(s, n, k) && Alive(s, k);
      DropKeepsAlive(s, id, k);
      assert SameIdLater(s', n, k);
      if Alive(DropTimer(s, id), k) {
        assert Alive(s1, k) by { LogKeepsAlive(DropTimer(s, id), s1, k); }
        SpawnKeepsAlive(s1, s', TaskOfCall(s, id, d, m), k);
      } else {
        assert s.calls[k].id == id;
        assert SameIdLater(s', n, last);
      }
    }
  }

  lemma LogKeepsAlive(s: State, s': State, k: nat)
    requires s'.tasks == s.tasks && s'.starts == s.starts && Alive(s, k)
    ensures Alive(s', k)
  {
    assert HasStarted(s, k) ==> HasStarted(s', k);
    assert forall t :: Carries(s, t, k) ==> Carries(s', t, k);
  }

  lemma SpawnSlotIsFree(s: State, id: Id)
    requires TasksOk(s)
    ensures DropTimer(s, id).nextTask == s.nextTask && s.nextTask !in DropTimer(s, id).tasks
  {
  }

  lemma CoverAfterExecuteNow(s: State, id: Id, n: nat)
    requires Inv(s) && n < |s.calls| && id in s.timers
    ensures Covered(DoExecuteNow(s, id), n)
  {
    hide StartsOk, AbortedOk, MarksOk, DropTimer;
    var s', s1, e := DoExecuteNow(s, id), DropTimer(s, id), s.timers[id];
    SpawnSlotIsFree(s, id);
    DropFrame(s, id);
    assert Covered(s, n);
    var k: nat :| SameIdLater(s, n, k) && Alive(s, k);
    DropKeepsAlive(s, id, k);
    assert SameIdLater(s', n, k);
    SpawnKeepsAlive(s1, s', Task(id, e.call, true, WantLock), k);
  }

  lemma DebounceLogs(s: State, id: Id, d: nat, m: nat)
    ensures DoDebounce(s, id, d, m).calls == s.calls + [Call(id, s.now, d, m, |s.starts|)]
  {
  }

  lemma TickPreserves(s: State)
    requires Inv(s) && Enabled(s, Tick)
    ensures Inv(Apply(s, Tick))
  {
    var s' := Apply(s, Tick);
    assert forall n :: HasStarted(s', n) == HasStarted(s, n);
    forall n | 0 <= n < |s'.calls|
      ensures Covered(s', n)
    {
      assert Covered(s, n);
      var k: nat :| SameIdLater(s, n, k) && Alive(s, k);
      LogKeepsAlive(s, s', k);
      assert SameIdLater(s', n, k);
    }
  }

  lemma StepPreservesInv(s: State, a: Action)
    requires Inv(s) && Enabled(s, a)
    ensures Inv(Apply(s, a))
  {
    var s' := Apply(s, a);
    if OfTask(a) {
      TaskActionAdvances(s, a);
      hide TasksOk, TimersOk, StartsOk, AbortedOk, MarksOk, CoverOk, Enabled, Apply, Advances;
      AdvancePreserves(s, s', a.t);
    } else {
      match a
      case Tick =>
        TickPreserves(s);
      case Debounce(id, d, m) =>
        hide TasksOk, TimersOk, StartsOk, AbortedOk, MarksOk, Enabled, DoDebounce;
        SoundAfterDebounce(s, id, d, m);
        DebounceLogs(s, id, d, m);
        forall n | 0 <= n < |s'.calls| ensures Covered(s', n) { CoverAfterDebounce(s, id, d, m, n); }
      case ExecuteNow(id) =>
        hide TasksOk, TimersOk, StartsOk, AbortedOk, MarksOk, Enabled;
        if id in s.timers {
          SoundAfterExecuteNow(s, id);
          forall n | 0 <= n < |s.calls| ensures Covered(s', n) { CoverAfterExecuteNow(s, id, n); }
        }
    }
  }

  /** The invariant holds in every state of every run. */
  lemma {:induction false} InvAlways(run: seq<Action>)
    ensures Inv(Exec(INIT, run))
    decreases |run|
  {
    if run != [] {
      var before, a := Exec(INIT, run[..|run|-1]), run[|run|-1];
      InvAlways(run[..|run|-1]);
      hide Inv, Enabled, Apply;
      if Enabled(before, a) {
        StepPreservesInv(before, a);
      }
    }
  }

  /** The function of some call `k`, on the id of call `n` and no older than it, was started after
      call `n` was made, or is carried by a live task that has yet to start it. */
  ghost predicate Obliged(s: State, n: nat, k: nat)
    requires n < |s.calls|
  {
    && SameIdLater(s, n, k)
    && (Carried(s, k) || exists i :: s.calls[n].mark <= i < |s.starts| && s.starts[i].call == k)
  }

  lemma NoWorkLost(run: seq<Action>, n: nat)
    requires n < |Exec(INIT, run).calls|
    ensures exists k :: Obliged(Exec(INIT, run), n, k)
  {
    var s := Exec(INIT, run);
    InvAlways(run);
    hide TasksOk, TimersOk, StartsOk, AbortedOk, Exec;
    assert Covered(s, n);
    var k: nat :| SameIdLater(s, n, k) && Alive(s, k);
    if HasStarted(s, k) {
      var i :| 0 <= i < |s.starts| && s.starts[i].call == k;
      assert s.calls[n].mark <= s.calls[k].mark <= i;
    }
    assert Obliged(s, n, k);
  }

  /** No function is started twice, and none by a task that was aborted. */
  lemma StartedAtMostOnce(run: seq<Action>, i: nat, j: nat)
    requires i < |Exec(INIT, run).starts| && j < |Exec(INIT, run).starts|
    ensures var s := Exec(INIT, run);
            && (s.starts[i].call == s.starts[j].call ==> i == j)
            && s.starts[i].task !in s.aborted
  {
    InvAlways(run);
    hide TasksOk, TimersOk, MarksOk, CoverOk, Exec;
  }
}
