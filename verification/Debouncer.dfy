/** The debouncer in the shape of the program: two maps that its methods update in place.

    Each method is one block that the source runs under one lock. Its postcondition ties the new
    state to the action of `DebouncerModel` that it performs, so what is proved there of every
    run holds of every interleaving of calls to these methods. */
module DebouncerObject {
  import opened DebouncerModel

  class Debouncer {
    // the two maps of the source
    var timers: map<Id, Entry>
    var runningExecutions: map<Id, nat>

    // the runtime underneath: clock, tasks and execution locks
    var now: nat
    var tasks: map<nat, Task>
    var nextTask: nat
    var heldLocks: set<nat>
    var nextLock: nat
    var callCount: nat

    // history
    ghost var calls: seq<Call>
    ghost var starts: seq<Start>
    ghost var triggers: seq<Trigger>
    ghost var aborted: set<nat>

    ghost predicate Valid()
      reads this
    {
      callCount == |calls|
    }

    ghost function View(): State
      reads this
    {
      State(now, timers, runningExecutions, heldLocks, tasks, nextTask, nextLock, calls, starts, triggers, aborted)
    }

    constructor ()
      ensures Valid() && View() == INIT
    {
      timers, runningExecutions := map[], map[];
      now, tasks, nextTask, heldLocks, nextLock, callCount := 0, map[], 0, {}, 0, 0;
      calls, starts, triggers, aborted := [], [], [], {};
    }

    method Abort(t: nat)
      modifies this`tasks, this`aborted
      ensures tasks == old(tasks) - {t} && aborted == old(aborted) + {t}
    {
      tasks := tasks - {t};
      aborted := aborted + {t};
    }

    method SpawnTask(task: Task) returns (t: nat)
      modifies this`tasks, this`nextTask
      ensures t == old(nextTask) && nextTask == t + 1 && tasks == old(tasks)[t := task]
    {
      t := nextTask;
      tasks := tasks[t := task];
      nextTask := nextTask + 1;
    }

    /** The caller goes on with `run`, modelled as a task of its own. */
    method SpawnRun(id: Id, call: nat)
      modifies this`tasks, this`nextTask, this`triggers
      ensures nextTask == old(nextTask) + 1 && tasks == old(tasks)[old(nextTask) := Task(id, call, true, WantLock)]
      ensures triggers == old(triggers) + [Trigger(id, call, now)]
    {
      var _ := SpawnTask(Task(id, call, true, WantLock));
      triggers := triggers + [Trigger(id, call, now)];
    }

    /** Takes the timer of the id out of the map, if there is one, and aborts its task. */
    method TakeTimer(id: Id)
      modifies this`timers, this`tasks, this`aborted
      ensures View() == DropTimer(old(View()), id)
    {
      if id in timers {
        var previous := timers[id];
        timers := timers - {id};
        Abort(previous.task);
      }
    }

    /** The beginning of `debounce`: the start of the chain is inherited from the timer that goes. */
    method LogCall(id: Id, debounceMs: nat, maxDebounceMs: nat) returns (start: nat, call: nat)
      requires Valid()
      modifies this`timers, this`tasks, this`aborted, this`calls, this`callCount
      ensures Valid() && View() == Logged(old(View()), id, debounceMs, maxDebounceMs)
      ensures start == ChainStart(old(View()), id) && call == |old(calls)|
    {
      hide DropTimer;
      start := if id in timers then timers[id].start else now;
      TakeTimer(id);
      call := callCount;
      callCount := callCount + 1;
      calls := calls + [Call(id, now, debounceMs, maxDebounceMs, |starts|)];
    }

    /** The block of `debounce` under the `timers` lock. */
    method Debounce(id: Id, debounceMs: nat, maxDebounceMs: nat)
      requires Valid()
      modifies this
      ensures Valid()
      ensures View() == Apply(old(View()), Action.Debounce(id, debounceMs, maxDebounceMs))
    {
      hide Logged;
      var start, call := LogCall(id, debounceMs, maxDebounceMs);
      if debounceMs == 0 {
        SpawnRun(id, call);
        return;
      }
      if now - start >= maxDebounceMs {
        SpawnRun(id, call);
        return;
      }
      var handle := SpawnTask(Task(id, call, false, Sleeping(now + debounceMs)));
      timers := timers[id := Entry(start, handle, call)];
    }

    /** The block of `execute_now` under the `timers` lock: the function of the timer, if there is one,
        is triggered now, and its task is gone. */
    method ExecuteNow(id: Id)
      requires Valid()
      modifies this
      ensures Valid() && View() == Apply(old(View()), Action.ExecuteNow(id))
      ensures id !in timers
      ensures id in old(timers) ==>
                && old(timers)[id].task in aborted
                && old(nextTask) in tasks && tasks[old(nextTask)] == Task(id, old(timers)[id].call, true, WantLock)
                && triggers == old(triggers) + [Trigger(id, old(timers)[id].call, now)]
      ensures id !in old(timers) ==> tasks == old(tasks) && triggers == old(triggers)
    {
      if id in timers {
        var entry := timers[id];
        TakeTimer(id);
        SpawnRun(id, entry.call);
      }
    }

    /** A timer task wakes up and removes the entry of its id, whoever put it there. */
    method Wake(t: nat)
      requires Valid() && Enabled(View(), Fire(t))
      modifies this
      ensures Valid() && View() == Apply(old(View()), Fire(t))
    {
      var task := tasks[t];
      timers := timers - {task.id};
      tasks := tasks[t := task.(pc := WantLock)];
      triggers := triggers + [Trigger(task.id, task.call, now)];
    }

    /** Get or insert the execution lock of the task's id. */
    method LookUpLock(t: nat)
      requires Valid() && Enabled(View(), GetLock(t))
      modifies this
      ensures Valid() && View() == Apply(old(View()), GetLock(t))
    {
      var id := tasks[t].id;
      if id !in runningExecutions {
        runningExecutions := runningExecutions[id := nextLock];
        nextLock := nextLock + 1;
      }
      tasks := tasks[t := tasks[t].(pc := Waiting(runningExecutions[id]))];
    }

    method AcquireLock(t: nat)
      requires Valid() && Enabled(View(), Acquire(t))
      modifies this
      ensures Valid() && View() == Apply(old(View()), Acquire(t))
    {
      var lock := tasks[t].pc.lock;
      heldLocks := heldLocks + {lock};
      tasks := tasks[t := tasks[t].(pc := if tasks[t].isRun then Detaching(lock) else Ready(lock))];
    }

    /** `run` drops the timer entry of its id without aborting the timer. */
    method DetachTimer(t: nat)
      requires Valid() && Enabled(View(), Detach(t))
      modifies this
      ensures Valid() && View() == Apply(old(View()), Detach(t))
    {
      timers := timers - {tasks[t].id};
      tasks := tasks[t := tasks[t].(pc := Ready(tasks[t].pc.lock))];
    }

    method StartFunction(t: nat)
      requires Valid() && Enabled(View(), Begin(t))
      modifies this
      ensures Valid() && View() == Apply(old(View()), Begin(t))
    {
      starts := starts + [Start(t, tasks[t].call)];
      tasks := tasks[t := tasks[t].(pc := Running(tasks[t].pc.lock))];
    }

    method FunctionReturned(t: nat)
      requires Valid() && Enabled(View(), Finish(t))
      modifies this
      ensures Valid() && View() == Apply(old(View()), Finish(t))
    {
      tasks := tasks[t := tasks[t].(pc := Finished(tasks[t].pc.lock))];
    }

    method ForgetLock(t: nat)
      requires Valid() && Enabled(View(), Forget(t))
      modifies this
      ensures Valid() && View() == Apply(old(View()), Forget(t))
    {
      runningExecutions := runningExecutions - {tasks[t].id};
      tasks := tasks[t := tasks[t].(pc := Leaving(tasks[t].pc.lock))];
    }

    method ReleaseLock(t: nat)
      requires Valid() && Enabled(View(), Release(t))
      modifies this
      ensures Valid() && View() == Apply(old(View()), Release(t))
    {
      heldLocks := heldLocks - {tasks[t].pc.lock};
      tasks := tasks - {t};
    }

    method IsDebounced(id: Id) returns (debounced: bool)
      ensures debounced <==> id in View().timers
    {
      debounced := id in timers;
    }

    method IsCurrentlyExecuting(id: Id) returns (executing: bool)
      ensures executing <==> id in View().running
    {
      executing := id in runningExecutions;
    }
  }
}
