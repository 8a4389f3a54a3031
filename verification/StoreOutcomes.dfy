/** What the steps of the store pipeline bring about, told by what can be observed: the debounce calls
    with their delays, the triggers, the order of the hooks and who holds the save mutex. */
module StoreOutcomes {
  import opened StorePipelineModel
  import Calls = DebouncerCalls
  import StoreObligations
  import D = DebouncerModel

  /** A debounce call for `doc` with these delays: it is triggered at once, or a timer is armed that is
      due after the delay; the hooks that run notice nothing. */
  ghost predicate CallMade(s: State, s': State, doc: Doc, d: nat, m: nat) {
    var id, n, t := DebounceId(doc.name), |s.callDoc|, s.deb.nextTask;
    var start := if id in s.deb.timers then s.deb.timers[id].start else s.deb.now;
    && s'.callDoc == s.callDoc + [doc] && s'.callSeen == s.callSeen + [|s.updates|] && s'.updates == s.updates
    && s'.hooks == s.hooks && s'.savers == s.savers && s'.attempts == s.attempts && s'.traces == s.traces
    && |s'.deb.calls| == n + 1 && s'.deb.calls[n].id == id && s'.deb.calls[n].time == s.deb.now
    && (d == 0 || s.deb.now >= start + m ==>
          s'.deb.triggers == s.deb.triggers + [D.Trigger(id, n, s.deb.now)] && Calls.RunsNow(s'.deb, t, id, n))
    && (d > 0 && s.deb.now < start + m ==>
          && s'.deb.triggers == s.deb.triggers && id in s'.deb.timers && s'.deb.timers[id] == D.Entry(start, t, n)
          && t in s'.deb.tasks && s'.deb.tasks[t].pc == D.Sleeping(s.deb.now + d))
  }

  lemma CallIsMade(s: State, doc: Doc, d: nat, m: nat)
    requires Inv(s)
    ensures CallMade(s, CallDebounce(s, doc, d, m), doc, d, m)
  {
    hide HooksOk, StartsStore, AttemptsOk, UpdatesOk, D.TasksOk, D.TimersOk, D.StartsOk, D.AbortedOk, D.MarksOk, D.CoverOk;
    hide D.DoDebounce, Calls.RunsNow, Calls.EntriesUntouched;
    Calls.CallOutcome(s.deb, DebounceId(doc.name), d, m);
  }

  /** The observer of an update makes one call, for the document of that very update, and is gone. */
  lemma ObserverCalls(s: State, u: nat, d: nat, m: nat)
    requires Inv(s) && Enabled(s, Observe(u, d, m))
    ensures var s' := Apply(s, Observe(u, d, m)); CallMade(s, s', s.updates[u], d, m) && s'.observers == s.observers - {u}
  {
    hide Inv, CallDebounce, Calls.RunsNow;
    CallIsMade(s, s.updates[u], d, m);
    SameButObservers(s, u, d, m);
  }

  lemma SameButObservers(s: State, u: nat, d: nat, m: nat)
    requires u < |s.updates|
    ensures CallDebounce(s, s.updates[u], d, m).observers == s.observers
  {
    hide D.DoDebounce;
  }

  /** A store that is asked for at once is triggered at that very time, whatever the timers say. */
  lemma StoreNowIsTriggered(s: State, doc: Doc, m: nat)
    requires Inv(s)
    ensures var s', n := Apply(s, StoreNow(doc, m)), |s.callDoc|;
            && s'.callDoc == s.callDoc + [doc] && s'.observers == s.observers
            && s'.deb.triggers == s.deb.triggers + [D.Trigger(DebounceId(doc.name), n, s.deb.now)]
            && Calls.RunsNow(s'.deb, s.deb.nextTask, DebounceId(doc.name), n)
  {
    hide Inv, Calls.RunsNow, D.DoDebounce;
    CallIsMade(s, doc, 0, m);
  }

  /** `execute_now` for a name triggers the store that its timer was armed for, of a document with
      that name, now; without a timer of the name it does nothing. */
  lemma FlushTriggers(s: State, name: string)
    requires Inv(s)
    ensures var id, s' := DebounceId(name), Apply(s, Debouncer(D.ExecuteNow(DebounceId(name))));
            && (id !in s.deb.timers ==> s' == s)
            && (id in s.deb.timers ==>
                  var n := s.deb.timers[id].call;
                  && n < |s.callDoc| && s.callDoc[n].name == name && id !in s'.deb.timers
                  && s'.deb.triggers == s.deb.triggers + [D.Trigger(id, n, s.deb.now)]
                  && Calls.RunsNow(s'.deb, s.deb.nextTask, id, n) && s' == s.(deb := s'.deb))
  {
    hide HooksOk, StartsStore, AttemptsOk, UpdatesOk, D.TasksOk, D.TimersOk, D.StartsOk, D.AbortedOk, D.MarksOk, D.CoverOk;
    hide D.DoExecuteNow, Calls.RunsNow, Calls.OthersUntouched, Calls.EntriesUntouched, DebounceId;
    var id := DebounceId(name);
    Calls.ExecuteNowOutcome(s.deb, id);
    if id in s.deb.timers {
      Calls.ListedCallExists(s.deb, id);
      StoreObligations.SameIdSameName(s.callDoc[s.deb.timers[id].call].name, name);
    }
  }

  /** A function that is started waits for the save mutex of its document. */
  lemma StartedWaits(s: State, t: nat)
    requires Enabled(s, Debouncer(D.Begin(t)))
    ensures Apply(s, Debouncer(D.Begin(t))).hooks == s.hooks[t := AtMutex]
  {
  }

  /** It begins to store exactly when the mutex of its document is free, and takes it; the attempt is
      for the document of the call, and sees all updates up to now. */
  lemma StoreBegins(s: State, t: nat)
    requires RunsHook(s, t, AtMutex)
    ensures Enabled(s, BeginStore(t)) <==> DocOf(s, t) !in s.savers
    ensures Enabled(s, BeginStore(t)) ==>
              var s', doc := Apply(s, BeginStore(t)), s.callDoc[s.deb.tasks[t].call];
              && s'.attempts == s.attempts + [Attempt(doc, s.deb.tasks[t].call, |s.updates|)]
              && s'.savers == s.savers[doc := t] && s'.hooks == s.hooks[t := Storing]
              && TraceOf(s', doc) == TraceOf(s, doc) + [StoreBegin(t)]
              && s'.deb == s.deb && s'.updates == s.updates && s'.observers == s.observers
  {
  }

  /** Task `t` has come to `pc` by these events; nothing else has happened since `s`. */
  ghost predicate Passed(s: State, s': State, t: nat, pc: HookPc, events: seq<Event>)
    requires t in s.deb.tasks && s.deb.tasks[t].call < |s.callDoc|
  {
    var doc := DocOf(s, t);
    && s'.hooks == s.hooks[t := pc] && s'.deb == s.deb && s'.callDoc == s.callDoc
    && s'.savers == (if pc.Done? then s.savers - {doc} else s.savers) && s'.attempts == s.attempts
    && TraceOf(s', doc) == TraceOf(s, doc) + events && forall o: Doc :: o != doc ==> TraceOf(s', o) == TraceOf(s, o)
  }

  // where the steps of the hooks are possible, where they lead, and the events they leave

  lemma EndStoreStep(s: State, t: nat, ok: bool)
    requires t in s.hooks && RunsHook(s, t, s.hooks[t])
    ensures Enabled(s, EndStore(t, ok)) <==> s.hooks[t].Storing?
    ensures s.hooks[t].Storing? ==>
              Passed(s, Apply(s, EndStore(t, ok)), t, if ok then StoreOk else Unlocking, [StoreEnd(t, ok)])
  {
  }

  lemma BeginAfterStep(s: State, t: nat)
    requires t in s.hooks && RunsHook(s, t, s.hooks[t])
    ensures Enabled(s, BeginAfter(t)) <==> s.hooks[t].StoreOk?
    ensures s.hooks[t].StoreOk? ==> Passed(s, Apply(s, BeginAfter(t)), t, AfterStoring, [AfterBegin(t)])
  {
  }

  lemma EndAfterStep(s: State, t: nat)
    requires t in s.hooks && RunsHook(s, t, s.hooks[t])
    ensures Enabled(s, EndAfter(t)) <==> s.hooks[t].AfterStoring?
    ensures s.hooks[t].AfterStoring? ==> Passed(s, Apply(s, EndAfter(t)), t, Unlocking, [AfterEnd(t)])
  {
  }

  lemma UnlockStep(s: State, t: nat)
    requires t in s.hooks && RunsHook(s, t, s.hooks[t])
    ensures Enabled(s, Unlock(t)) <==> s.hooks[t].Unlocking?
    ensures s.hooks[t].Unlocking? ==> Passed(s, Apply(s, Unlock(t)), t, Done, [])
  {
    assert TraceOf(s, DocOf(s, t)) + [] == TraceOf(s, DocOf(s, t));
  }

  lemma PassedOn(s: State, s1: State, s2: State, t: nat, pc: HookPc, pc': HookPc, events: seq<Event>, more: seq<Event>)
    requires t in s.deb.tasks && s.deb.tasks[t].call < |s.callDoc| && Passed(s, s1, t, pc, events) && !pc.Done?
    requires Passed(s1, s2, t, pc', more)
    ensures Passed(s, s2, t, pc', events + more) && RunsHook(s2, t, pc')
  {
    assert TraceOf(s, DocOf(s, t)) + events + more == TraceOf(s, DocOf(s, t)) + (events + more);
  }

  lemma Passes(s: State, s': State, t: nat, pc: HookPc, events: seq<Event>)
    requires t in s.deb.tasks && s.deb.tasks[t].call < |s.callDoc| && Passed(s, s', t, pc, events)
    ensures RunsHook(s', t, pc)
  {
  }

  /** A failed store gives the mutex back without an after-store hook. */
  lemma FailedStoreEnds(s: State, t: nat)
    requires RunsHook(s, t, Storing)
    ensures Enabled(s, EndStore(t, false)) && var s1 := Apply(s, EndStore(t, false));
            !Enabled(s1, BeginAfter(t)) && Enabled(s1, Unlock(t))
            && Passed(s, Apply(s1, Unlock(t)), t, Done, [StoreEnd(t, false)])
  {
    hide Enabled, Apply, Passed, RunsHook;
    RunsIt(s, t, Storing);
    EndStoreStep(s, t, false);
    var s1 := Apply(s, EndStore(t, false));
    Passes(s, s1, t, Unlocking, [StoreEnd(t, false)]);
    RunsIt(s1, t, Unlocking);
    BeginAfterStep(s1, t);
    UnlockStep(s1, t);
    PassedOn(s, s1, Apply(s1, Unlock(t)), t, Unlocking, Done, [StoreEnd(t, false)], []);
    assert [StoreEnd(t, false)] + [] == [StoreEnd(t, false)];
  }

  lemma RunsIt(s: State, t: nat, pc: HookPc)
    requires RunsHook(s, t, pc)
    ensures t in s.hooks && s.hooks[t] == pc && t in s.deb.tasks && s.deb.tasks[t].call < |s.callDoc|
  {
  }

  /** A store that succeeds is followed by its after-store hook, and then gives the mutex back. */
  lemma StoreEnds(s: State, t: nat)
    requires RunsHook(s, t, Storing)
    ensures Enabled(s, EndStore(t, true)) && var s1 := Apply(s, EndStore(t, true));
            !Enabled(s1, Unlock(t)) && Enabled(s1, BeginAfter(t)) && var s2 := Apply(s1, BeginAfter(t));
            !Enabled(s2, Unlock(t)) && Enabled(s2, EndAfter(t)) && var s3 := Apply(s2, EndAfter(t));
            Enabled(s3, Unlock(t))
            && Passed(s, Apply(s3, Unlock(t)), t, Done, [StoreEnd(t, true), AfterBegin(t), AfterEnd(t)])
  {
    hide Enabled, Apply, Passed, RunsHook;
    RunsIt(s, t, Storing);
    EndStoreStep(s, t, true);
    var s1 := Apply(s, EndStore(t, true));
    Passes(s, s1, t, StoreOk, [StoreEnd(t, true)]);
    RunsIt(s1, t, StoreOk);
    UnlockStep(s1, t);
    BeginAfterStep(s1, t);
    var s2 := Apply(s1, BeginAfter(t));
    PassedOn(s, s1, s2, t, StoreOk, AfterStoring, [StoreEnd(t, true)], [AfterBegin(t)]);
    RunsIt(s2, t, AfterStoring);
    UnlockStep(s2, t);
    EndAfterStep(s2, t);
    var s3 := Apply(s2, EndAfter(t));
    PassedOn(s, s2, s3, t, AfterStoring, Unlocking, [StoreEnd(t, true), AfterBegin(t)], [AfterEnd(t)]);
    RunsIt(s3, t, Unlocking);
    UnlockStep(s3, t);
    var all := [StoreEnd(t, true), AfterBegin(t), AfterEnd(t)];
    PassedOn(s, s3, Apply(s3, Unlock(t)), t, Unlocking, Done, all, []);
    assert all + [] == all;
  }

  /** A function whose hooks are over returns to the debouncer. */
  lemma DoneReturns(s: State, t: nat)
    requires Inv(s) && RunsHook(s, t, Done)
    ensures Enabled(s, Return(t)) && var s' := Apply(s, Return(t));
            t !in s'.hooks && t in s'.deb.tasks && s'.deb.tasks[t].pc.Finished? && s'.savers == s.savers
  {
    hide D.Inv, CallsOk, StartsStore, AttemptsOk, UpdatesOk;
  }
}
