/** The store half of `Hocuspocus` in the shape of the program: an object that owns a debouncer and
    updates its maps in place. Each method is one await-free stretch of the source; its
    postcondition names the action of `StorePipelineModel` that it performs. */
module StorePipelineObject {
  import opened StorePipelineModel
  import DebouncerObject
  import D = DebouncerModel

  class StorePipeline {
    const debouncer: DebouncerObject.Debouncer
    var debounceMs: nat
    var maxDebounceMs: nat
    var saveMutexes: map<Doc, nat>
    var hooks: map<nat, HookPc>
    var updateCount: nat
    var pendingObservers: map<nat, Doc>
    var callDoc: seq<Doc>

    ghost var updates: seq<Doc>
    ghost var callSeen: seq<nat>
    ghost var attempts: seq<Attempt>
    ghost var traces: map<Doc, seq<Event>>

    ghost predicate Valid()
      reads this, debouncer
    {
      && debouncer.Valid()
      && updateCount == |updates|
      && forall u :: u in pendingObservers ==> u < |updates| && updates[u] == pendingObservers[u]
    }

    ghost function View(): State
      reads this, debouncer
    {
      State(debouncer.View(), updates, pendingObservers.Keys, callDoc, callSeen, hooks, saveMutexes, attempts, traces)
    }

    constructor (debounceMs: nat, maxDebounceMs: nat)
      ensures Valid() && View() == INIT && fresh(debouncer)
      ensures this.debounceMs == debounceMs && this.maxDebounceMs == maxDebounceMs
    {
      debouncer := new DebouncerObject.Debouncer();
      this.debounceMs, this.maxDebounceMs := debounceMs, maxDebounceMs;
      saveMutexes, hooks, updateCount, pendingObservers, callDoc := map[], map[], 0, map[], [];
      updates, callSeen, attempts, traces := [], [], [], map[];
    }

    /** The update observer of a document: it spawns a task for the update. */
    method OnUpdate(doc: Doc)
      requires Valid()
      modifies this
      ensures Valid() && View() == Apply(old(View()), Integrate(doc))
    {
      pendingObservers := pendingObservers[updateCount := doc];
      updateCount := updateCount + 1;
      updates := updates + [doc];
    }

    /** The end of that task: every update without an origin goes to the store hooks. */
    method HandleDocumentUpdate(u: nat)
      requires Valid() && u in pendingObservers
      modifies this, debouncer
      ensures Valid() && View() == Apply(old(View()), Observe(u, old(debounceMs), old(maxDebounceMs)))
    {
      var doc := pendingObservers[u];
      StoreDocumentHooks(doc, false);
      pendingObservers := pendingObservers - {u};
    }

    method StoreDocumentHooks(doc: Doc, immediately: bool)
      requires Valid()
      modifies this, debouncer
      ensures Valid() && pendingObservers == old(pendingObservers) && updates == old(updates)
      ensures View() == CallDebounce(old(View()), doc, if immediately then 0 else old(debounceMs), old(maxDebounceMs))
    {
      var delay := if immediately then 0 else debounceMs;
      debouncer.Debounce(DebounceId(doc.name), delay, maxDebounceMs);
      callDoc := callDoc + [doc];
      callSeen := callSeen + [|updates|];
    }

    ghost method Trace(doc: Doc, e: Event)
      modifies this`traces
      ensures traces == old(traces)[doc := TraceOf(old(View()), doc) + [e]]
    {
      traces := traces[doc := TraceOf(View(), doc) + [e]];
    }

    /** The function of a call takes the save mutex and enters the store hook. */
    method EnterStoreHook(t: nat)
      requires Valid() && Enabled(View(), BeginStore(t))
      modifies this
      ensures Valid() && View() == Apply(old(View()), BeginStore(t))
    {
      var call := debouncer.tasks[t].call;
      var doc := callDoc[call];
      Trace(doc, StoreBegin(t));
      saveMutexes := saveMutexes[doc := t];
      hooks := hooks[t := Storing];
      attempts := attempts + [Attempt(doc, call, |updates|)];
    }

    /** The store hook returns; an error of any kind skips the after-store hook. */
    method LeaveStoreHook(t: nat, ok: bool)
      requires Valid() && Enabled(View(), EndStore(t, ok))
      modifies this
      ensures Valid() && View() == Apply(old(View()), EndStore(t, ok))
    {
      Trace(DocOf(View(), t), StoreEnd(t, ok));
      hooks := hooks[t := if ok then StoreOk else Unlocking];
    }

    method EnterAfterStoreHook(t: nat)
      requires Valid() && Enabled(View(), BeginAfter(t))
      modifies this
      ensures Valid() && View() == Apply(old(View()), BeginAfter(t))
    {
      Trace(DocOf(View(), t), AfterBegin(t));
      hooks := hooks[t := AfterStoring];
    }

    method LeaveAfterStoreHook(t: nat)
      requires Valid() && Enabled(View(), EndAfter(t))
      modifies this
      ensures Valid() && View() == Apply(old(View()), EndAfter(t))
    {
      Trace(DocOf(View(), t), AfterEnd(t));
      hooks := hooks[t := Unlocking];
    }

    method DropGuard(t: nat)
      requires Valid() && Enabled(View(), Unlock(t))
      modifies this
      ensures Valid() && View() == Apply(old(View()), Unlock(t))
    {
      saveMutexes := saveMutexes - {callDoc[debouncer.tasks[t].call]};
      hooks := hooks[t := Done];
    }
  }
}
