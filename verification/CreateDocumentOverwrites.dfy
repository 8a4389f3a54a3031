/** When `create_document` overwrites an entry. A task that found neither an entry nor a load inserts
    its own lock later; it checks again for a load by then, but not for an entry. Under any
    interleaving this late insert, and nothing else, leads to an entry being overwritten. */
module CreateDocumentOverwrites {
  import opened Wrappers
  import opened CreateDocumentModel
  import opened CreateDocumentScheduling

  /** On its way to become the entry. */
  predicate Replaces(pc: Pc) {
    pc.Loading? || pc.Setting? || pc.Publishing?
  }

  /** Nobody is about to replace the entry of the name. */
  ghost predicate Fresh(s: State, name: string) {
    name in s.docs ==> forall t: nat :: t < |s.tasks| && s.tasks[t].name == name ==> !Replaces(s.tasks[t].pc)
  }

  /** A task inserts its lock although the name has an entry by now. */
  predicate LateInsert(s: State, a: Action, name: string) {
    && a.Advance? && a.t < |s.tasks| && s.tasks[a.t] == Task(name, Inserting)
    && name !in s.loading && name in s.docs
  }

  /** The entry of the name becomes another one, without an unload. */
  predicate Overwrites(s: State, a: Action, name: string) {
    name in s.docs && name in Apply(s, a).docs && Apply(s, a).docs[name] != s.docs[name]
  }

  /** What a step does to its own task and to the entries, as far as it matters here. */
  ghost predicate Nearby(s: State, s': State, t: nat) {
    && t < |s.tasks| == |s'.tasks| && s'.tasks == s.tasks[t := s'.tasks[t]] && s'.tasks[t].name == s.tasks[t].name
    && var pc, pc', name := s.tasks[t].pc, s'.tasks[t].pc, s.tasks[t].name;
    && s'.docs == (if pc.Publishing? then s.docs[name := pc.doc] else s.docs)
    && (Replaces(pc') <==> pc.Loading? || (pc.Setting? && pc.answer.Ok?) || (pc.Inserting? && name !in s.loading))
  }

  lemma PlainNearby(s: State, s': State, t: nat, pc: Pc)
    requires t < |s.tasks| && s'.tasks == s.tasks[t := s.tasks[t].(pc := pc)] && s'.docs == s.docs
    requires !s.tasks[t].pc.Inserting? && !Replaces(s.tasks[t].pc) && !Replaces(pc)
    ensures Nearby(s, s', t)
  {
  }

  lemma ConsultNearby(s: State, t: nat, lock: nat, otherwise: Pc)
    requires t < |s.tasks| && !Replaces(otherwise) && (s.tasks[t].pc.AtLock? || s.tasks[t].pc.AtOther?)
    ensures Nearby(s, Consult(s, t, lock, otherwise), t)
  {
    hide Nearby, Epoch;
    PlainNearby(s, Consult(s, t, lock, otherwise), t, Consult(s, t, lock, otherwise).tasks[t].pc);
  }

  lemma LoaderNearby(s: State, t: nat, loads: bool)
    requires t < |s.tasks| && (s.tasks[t].pc.Inserting? || Replaces(s.tasks[t].pc))
    ensures Nearby(s, DoAdvance(s, t, loads), t)
  {
    hide Blank, Epoch, Consult, Finish;
  }

  lemma AdvanceNearby(s: State, t: nat, loads: bool)
    requires t < |s.tasks|
    ensures Nearby(s, DoAdvance(s, t, loads), t)
  {
    hide Nearby, Blank, Epoch, Consult, DoInsert, DoLoad, DoSet;
    var s' := DoAdvance(s, t, loads);
    match s.tasks[t].pc
    case AtLock(lock) => ConsultNearby(s, t, lock, Rechecking);
    case AtOther(lock) => ConsultNearby(s, t, lock, RecheckingOther);
    case Checking => PlainNearby(s, s', t, s'.tasks[t].pc);
    case Looking => PlainNearby(s, s', t, s'.tasks[t].pc);
    case Rechecking => PlainNearby(s, s', t, s'.tasks[t].pc);
    case RecheckingOther => PlainNearby(s, s', t, Finished);
    case Removing(_, _) => PlainNearby(s, s', t, Finished);
    case Finished => StaysNearby(s, t);
    case _ => LoaderNearby(s, t, loads);
  }

  lemma StaysNearby(s: State, t: nat)
    requires t < |s.tasks| && s.tasks[t].pc.Finished?
    ensures Nearby(s, s, t)
  {
  }

  /** Under any interleaving, a step leaves nobody about to replace an entry unless it is a late insert. */
  lemma FreshUnlessLateInsert(s: State, a: Action, name: string)
    requires LoadsOk(s) && Fresh(s, name)
    ensures Fresh(Apply(s, a), name) <==> !LateInsert(s, a, name)
  {
    hide DoAdvance, LoadsOk;
    if a.Advance? && a.t < |s.tasks| {
      AdvanceNearby(s, a.t, a.loads);
      if s.tasks[a.t].pc.Publishing? && s.tasks[a.t].name == name {
        forall u: nat | u < |s.tasks| && s.tasks[u].name == name && u != a.t ensures !Replaces(s.tasks[u].pc) {
          OnlyLoader(s, a.t, u, name);
        }
      }
    }
  }

  lemma OnlyLoader(s: State, t: nat, u: nat, name: string)
    requires LoadsOk(s) && Loads(s, t, name) && u < |s.tasks| && s.tasks[u].name == name && u != t
    ensures !Replaces(s.tasks[u].pc)
  {
    assert Loads(s, u, name) ==> t == u;
  }

  lemma FreshKeepsEntry(s: State, a: Action, name: string)
    requires Fresh(s, name)
    ensures !Overwrites(s, a, name)
  {
    hide DoAdvance;
    if a.Advance? && a.t < |s.tasks| {
      AdvanceNearby(s, a.t, a.loads);
    }
  }

  /** A run in which nobody inserts a lock late for the name. */
  ghost predicate NoLateInsert(run: seq<Action>, name: string)
    decreases |run|
  {
    run == [] || (NoLateInsert(run[..|run|-1], name) && !LateInsert(Exec(run[..|run|-1]), run[|run|-1], name))
  }

  lemma {:induction false} FreshAlways(run: seq<Action>, name: string)
    requires NoLateInsert(run, name)
    ensures Fresh(Exec(run), name)
    decreases |run|
  {
    hide Apply, LateInsert, NamesOk, LoadsOk;
    if run != [] {
      var last := |run| - 1;
      FreshAlways(run[..last], name);
      InvAlways(run[..last]);
      FreshUnlessLateInsert(Exec(run[..last]), run[last], name);
    }
  }

  /** Under any interleaving: as long as nobody inserts a lock late, no entry is overwritten. */
  lemma NoLateInsertNoOverwrite(run: seq<Action>, a: Action, name: string)
    requires NoLateInsert(run, name)
    ensures !Overwrites(Exec(run), a, name)
  {
    hide Exec, Overwrites, Fresh;
    FreshAlways(run, name);
    FreshKeepsEntry(Exec(run), a, name);
  }

  /** Conversely, after a late insert nothing but the success of the load is needed for the entry to
      be overwritten by another document. */
  lemma LateInsertOverwrites(run: seq<Action>, a: Action, name: string)
    requires LateInsert(Exec(run), a, name)
    ensures exists more: seq<Action>, last ::
              && (forall i :: 0 <= i < |more| ==> more[i].Advance? && more[i].t == a.t)
              && Overwrites(Exec(run + [a] + more), last, name)
  {
    hide Exec, NamesOk;
    InvAlways(run);
    var go, s := Advance(a.t, true), Exec(run);
    EntryIsLoaded(s, name);
    var run1 := Then(run, a);
    var run2 := Then(run1, go);
    var run3 := Then(run2, go);
    assert run3 == run + [a] + [go, go];
    assert Exec(run3).docs == s.docs;
    assert Overwrites(Exec(run3), go, name);
  }

  lemma EntryIsLoaded(s: State, name: string)
    requires NamesOk(s) && name in s.docs
    ensures s.docs[name] < |s.loaded|
  {
  }

  // ---------------------------------------------------------------- it does happen

  lemma Then(run: seq<Action>, a: Action) returns (next: seq<Action>)
    ensures next == run + [a] && Exec(next) == Apply(Exec(run), a)
  {
    next := run + [a];
    assert next[..|run|] == run;
  }

  /** One caller has looked for entries and loads in vain; meanwhile another has loaded the document. */
  lemma LateComer(name: string) returns (run: seq<Action>)
    requires !Blank(name)
    ensures var s := Exec(run);
            && s.docs == map[name := 0] && s.loading == map[] && s.epochs == map[]
            && s.tasks == [Task(name, Inserting), Task(name, Finished)]
            && s.loaded == [name] && s.results == [Result(name, 0, Ok(0))]
  {
    hide Blank, Exec;
    run := BothLooked(name);
    run := Then(run, Advance(1, true));
    run := Then(run, Advance(1, true));
    run := Then(run, Advance(1, true));
    run := Then(run, Advance(1, true));
    run := Then(run, Advance(1, true));
  }

  lemma BothLooked(name: string) returns (run: seq<Action>)
    requires !Blank(name)
    ensures Exec(run) == INIT.(tasks := [Task(name, Inserting), Task(name, Inserting)])
  {
    hide Blank;
    run := [];
    assert Exec(run) == INIT;
    hide Exec;
    run := Then(run, Call(name));
    run := Then(run, Call(name));
    run := Then(run, Advance(0, true));
    run := Then(run, Advance(0, true));
    run := Then(run, Advance(1, true));
    run := Then(run, Advance(1, true));
  }

  /** If tasks may interleave anywhere, an entry can be overwritten by a second load, and two
      callers get different documents although the name was never unloaded. */
  lemma EntryCanBeOverwritten(name: string)
    requires !Blank(name)
    ensures exists run ::
              && |Exec(run).results| == 2 && SameEpoch(Exec(run).results[0], Exec(run).results[1])
              && Exec(run).results[0].answer != Exec(run).results[1].answer
  {
    hide Blank, Exec;
    var run := LateComer(name);
    run := Then(run, Advance(0, true));
    run := Then(run, Advance(0, true));
    run := Then(run, Advance(0, true));
    run := Then(run, Advance(0, true));
    run := Then(run, Advance(0, true));
  }
}
