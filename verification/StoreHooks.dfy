/** The hooks of one document, on top of `StorePipelineModel`: whatever runs concurrently they never
    overlap, and each store hook that succeeds is followed by its own after-store hook. This rests on
    the save mutex of the document, not on the debouncer's lock per id. */
module StoreHooks {
  import opened StorePipelineModel
  import D = DebouncerModel

  /** What the last events of a trace leave open. */
  datatype Mode = Idle | InStore(t: nat) | AfterDue(t: nat) | InAfter(t: nat) | Broken

  function NextMode(m: Mode, e: Event): Mode {
    match e
    case StoreBegin(t) => if m.Idle? then InStore(t) else Broken
    case StoreEnd(t, ok) => if m == InStore(t) then (if ok then AfterDue(t) else Idle) else Broken
    case AfterBegin(t) => if m == AfterDue(t) then InAfter(t) else Broken
    case AfterEnd(t) => if m == InAfter(t) then Idle else Broken
  }

  function Scan(trace: seq<Event>): Mode {
    if trace == [] then Idle else NextMode(Scan(trace[..|trace|-1]), trace[|trace|-1])
  }

  /** The save mutex is held exactly by the function that is between its store hook and its end. */
  function ModeOf(t: nat, pc: HookPc): Mode {
    match pc
    case Storing => InStore(t)
    case StoreOk => AfterDue(t)
    case AfterStoring => InAfter(t)
    case _ => Idle
  }

  predicate HoldsMutex(pc: HookPc) {
    pc.Storing? || pc.StoreOk? || pc.AfterStoring? || pc.Unlocking?
  }

  ghost predicate SaverOk(s: State, doc: Doc) {
    doc in s.savers ==>
      var t := s.savers[doc];
      t in s.hooks && t in s.deb.tasks && s.deb.tasks[t].call < |s.callDoc| && DocOf(s, t) == doc
      && HoldsMutex(s.hooks[t])
  }

  ghost predicate HolderOk(s: State, t: nat) {
    t in s.hooks && HoldsMutex(s.hooks[t]) ==>
      t in s.deb.tasks && s.deb.tasks[t].call < |s.callDoc|
      && DocOf(s, t) in s.savers && s.savers[DocOf(s, t)] == t
  }

  ghost predicate MutexOk(s: State) {
    (forall doc :: SaverOk(s, doc)) && (forall t: nat :: HolderOk(s, t))
  }

  ghost predicate TraceOk(s: State, doc: Doc) {
    Scan(TraceOf(s, doc)) ==
      if doc in s.savers && s.savers[doc] in s.hooks then ModeOf(s.savers[doc], s.hooks[s.savers[doc]]) else Idle
  }

  ghost predicate TracesOk(s: State) {
    forall doc: Doc :: TraceOk(s, doc)
  }

  lemma ScanGrows(trace: seq<Event>, e: Event)
    ensures Scan(trace + [e]) == NextMode(Scan(trace), e)
  {
    assert (trace + [e])[..|trace|] == trace;
  }

  /** A store function goes on; it has the save mutex or takes it, and may give it back. */
  ghost predicate MutexMoves(s: State, s': State, t: nat) {
    && t in s.hooks && t in s.deb.tasks && s.deb.tasks[t].call < |s.callDoc| && t in s'.hooks
    && var doc, pc, pc' := DocOf(s, t), s.hooks[t], s'.hooks[t];
    && s'.deb == s.deb && s'.callDoc == s.callDoc && s'.hooks == s.hooks[t := pc']
    && (HoldsMutex(pc) || doc !in s.savers)
    && (s'.savers == if HoldsMutex(pc') then s.savers[doc := t] else s.savers - {doc})
  }

  /** And it logs what it does. */
  ghost predicate HookMoves(s: State, s': State, t: nat) {
    && MutexMoves(s, s', t)
    && var doc, mode, mode' := DocOf(s, t), ModeOf(t, s.hooks[t]), ModeOf(t, s'.hooks[t]);
    && (|| (s'.traces == s.traces && mode == mode' == Idle)
        || exists e :: s'.traces == s.traces[doc := TraceOf(s, doc) + [e]] && NextMode(mode, e) == mode')
  }

  lemma HookStepMoves(s: State, a: Action)
    requires MutexOk(s) && Enabled(s, a) && OfHook(a)
    ensures HookMoves(s, Apply(s, a), a.t)
  {
    hide MutexMoves, MutexOk;
    MutexStepMoves(s, a);
    var s', doc := Apply(s, a), DocOf(s, a.t);
    var e := if a.BeginStore? then StoreBegin(a.t) else if a.EndStore? then StoreEnd(a.t, a.ok)
             else if a.BeginAfter? then AfterBegin(a.t) else AfterEnd(a.t);
    assert !a.Unlock? ==> s'.traces == s.traces[doc := TraceOf(s, doc) + [e]];
  }

  lemma MutexStepMoves(s: State, a: Action)
    requires MutexOk(s) && Enabled(s, a) && OfHook(a)
    ensures MutexMoves(s, Apply(s, a), a.t)
  {
    hide TraceOf;
    assert HolderOk(s, a.t);
    assert !a.BeginStore? ==> s.savers[DocOf(s, a.t) := a.t] == s.savers;
  }

  lemma HookKeepsMutex(s: State, s': State, t: nat)
    requires MutexOk(s) && MutexMoves(s, s', t)
    ensures MutexOk(s')
  {
    hide HoldsMutex, SaverOk, HolderOk, MutexMoves;
    forall doc: Doc ensures SaverOk(s', doc) { HookKeepsSaver(s, s', t, doc); }
    forall u: nat ensures HolderOk(s', u) { HookKeepsHolder(s, s', t, u); }
  }

  lemma HookKeepsSaver(s: State, s': State, t: nat, doc: Doc)
    requires SaverOk(s, doc) && HolderOk(s, t) && MutexMoves(s, s', t)
    ensures SaverOk(s', doc)
  {
  }

  lemma HookKeepsHolder(s: State, s': State, t: nat, u: nat)
    requires HolderOk(s, t) && HolderOk(s, u) && MutexMoves(s, s', t)
    ensures HolderOk(s', u)
  {
  }

  lemma HookKeepsTrace(s: State, s': State, t: nat, doc: Doc)
    requires MutexOk(s) && TraceOk(s, doc) && HookMoves(s, s', t)
    ensures TraceOk(s', doc)
  {
    assert SaverOk(s, doc) && HolderOk(s, t);
    if doc == DocOf(s, t) {
      assert Scan(TraceOf(s, doc)) == ModeOf(t, s.hooks[t]);
      if s'.traces != s.traces {
        var e :| s'.traces == s.traces[doc := TraceOf(s, doc) + [e]]
                 && NextMode(ModeOf(t, s.hooks[t]), e) == ModeOf(t, s'.hooks[t]);
        ScanGrows(TraceOf(s, doc), e);
      }
    } else {
      assert TraceOf(s', doc) == TraceOf(s, doc);
      assert doc in s.savers ==> s.savers[doc] != t;
    }
  }

  /** Every other step leaves the mutex and the traces alone, and no function that holds the mutex ends. */
  ghost predicate MutexApart(s: State, s': State) {
    && s'.savers == s.savers && s'.traces == s.traces && s.callDoc <= s'.callDoc
    && (forall t :: t in s.hooks && HoldsMutex(s.hooks[t]) ==> t in s'.hooks && s'.hooks[t] == s.hooks[t])
    && (forall t :: t in s'.hooks && HoldsMutex(s'.hooks[t]) ==> t in s.hooks && s'.hooks[t] == s.hooks[t])
    && (forall t :: t in s.hooks && t in s.deb.tasks && HoldsMutex(s.hooks[t]) ==>
          t in s'.deb.tasks && s'.deb.tasks[t].call == s.deb.tasks[t].call)
  }

  lemma ApartKeepsMutex(s: State, s': State)
    requires MutexOk(s) && MutexApart(s, s')
    ensures MutexOk(s') && (TracesOk(s) ==> TracesOk(s'))
  {
    forall doc: Doc ensures SaverOk(s', doc) { assert SaverOk(s, doc); }
    forall t: nat ensures HolderOk(s', t) { assert HolderOk(s, t); }
    forall doc: Doc | TraceOk(s, doc) ensures TraceOk(s', doc) {
      assert TraceOf(s', doc) == TraceOf(s, doc);
    }
  }

  lemma CallIsApart(s: State, doc: Doc, d: nat, m: nat)
    requires Inv(s)
    ensures MutexApart(s, CallDebounce(s, doc, d, m))
  {
    hide D.Inv, D.DoDebounce, CallsOk, StartsStore, AttemptsOk, UpdatesOk;
    RunningUntouched(s.deb, DebounceId(doc.name), d, m);
  }

  lemma OtherStepIsApart(s: State, a: Action)
    requires Inv(s) && Enabled(s, a) && !OfHook(a)
    ensures MutexApart(s, Apply(s, a))
  {
    hide D.Inv, CallsOk, HooksOk, StartsStore, AttemptsOk, UpdatesOk, CallDebounce, D.Enabled, D.Apply, DocOf;
    match a
    case Integrate(_) =>
    case Observe(u, d, m) => CallIsApart(s, s.updates[u], d, m);
    case StoreNow(doc, m) => CallIsApart(s, doc, 0, m);
    case Debouncer(b) => DebouncerIsApart(s, b);
    case Return(t) => ReturnShape(s, t);
    case _ =>
  }

  lemma DebouncerIsApart(s: State, b: D.Action)
    requires Inv(s) && Enabled(s, Debouncer(b))
    ensures MutexApart(s, Apply(s, Debouncer(b)))
  {
    hide D.Inv, CallsOk, StartsStore, AttemptsOk, UpdatesOk, D.Enabled, D.Apply;
    if b.Begin? {
      BeginShape(s, b.t);
    } else {
      DebouncerStepIsQuiet(s.deb, b);
    }
  }

  lemma StepKeepsTraces(s: State, a: Action)
    requires Inv(s) && MutexOk(s) && TracesOk(s) && Enabled(s, a)
    ensures MutexOk(Apply(s, a)) && TracesOk(Apply(s, a))
  {
    hide Inv, MutexOk, TraceOk, MutexMoves, MutexApart, Apply, Enabled, ModeOf, NextMode;
    var s' := Apply(s, a);
    if OfHook(a) {
      HookStepMoves(s, a);
      HookKeepsMutex(s, s', a.t);
      forall doc: Doc ensures TraceOk(s', doc) { HookKeepsTrace(s, s', a.t, doc); }
    } else {
      OtherStepIsApart(s, a);
      ApartKeepsMutex(s, s');
    }
  }

  lemma {:induction false} TracesAlways(run: seq<Action>)
    ensures MutexOk(Exec(INIT, run)) && TracesOk(Exec(INIT, run))
    decreases |run|
  {
    if run != [] {
      hide Inv, MutexOk, TracesOk, Apply, Enabled;
      var s, a := Exec(INIT, run[..|run|-1]), run[|run|-1];
      TracesAlways(run[..|run|-1]);
      InvAlways(run[..|run|-1]);
      if Enabled(s, a) {
        StepKeepsTraces(s, a);
      }
    } else {
      assert Exec(INIT, run) == INIT;
    }
  }

  /** A store hook, followed by its own after-store hook if it succeeded. */
  datatype Block = Saved(t: nat) | Failed(t: nat)

  function Events(b: Block): seq<Event> {
    match b
    case Saved(t) => [StoreBegin(t), StoreEnd(t, true), AfterBegin(t), AfterEnd(t)]
    case Failed(t) => [StoreBegin(t), StoreEnd(t, false)]
  }

  function Flatten(blocks: seq<Block>): seq<Event> {
    if blocks == [] then [] else Flatten(blocks[..|blocks|-1]) + Events(blocks[|blocks|-1])
  }

  /** The beginning of a block that is still open. */
  function Opening(m: Mode): seq<Event> {
    match m
    case InStore(t) => [StoreBegin(t)]
    case AfterDue(t) => [StoreBegin(t), StoreEnd(t, true)]
    case InAfter(t) => [StoreBegin(t), StoreEnd(t, true), AfterBegin(t)]
    case _ => []
  }

  lemma ScanSplits(trace: seq<Event>)
    requires trace != [] && Scan(trace) != Broken
    ensures var before, e := trace[..|trace|-1], trace[|trace|-1];
            Scan(before) != Broken && Scan(trace) == NextMode(Scan(before), e)
  {
  }

  lemma FlattenGrows(blocks: seq<Block>, b: Block)
    ensures Flatten(blocks + [b]) == Flatten(blocks) + Events(b)
  {
    assert (blocks + [b])[..|blocks|] == blocks;
  }

  lemma {:induction false} ScannedIsBlocks(trace: seq<Event>) returns (blocks: seq<Block>)
    requires Scan(trace) != Broken
    ensures trace == Flatten(blocks) + Opening(Scan(trace))
    decreases |trace|
  {
    hide Scan, NextMode, Flatten, Opening, Events, BlockEndedBy;
    if trace == [] {
      blocks := [];
      NothingIsOpen();
    } else {
      var before, e := trace[..|trace|-1], trace[|trace|-1];
      ScanSplits(trace);
      blocks := ScannedIsBlocks(before);
      assert trace == Flatten(blocks) + (Opening(Scan(before)) + [e]);
      EventExtends(Scan(before), e);
      if Scan(trace) == Idle {
        FlattenGrows(blocks, BlockEndedBy(e));
        blocks := blocks + [BlockEndedBy(e)];
        assert Flatten(blocks) + [] == Flatten(blocks);
      }
    }
  }

  lemma NothingIsOpen()
    ensures Flatten([]) == [] && Scan([]) == Idle && Opening(Idle) == []
  {
  }

  function BlockEndedBy(e: Event): Block {
    if e.StoreEnd? then Failed(e.t) else Saved(e.t)
  }

  lemma EventExtends(m: Mode, e: Event)
    requires NextMode(m, e) != Broken
    ensures Opening(m) + [e] == if NextMode(m, e) == Idle then Events(BlockEndedBy(e)) else Opening(NextMode(m, e))
    ensures Opening(Idle) == []
  {
  }

  ghost predicate OpenedByHolder(s: State, doc: Doc, m: Mode) {
    m.Idle? || (!m.Broken? && doc in s.savers && s.savers[doc] == m.t)
  }

  lemma OpenedByItsHolder(s: State, doc: Doc)
    requires TraceOk(s, doc)
    ensures Scan(TraceOf(s, doc)) != Broken && OpenedByHolder(s, doc, Scan(TraceOf(s, doc)))
  {
  }

  /** Whatever runs concurrently, the hooks of one document never overlap: its trace is a sequence
      of whole blocks, followed by the part of one block that the holder of the save mutex has done. */
  lemma HooksNeverOverlap(run: seq<Action>, doc: Doc)
    ensures var s := Exec(INIT, run);
            exists blocks, m: Mode :: TraceOf(s, doc) == Flatten(blocks) + Opening(m) && OpenedByHolder(s, doc, m)
  {
    hide Exec, TraceOk, Scan, MutexOk, TraceOf, Flatten, Opening, OpenedByHolder;
    var s := Exec(INIT, run);
    TracesAlways(run);
    OpenedByItsHolder(s, doc);
    var blocks := ScannedIsBlocks(TraceOf(s, doc));
    assert TraceOf(s, doc) == Flatten(blocks) + Opening(Scan(TraceOf(s, doc)));
  }
}
