/** The message queue of one connection as a transition system.

    Any number of tasks push frames; a push that finds the queue empty makes its task a processor.
    Processors, and tasks that wait for pending messages, queue up for the processing lock, which
    is fair. The processor that holds it peeks at the front frame, handles it - that may take any
    time, and more frames may arrive meanwhile - and pops the front of the queue. If handling panics,
    the task unwinds: it gives the lock back, but pops nothing. */
module ConnectionQueueModel {
  import opened Encoding
  import opened RoutingKeys
  import opened Wrappers
  import Receiver = MessageReceivers

  datatype Outcome = Undecodable | OtherDocument | RejectedByHook | Applied

  /** What became of a frame: the frame that was handled, and the one that was popped for it. */
  datatype Disposal = Disposal(handled: Bytes, popped: Bytes, outcome: Outcome)

  datatype Pc =
    | Requesting             // between its push and its request for the lock
    | Queued                 // waiting for the lock
    | Looping                // holds the lock, about to peek
    | Handling(frame: Bytes) // has peeked at this frame
    | Leaving                // about to release the lock
  {
    predicate Holds() { Looping? || Handling? || Leaving? }
    predicate Busy() { Looping? || Handling? }
  }

  /** A waiter remembers how many frames had arrived when it called, and whether it was in good hands then. */
  datatype Task = Processor(pc: Pc) | Waiter(pc: Pc, before: nat, inGoodHands: bool)

  datatype State = State(
    document: Bytes,
    queue: seq<Bytes>,
    arrivals: seq<Bytes>,
    disposals: seq<Disposal>,
    panicked: seq<Bytes>,
    tasks: map<nat, Task>,
    waiting: seq<nat>,
    holder: Option<nat>,
    next: nat)

  datatype Action =
    | Push(frame: Bytes)
    | Wait
    | Request(t: nat)
    | Grant
    | Peek(t: nat)
    | Dispose(t: nat, outcome: Outcome)
    | Panic(t: nat)
    | Release(t: nat)

  function Init(document: Bytes): State {
    State(document, [], [], [], [], map[], [], None, 0)
  }

  /** Which outcomes a frame can have; hooks decide between the last two. */
  predicate Allowed(document: Bytes, frame: Bytes, outcome: Outcome) {
    match ReadString(frame, 0)
    case Field(key, _) =>
      if DocumentName(key) == document then
        outcome == RejectedByHook || (outcome == Applied && !Receiver.Panics(frame))
      else outcome == OtherDocument
    case FieldError(_) => outcome == Undecodable
    case FieldPanic => false
  }

  /** Handling the frame panics, unless a hook refuses it first. */
  predicate Harmful(document: Bytes, frame: Bytes) {
    match ReadString(frame, 0)
    case Field(key, _) => DocumentName(key) == document && Receiver.Panics(frame)
    case FieldError(_) => false
    case FieldPanic => true
  }

  /** The lock is held or about to be held by a processor, so what has arrived will be processed. */
  predicate InGoodHands(s: State) {
    s.queue == [] || HolderBusy(s) || exists i :: 0 <= i < |s.waiting| && IsProcessor(s, s.waiting[i])
  }

  predicate HolderBusy(s: State) {
    s.holder.Some? && s.holder.value in s.tasks && s.tasks[s.holder.value].pc.Busy()
  }

  predicate IsProcessor(s: State, t: nat) {
    t in s.tasks && s.tasks[t].Processor?
  }

  predicate HolderAt(s: State, t: nat) {
    s.holder == Some(t) && t in s.tasks
  }

  predicate Enabled(s: State, a: Action) {
    match a
    case Push(_) => true
    case Wait => true
    case Request(t) => t in s.tasks && s.tasks[t].pc.Requesting?
    case Grant => s.holder == None && s.waiting != [] && s.waiting[0] in s.tasks
    case Peek(t) => HolderAt(s, t) && s.tasks[t].pc.Looping?
    case Dispose(t, o) => HolderAt(s, t) && s.tasks[t].pc.Handling? && Allowed(s.document, s.tasks[t].pc.frame, o)
    case Panic(t) => HolderAt(s, t) && s.tasks[t].pc.Handling? && Harmful(s.document, s.tasks[t].pc.frame)
    case Release(t) => HolderAt(s, t) && s.tasks[t].pc.Leaving?
  }

  function Move(s: State, t: nat, pc: Pc): State
    requires t in s.tasks
  {
    s.(tasks := s.tasks[t := s.tasks[t].(pc := pc)])
  }

  function DoPush(s: State, f: Bytes): State {
    var s' := s.(queue := s.queue + [f], arrivals := s.arrivals + [f]);
    if |s'.queue| == 1 then s'.(tasks := s.tasks[s.next := Processor(Requesting)], next := s.next + 1) else s'
  }

  function DoDispose(s: State, t: nat, o: Outcome): State
    requires t in s.tasks && s.tasks[t].pc.Handling?
  {
    var f := s.tasks[t].pc.frame;
    if s.queue == [] then Move(s, t, Looping)
    else Move(s, t, Looping).(queue := s.queue[1..], disposals := s.disposals + [Disposal(f, s.queue[0], o)])
  }

  function Apply(s: State, a: Action): State
    requires Enabled(s, a)
  {
    match a
    case Push(f) => DoPush(s, f)
    case Wait =>
      s.(tasks := s.tasks[s.next := Waiter(Queued, |s.arrivals|, InGoodHands(s))],
         waiting := s.waiting + [s.next], next := s.next + 1)
    case Request(t) => Move(s, t, Queued).(waiting := s.waiting + [t])
    case Grant =>
      var t := s.waiting[0];
      Move(s, t, if s.tasks[t].Processor? then Looping else Leaving).(waiting := s.waiting[1..], holder := Some(t))
    case Peek(t) => Move(s, t, if s.queue == [] then Leaving else Handling(s.queue[0]))
    case Dispose(t, o) => DoDispose(s, t, o)
    case Panic(t) => s.(tasks := s.tasks - {t}, holder := None, panicked := s.panicked + [s.tasks[t].pc.frame])
    case Release(t) => s.(tasks := s.tasks - {t}, holder := None)
  }

  /** The state after the run; an action that is not enabled changes nothing. */
  ghost function Exec(s: State, run: seq<Action>): State
    decreases |run|
  {
    if run == [] then s
    else
      var before := Exec(s, run[..|run|-1]);
      var a := run[|run|-1];
      if Enabled(before, a) then Apply(before, a) else before
  }

  // ---------------------------------------------------------------- the invariant

  ghost predicate FifoOk(s: State) {
    && |s.disposals| <= |s.arrivals| && s.arrivals[|s.disposals|..] == s.queue
    && forall i :: 0 <= i < |s.disposals| ==>
         var d := s.disposals[i];
         d.handled == d.popped == s.arrivals[i] && Allowed(s.document, d.handled, d.outcome)
  }

  ghost predicate LockOk(s: State) {
    && (forall t :: t in s.tasks ==> t < s.next && (s.tasks[t].pc.Holds() <==> s.holder == Some(t)))
    && (s.holder.Some? ==> s.holder.value in s.tasks)
    && (forall t :: t in s.tasks && s.tasks[t].Waiter? ==> s.tasks[t].pc.Queued? || s.tasks[t].pc.Leaving?)
    && (forall t :: t in s.tasks && s.tasks[t].pc.Handling? ==> s.queue != [] && s.tasks[t].pc.frame == s.queue[0])
  }

  ghost predicate WaitingOk(s: State) {
    && (forall i :: 0 <= i < |s.waiting| ==> s.waiting[i] in s.tasks && s.tasks[s.waiting[i]].pc.Queued?)
    && (forall i, j :: 0 <= i < j < |s.waiting| ==> s.waiting[i] != s.waiting[j])
    && (forall t :: t in s.tasks && s.tasks[t].pc.Queued? ==> t in s.waiting)
  }

  /** Someone will look at the queue. */
  ghost predicate Attended(s: State, t: nat) {
    IsProcessor(s, t) && !s.tasks[t].pc.Leaving?
  }

  ghost predicate WakeOk(s: State) {
    s.queue != [] ==> exists t :: Attended(s, t)
  }

  ghost predicate ProcessorAhead(s: State, j: nat) {
    exists i :: 0 <= i < j && i < |s.waiting| && IsProcessor(s, s.waiting[i])
  }

  /** The frames that the `j`-th in line waits for are gone, or a processor has the lock or gets it first. */
  ghost predicate InLineServed(s: State, j: nat)
    requires j < |s.waiting| && s.waiting[j] in s.tasks
  {
    var w := s.tasks[s.waiting[j]];
    w.Waiter? && w.inGoodHands ==> w.before <= |s.disposals| || HolderBusy(s) || ProcessorAhead(s, j)
  }

  ghost predicate WaitersOk(s: State) {
    && (forall j: nat :: j < |s.waiting| && s.waiting[j] in s.tasks ==> InLineServed(s, j))
    && (forall t :: t in s.tasks && s.tasks[t].Waiter? ==>
          s.tasks[t].before <= |s.arrivals|
          && (s.tasks[t].pc.Leaving? && s.tasks[t].inGoodHands ==> s.tasks[t].before <= |s.disposals|))
  }

  /** Only harmful frames that have arrived make a processor panic. */
  ghost predicate PanickedOk(s: State) {
    forall f :: f in s.panicked ==> f in s.arrivals && Harmful(s.document, f)
  }

  ghost predicate Inv(s: State) {
    FifoOk(s) && LockOk(s) && WaitingOk(s) && PanickedOk(s)
  }

  lemma StepFifo(s: State, a: Action)
    requires Inv(s) && Enabled(s, a)
    ensures FifoOk(Apply(s, a))
  {
    hide WaitingOk, PanickedOk, Allowed, Harmful, InGoodHands, ReadString;
    if a.Dispose? {
      assert s.arrivals[|s.disposals|..][1..] == s.arrivals[|s.disposals| + 1..];
    }
  }

  lemma StepLock(s: State, a: Action)
    requires Inv(s) && Enabled(s, a)
    ensures LockOk(Apply(s, a))
  {
    hide FifoOk, PanickedOk, Allowed, Harmful, InGoodHands, ReadString;
  }

  /** Tasks join the line at its end, and leave it at its front. */
  lemma StepWaiting(s: State, a: Action)
    requires Inv(s) && Enabled(s, a)
    ensures WaitingOk(Apply(s, a))
  {
    hide FifoOk, LockOk, WaitingOk, PanickedOk, Allowed, Harmful, InGoodHands, ReadString;
    NextIsNew(s);
    match a
    case Wait => Joins(s, Apply(s, a), s.next);
    case Request(t) => Joins(s, Apply(s, a), t);
    case Grant => FrontLeaves(s, Apply(s, a));
    case _ => LineStays(s, Apply(s, a));
  }

  lemma NextIsNew(s: State)
    requires LockOk(s)
    ensures s.next !in s.tasks
  {
  }

  lemma LineStays(s: State, s': State)
    requires WaitingOk(s) && s'.waiting == s.waiting
    requires forall t :: (t in s'.tasks && s'.tasks[t].pc.Queued?) <==> (t in s.tasks && s.tasks[t].pc.Queued?)
    ensures WaitingOk(s')
  {
  }

  lemma Joins(s: State, s': State, t: nat)
    requires WaitingOk(s) && s'.waiting == s.waiting + [t] && (t in s.tasks ==> !s.tasks[t].pc.Queued?)
    requires t in s'.tasks && s'.tasks[t].pc.Queued? && s'.tasks == s.tasks[t := s'.tasks[t]]
    ensures WaitingOk(s')
  {
  }

  lemma FrontLeaves(s: State, s': State)
    requires WaitingOk(s) && s.waiting != [] && s'.waiting == s.waiting[1..]
    requires s.waiting[0] in s'.tasks && s'.tasks == s.tasks[s.waiting[0] := s'.tasks[s.waiting[0]]]
    requires !s'.tasks[s.waiting[0]].pc.Queued?
    ensures WaitingOk(s')
  {
    assert s.waiting == [s.waiting[0]] + s'.waiting;
  }

  lemma StepPanicked(s: State, a: Action)
    requires Inv(s) && Enabled(s, a)
    ensures PanickedOk(Apply(s, a))
  {
    hide WaitingOk, Allowed, Harmful, InGoodHands, ReadString;
    assert forall f :: f in s.arrivals ==> f in s.arrivals + (if a.Push? then [a.frame] else []);
    if a.Panic? {
      assert s.queue[0] in s.arrivals[|s.disposals|..];
    }
  }

  // ---------------------------------------------------------------- who looks at the queue

  /** The processor that panics is the only one there is. */
  ghost predicate Abandons(s: State, a: Action) {
    a.Panic? && forall u :: Attended(s, u) ==> u == a.t
  }

  /** A step leaves a non-empty queue with somebody who will look at it, unless it is the panic of
      the only processor. */
  lemma WakeUnlessAbandoned(s: State, a: Action)
    requires Inv(s) && WakeOk(s) && Enabled(s, a)
    ensures WakeOk(Apply(s, a)) <==> !Abandons(s, a)
  {
    hide FifoOk, WaitingOk, PanickedOk, Allowed, Harmful, InGoodHands, ReadString;
    var s' := Apply(s, a);
    if a.Panic? {
      forall u ensures Attended(s', u) <==> Attended(s, u) && u != a.t { }
    } else if s'.queue != [] {
      if s.queue == [] {
        assert Attended(s', s.next);
      } else {
        var t :| Attended(s, t);
        assert Attended(s', t);
      }
    }
  }

  /** Nobody will look at the queue. */
  ghost predicate Abandoned(s: State) {
    s.queue != [] && forall t :: !Attended(s, t)
  }

  lemma StaysAbandoned(s: State, a: Action)
    requires Inv(s) && Abandoned(s) && Enabled(s, a)
    ensures Abandoned(Apply(s, a)) && Apply(s, a).disposals == s.disposals
  {
    hide FifoOk, WaitingOk, PanickedOk, Allowed, Harmful, InGoodHands, ReadString;
    var s' := Apply(s, a);
    forall t ensures !Attended(s', t) {
      assert !Attended(s, t);
      if OfTask(a) { assert !Attended(s, a.t); }
    }
    if OfTask(a) { assert !Attended(s, a.t); }
  }

  predicate OfTask(a: Action) {
    !a.Push? && !a.Wait? && !a.Grant?
  }

  /** The steps that leave the line and the busy holder as they are. */
  lemma LineUntouched(s: State, s': State)
    requires WaitingOk(s) && WaitersOk(s)
    requires s'.waiting == s.waiting && |s'.disposals| >= |s.disposals| && |s'.arrivals| >= |s.arrivals|
    requires HolderBusy(s) ==> HolderBusy(s') || |s'.disposals| == |s'.arrivals|
    requires forall t :: t in s'.tasks && s'.tasks[t].Waiter? ==> t in s.tasks && s.tasks[t] == s'.tasks[t]
    requires forall t :: t in s.tasks && s.tasks[t].pc.Queued? ==> t in s'.tasks && s'.tasks[t] == s.tasks[t]
    ensures WaitersOk(s')
  {
    forall j: nat | j < |s'.waiting| && s'.waiting[j] in s'.tasks
      ensures InLineServed(s', j)
    {
      assert InLineServed(s, j);
      if ProcessorAhead(s, j) {
        var i :| 0 <= i < j && i < |s.waiting| && IsProcessor(s, s.waiting[i]);
        assert IsProcessor(s', s'.waiting[i]);
      }
    }
  }

  lemma PeekedEmptyMeansAllDone(s: State)
    requires FifoOk(s) && s.queue == []
    ensures |s.disposals| == |s.arrivals|
  {
  }

  lemma JoinKeepsWaiters(s: State, t: nat, task: Task, next: nat)
    requires WaitingOk(s) && WaitersOk(s) && task.pc.Queued? && t !in s.waiting
    requires t in s.tasks ==> s.tasks[t].Processor? && task.Processor? && !s.tasks[t].pc.Holds()
    requires s.holder.Some? ==> s.holder.value != t
    requires task.Waiter? ==> task.before <= |s.arrivals|
    requires task.Waiter? && task.inGoodHands ==>
               task.before <= |s.disposals| || HolderBusy(s)
               || exists i :: 0 <= i < |s.waiting| && IsProcessor(s, s.waiting[i])
    ensures WaitersOk(s.(tasks := s.tasks[t := task], waiting := s.waiting + [t], next := next))
  {
    var s' := s.(tasks := s.tasks[t := task], waiting := s.waiting + [t], next := next);
    assert HolderBusy(s') == HolderBusy(s);
    assert forall u :: IsProcessor(s, u) ==> IsProcessor(s', u);
    assert forall i :: 0 <= i < |s.waiting| ==> s'.waiting[i] == s.waiting[i];
    forall j: nat | j < |s'.waiting| && s'.waiting[j] in s'.tasks
      ensures InLineServed(s', j)
    {
      if j < |s.waiting| {
        assert InLineServed(s, j);
        if ProcessorAhead(s, j) {
          var i :| 0 <= i < j && i < |s.waiting| && IsProcessor(s, s.waiting[i]);
          assert IsProcessor(s', s'.waiting[i]);
        }
      } else if exists i :: 0 <= i < |s.waiting| && IsProcessor(s, s.waiting[i]) {
        var i :| 0 <= i < |s.waiting| && IsProcessor(s, s.waiting[i]);
        assert IsProcessor(s', s'.waiting[i]);
        assert ProcessorAhead(s', j);
      }
    }
  }

  lemma GrantKeepsWaiters(s: State)
    requires Inv(s) && WaitersOk(s) && Enabled(s, Grant)
    ensures WaitersOk(Apply(s, Grant))
  {
    hide FifoOk, PanickedOk, InLineServed, Harmful, Allowed;
    var s' := Apply(s, Grant);
    assert InLineServed(s, 0);
    FirstInLine(s);
    forall j: nat | j < |s'.waiting| && s'.waiting[j] in s'.tasks
      ensures InLineServed(s', j)
    {
      assert InLineServed(s, j + 1);
      NextInLine(s, j);
    }
  }

  /** The first in line is a processor, or what it waits for is done. */
  lemma FirstInLine(s: State)
    requires LockOk(s) && WaitingOk(s) && Enabled(s, Grant) && InLineServed(s, 0)
    ensures var w := s.tasks[s.waiting[0]]; w.Waiter? && w.inGoodHands ==> w.before <= |s.disposals|
  {
    hide Harmful, Allowed;
  }

  lemma NextInLine(s: State, j: nat)
    requires LockOk(s) && WaitingOk(s) && Enabled(s, Grant) && j + 1 < |s.waiting| && InLineServed(s, j + 1)
    ensures InLineServed(Apply(s, Grant), j)
  {
    hide Harmful, Allowed;
    var s', t := Apply(s, Grant), s.waiting[0];
    assert s'.waiting[j] == s.waiting[j + 1] != t;
    if s.tasks[t].Waiter? && ProcessorAhead(s, j + 1) {
      var i :| 0 <= i < j + 1 && i < |s.waiting| && IsProcessor(s, s.waiting[i]);
      assert s'.waiting[i - 1] == s.waiting[i] && IsProcessor(s', s'.waiting[i - 1]);
    }
  }

  /** The `j`-th in line relies on the processor that has the lock, and on nobody else. */
  ghost predicate ReliesOnHolder(s: State, j: nat) {
    && j < |s.waiting| && s.waiting[j] in s.tasks && !ProcessorAhead(s, j)
    && var w := s.tasks[s.waiting[j]]; w.Waiter? && w.inGoodHands && |s.disposals| < w.before
  }

  /** A processor panics while somebody in line relies on it. */
  ghost predicate Deserts(s: State, a: Action) {
    a.Panic? && exists j: nat :: ReliesOnHolder(s, j)
  }

  lemma PanicUnlessDeserting(s: State, t: nat)
    requires Inv(s) && WaitersOk(s) && Enabled(s, Panic(t))
    ensures WaitersOk(Apply(s, Panic(t))) <==> !Deserts(s, Panic(t))
  {
    hide FifoOk, PanickedOk, Harmful, ProcessorAhead;
    var s' := Apply(s, Panic(t));
    assert t !in s.waiting && !HolderBusy(s');
    forall j: nat ensures ProcessorAhead(s', j) <==> ProcessorAhead(s, j) { SameAhead(s, s', t, j); }
    if Deserts(s, Panic(t)) {
      var j: nat :| ReliesOnHolder(s, j);
      assert !InLineServed(s', j);
    } else {
      forall j: nat | j < |s'.waiting| && s'.waiting[j] in s'.tasks ensures InLineServed(s', j) {
        assert InLineServed(s, j) && !ReliesOnHolder(s, j);
      }
    }
  }

  lemma SameAhead(s: State, s': State, t: nat, j: nat)
    requires s'.waiting == s.waiting && s'.tasks == s.tasks - {t} && t !in s.waiting
    ensures ProcessorAhead(s', j) <==> ProcessorAhead(s, j)
  {
    if ProcessorAhead(s, j) {
      var i :| 0 <= i < j && i < |s.waiting| && IsProcessor(s, s.waiting[i]);
      assert IsProcessor(s', s'.waiting[i]);
    }
  }

  /** A step keeps the promise to those in line, unless it is a panic that deserts one of them. */
  lemma WaitersUnlessDeserted(s: State, a: Action)
    requires Inv(s) && WaitersOk(s) && Enabled(s, a)
    ensures WaitersOk(Apply(s, a)) <==> !Deserts(s, a)
  {
    hide PanickedOk, Allowed, Harmful, ReadString, InLineServed, ProcessorAhead;
    var s' := Apply(s, a);
    match a
    case Push(_) => LineUntouched(s, s');
    case Wait =>
      if s.queue == [] { PeekedEmptyMeansAllDone(s); }
      JoinKeepsWaiters(s, s.next, s'.tasks[s.next], s.next + 1);
    case Request(t) => JoinKeepsWaiters(s, t, s'.tasks[t], s.next);
    case Grant => GrantKeepsWaiters(s);
    case Peek(t) =>
      if s.queue == [] { PeekedEmptyMeansAllDone(s); }
      LineUntouched(s, s');
    case Dispose(t, _) => LineUntouched(s, s');
    case Panic(t) => PanicUnlessDeserting(s, t);
    case Release(t) => LineUntouched(s, s');
  }

  lemma StepPreservesInv(s: State, a: Action)
    requires Inv(s) && Enabled(s, a)
    ensures Inv(Apply(s, a))
  {
    hide FifoOk, LockOk, WaitingOk, PanickedOk, Enabled, Apply;
    StepFifo(s, a);
    StepLock(s, a);
    StepWaiting(s, a);
    StepPanicked(s, a);
  }

  lemma {:induction false} InvAlways(document: Bytes, run: seq<Action>)
    ensures Inv(Exec(Init(document), run))
    decreases |run|
  {
    if run != [] {
      hide Inv, Enabled, Apply;
      var s, a := Exec(Init(document), run[..|run|-1]), run[|run|-1];
      InvAlways(document, run[..|run|-1]);
      if Enabled(s, a) {
        StepPreservesInv(s, a);
      }
    }
  }

  /** A run in which no processor panics as the only one. */
  ghost predicate NeverAbandoned(document: Bytes, run: seq<Action>)
    decreases |run|
  {
    run == [] ||
    var s, a := Exec(Init(document), run[..|run|-1]), run[|run|-1];
    NeverAbandoned(document, run[..|run|-1]) && !(Enabled(s, a) && Abandons(s, a))
  }

  /** A run in which no processor panics while a waiter in line relies on it. */
  ghost predicate NeverDeserted(document: Bytes, run: seq<Action>)
    decreases |run|
  {
    run == [] ||
    var s, a := Exec(Init(document), run[..|run|-1]), run[|run|-1];
    NeverDeserted(document, run[..|run|-1]) && !(Enabled(s, a) && Deserts(s, a))
  }

  lemma {:induction false} WakeAlways(document: Bytes, run: seq<Action>)
    requires NeverAbandoned(document, run)
    ensures WakeOk(Exec(Init(document), run))
    decreases |run|
  {
    if run != [] {
      hide Inv, WakeOk, Abandons, Enabled, Apply;
      var s, a := Exec(Init(document), run[..|run|-1]), run[|run|-1];
      WakeAlways(document, run[..|run|-1]);
      InvAlways(document, run[..|run|-1]);
      if Enabled(s, a) {
        WakeUnlessAbandoned(s, a);
      }
    }
  }

  lemma {:induction false} WaitersAlways(document: Bytes, run: seq<Action>)
    requires NeverDeserted(document, run)
    ensures WaitersOk(Exec(Init(document), run))
    decreases |run|
  {
    if run != [] {
      hide Inv, WaitersOk, Deserts, Enabled, Apply;
      var s, a := Exec(Init(document), run[..|run|-1]), run[|run|-1];
      WaitersAlways(document, run[..|run|-1]);
      InvAlways(document, run[..|run|-1]);
      if Enabled(s, a) {
        WaitersUnlessDeserted(s, a);
      }
    }
  }

  ghost predicate NoneHarmful(document: Bytes, frames: seq<Bytes>) {
    forall f :: f in frames ==> !Harmful(document, f)
  }

  /** As long as no harmful frame arrives, nothing panics, so that nobody is abandoned or deserted. */
  lemma {:induction false} HarmlessIsSteady(document: Bytes, run: seq<Action>)
    requires NoneHarmful(document, Exec(Init(document), run).arrivals)
    ensures NeverAbandoned(document, run) && NeverDeserted(document, run)
    ensures Exec(Init(document), run).panicked == []
    decreases |run|
  {
    hide Inv, Harmful, Abandons, Deserts, Enabled, Apply;
    InvAlways(document, run);
    DocumentStays(document, run);
    if Exec(Init(document), run).panicked != [] {
      var f := PanickedFrame(Exec(Init(document), run));
    }
    if run != [] {
      var s, a := Exec(Init(document), run[..|run|-1]), run[|run|-1];
      InvAlways(document, run[..|run|-1]);
      DocumentStays(document, run[..|run|-1]);
      if Enabled(s, a) {
        ArrivalsGrow(s, a);
      }
      HarmlessIsSteady(document, run[..|run|-1]);
      if Enabled(s, a) && a.Panic? {
        var f := PanickingFrame(s, a);
      } else if Enabled(s, a) {
        OnlyPanicsHarm(s, a);
      }
    }
  }

  lemma PanickedFrame(s: State) returns (f: Bytes)
    requires Inv(s) && s.panicked != []
    ensures f in s.arrivals && Harmful(s.document, f)
  {
    hide FifoOk, LockOk, WaitingOk, Harmful;
    f := s.panicked[0];
  }

  lemma PanickingFrame(s: State, a: Action) returns (f: Bytes)
    requires Inv(s) && Enabled(s, a) && a.Panic?
    ensures f in s.arrivals && Harmful(s.document, f)
  {
    hide WaitingOk, PanickedOk, Harmful, Allowed;
    f := s.queue[0];
    assert f in s.arrivals[|s.disposals|..];
  }

  lemma OnlyPanicsHarm(s: State, a: Action)
    requires !a.Panic?
    ensures !Abandons(s, a) && !Deserts(s, a)
  {
  }

  lemma ArrivalsGrow(s: State, a: Action)
    requires Enabled(s, a)
    ensures forall f :: f in s.arrivals ==> f in Apply(s, a).arrivals
  {
    hide Allowed, Harmful;
  }

  // ---------------------------------------------------------------- what it promises

  /** At all times what was popped, followed by what is queued, is what has arrived; every frame was
      handled exactly once, in order, as its own content allows, and popped when it was handled. */
  lemma ExactlyOnceInOrder(document: Bytes, run: seq<Action>)
    ensures var s := Exec(Init(document), run);
            && s.arrivals == seq(|s.disposals|, i requires 0 <= i < |s.disposals| => s.disposals[i].popped) + s.queue
            && forall i :: 0 <= i < |s.disposals| ==>
                 s.disposals[i].handled == s.disposals[i].popped
                 && Allowed(document, s.disposals[i].handled, s.disposals[i].outcome)
  {
    var s := Exec(Init(document), run);
    InvAlways(document, run);
    DocumentStays(document, run);
    hide Exec, LockOk, WaitingOk, PanickedOk, Allowed;
    assert s.arrivals == s.arrivals[..|s.disposals|] + s.arrivals[|s.disposals|..];
  }

  lemma {:induction false} DocumentStays(document: Bytes, run: seq<Action>)
    ensures Exec(Init(document), run).document == document
    decreases |run|
  {
    if run != [] {
      DocumentStays(document, run[..|run|-1]);
    }
  }

  lemma AtMostOneInProgress(document: Bytes, run: seq<Action>, t: nat, u: nat)
    requires var s := Exec(Init(document), run);
             t in s.tasks && u in s.tasks && s.tasks[t].pc.Handling? && s.tasks[u].pc.Handling?
    ensures t == u
  {
    InvAlways(document, run);
    hide Exec, FifoOk, WaitingOk, PanickedOk;
  }

  /** A non-empty queue always has a processor that holds the lock, waits for it or is about to ask,
      in every run in which no processor panics as the only one. */
  lemma NoLostWakeup(document: Bytes, run: seq<Action>)
    requires NeverAbandoned(document, run) && Exec(Init(document), run).queue != []
    ensures exists t :: Attended(Exec(Init(document), run), t)
  {
    hide Exec, NeverAbandoned;
    WakeAlways(document, run);
  }

  /** After such a panic, whatever happens, nothing more is ever processed. */
  lemma {:induction false} AbandonedForever(document: Bytes, run: seq<Action>, a: Action, more: seq<Action>)
    requires Enabled(Exec(Init(document), run), a) && Abandons(Exec(Init(document), run), a)
    ensures Abandoned(Exec(Init(document), run + [a] + more))
    ensures Exec(Init(document), run + [a] + more).disposals == Exec(Init(document), run).disposals
    decreases |more|
  {
    hide Inv, Enabled, Apply, Abandons, Abandoned;
    var start := run + [a];
    if more == [] {
      InvAlways(document, run);
      assert start + more == start && start[..|run|] == run;
      IsAbandoned(Exec(Init(document), run), a);
    } else {
      var last := |more| - 1;
      AbandonedForever(document, run, a, more[..last]);
      assert (start + more)[..|start| + last] == start + more[..last];
      InvAlways(document, start + more[..last]);
      if Enabled(Exec(Init(document), start + more[..last]), more[last]) {
        StaysAbandoned(Exec(Init(document), start + more[..last]), more[last]);
      }
    }
  }

  lemma IsAbandoned(s: State, a: Action)
    requires Inv(s) && Enabled(s, a) && Abandons(s, a)
    ensures Abandoned(Apply(s, a)) && Apply(s, a).disposals == s.disposals
  {
    hide FifoOk, WaitingOk, PanickedOk, Harmful, Allowed;
    forall u ensures !Attended(Apply(s, a), u) { assert Attended(s, u) ==> u == a.t; }
  }

  /** A wait that began in good hands returns only after everything that had arrived was processed, in
      every run in which no processor panics while a waiter in line relies on it. */
  lemma WaitIsComplete(document: Bytes, run: seq<Action>, w: nat)
    requires NeverDeserted(document, run)
    requires var s := Exec(Init(document), run);
             w in s.tasks && s.tasks[w].Waiter? && s.tasks[w].inGoodHands && s.tasks[w].pc.Leaving?
    ensures Exec(Init(document), run).tasks[w].before <= |Exec(Init(document), run).disposals|
  {
    hide Exec, NeverDeserted;
    WaitersAlways(document, run);
  }

  /** While no task is between its push and its request - always, if the two were one step - the
      queue is in good hands. */
  lemma PromptRequestsAreGood(document: Bytes, run: seq<Action>)
    requires NeverAbandoned(document, run)
    requires var s := Exec(Init(document), run); forall t :: t in s.tasks ==> !s.tasks[t].pc.Requesting?
    ensures InGoodHands(Exec(Init(document), run))
  {
    hide Exec, FifoOk, PanickedOk, NeverAbandoned;
    InvAlways(document, run);
    WakeAlways(document, run);
    var s := Exec(Init(document), run);
    if s.queue != [] {
      var t :| Attended(s, t);
      assert s.tasks[t].pc.Queued? ==> t in s.waiting;
    }
  }

  /** The waiter `w` has the lock although a frame that had arrived before its call is not processed. */
  ghost predicate Missed(s: State, w: nat) {
    w in s.tasks && s.tasks[w].Waiter? && s.tasks[w].pc.Leaving? && |s.disposals| < s.tasks[w].before
  }

  /** The first ones in line, up to the `j`-th, are waiters. */
  ghost predicate OnlyWaitersUpTo(s: State, j: nat) {
    && j < |s.waiting|
    && (forall i :: 0 <= i <= j ==> s.waiting[i] in s.tasks && s.tasks[s.waiting[i]].Waiter?)
    && (forall i, k :: 0 <= i < k <= j ==> s.waiting[i] != s.waiting[k])
  }

  /** With only waiters ahead and the lock free, the `j`-th in line gets the lock with nothing processed. */
  lemma {:induction false} LineServedUnprocessed(s: State, j: nat) returns (run: seq<Action>)
    requires s.holder == None && OnlyWaitersUpTo(s, j) && |s.disposals| < s.tasks[s.waiting[j]].before
    ensures Missed(Exec(s, run), s.waiting[j])
    decreases j
  {
    var s1 := Apply(s, Grant);
    if j == 0 {
      run := [Grant];
      assert run[..0] == [] && Exec(s, []) == s && Exec(s, run) == s1;
    } else {
      var s2 := Apply(s1, Release(s.waiting[0]));
      assert s2.waiting == s.waiting[1..];
      assert forall i :: 0 <= i < j ==> s2.waiting[i] == s.waiting[i+1];
      var rest := LineServedUnprocessed(s2, j - 1);
      run := [Grant, Release(s.waiting[0])] + rest;
      ExecTwoThen(s, Grant, Release(s.waiting[0]), rest);
    }
  }

  lemma ExecTwoThen(s: State, a: Action, b: Action, rest: seq<Action>)
    requires Enabled(s, a) && Enabled(Apply(s, a), b)
    ensures Exec(s, [a, b] + rest) == Exec(Apply(Apply(s, a), b), rest)
  {
    hide Enabled, Apply;
    assert [a, b][..1] == [a] && [a][..0] == [] && Exec(s, []) == s && Exec(s, [a]) == Apply(s, a);
    assert Exec(s, [a, b]) == Apply(Apply(s, a), b);
    ExecConcat(s, [a, b], rest);
  }

  lemma {:induction false} ExecConcat(s: State, run: seq<Action>, rest: seq<Action>)
    ensures Exec(s, run + rest) == Exec(Exec(s, run), rest)
    decreases |rest|
  {
    hide Enabled, Apply;
    if rest == [] {
      assert run + rest == run;
    } else {
      assert (run + rest)[..|run + rest|-1] == run + rest[..|rest|-1];
      ExecConcat(s, run, rest[..|rest|-1]);
    }
  }

  /** Conversely, a wait that does not begin in good hands can return too early: the line is served
      although nobody who will look at the queue has the lock or stands in line. */
  lemma WaitCanMiss(s: State)
    requires Inv(s) && !InGoodHands(s)
    ensures exists run :: Missed(Exec(Apply(s, Wait), run), s.next)
  {
    hide PanickedOk, Harmful, Allowed;
    var s1, w, j := Apply(s, Wait), s.next, |s.waiting|;
    assert |s.disposals| < |s.arrivals|;
    forall i | 0 <= i < |s.waiting| ensures s.tasks[s.waiting[i]].Waiter? && s.waiting[i] != w {
      assert !IsProcessor(s, s.waiting[i]);
    }
    assert OnlyWaitersUpTo(s1, j);
    if s.holder == None {
      var run := LineServedUnprocessed(s1, j);
    } else {
      var t := s.holder.value;
      assert s.tasks[t].pc.Leaving?;
      var s2 := Apply(s1, Release(t));
      assert s2.tasks[w] == s1.tasks[w] && forall i :: 0 <= i < |s1.waiting| ==> s1.waiting[i] != t;
      var rest := LineServedUnprocessed(s2, j);
      ExecOneThen(s1, Release(t), rest);
    }
  }

  /** And after a panic that deserts somebody in line, his wait can return too early as well. */
  lemma DesertedCanMiss(s: State, a: Action)
    requires Inv(s) && Enabled(s, a) && Deserts(s, a)
    ensures exists run, w :: Missed(Exec(Apply(s, a), run), w)
  {
    hide FifoOk, PanickedOk, Harmful, Allowed;
    var j: nat :| ReliesOnHolder(s, j);
    var s' := Apply(s, a);
    forall i | 0 <= i <= j ensures s.waiting[i] in s.tasks && s.waiting[i] != a.t && s.tasks[s.waiting[i]].Waiter? {
      assert i < j ==> !IsProcessor(s, s.waiting[i]);
    }
    assert OnlyWaitersUpTo(s', j);
    var run := LineServedUnprocessed(s', j);
    assert Missed(Exec(s', run), s.waiting[j]);
  }

  lemma ExecOneThen(s: State, a: Action, rest: seq<Action>)
    requires Enabled(s, a)
    ensures Exec(s, [a] + rest) == Exec(Apply(s, a), rest)
  {
    hide Enabled, Apply;
    assert [a][..0] == [] && Exec(s, []) == s && Exec(s, [a]) == Apply(s, a);
    ExecConcat(s, [a], rest);
  }
}
