/** What a wait for pending messages is good for, and what a push and a turn of the loop do, told from
    the outside: by what has arrived, what has been popped, and who still waits. */
module QueueOutcomes {
  import opened Encoding
  import opened Wrappers
  import opened ConnectionQueueModel

  /** The caller of the wait is still in line. */
  predicate StillWaits(s: State, w: nat) {
    w in s.tasks && s.tasks[w].pc.Queued?
  }

  /** As far as task `w` is concerned, it waits for the first `n` frames, or they have been processed. */
  ghost predicate WaitsFor(s: State, w: nat, n: nat) {
    && w < s.next
    && (n <= |s.disposals| || (w in s.tasks && exists pc: Pc :: s.tasks[w] == Waiter(pc, n, true)))
  }

  lemma StepWaitsFor(s: State, a: Action, w: nat, n: nat)
    requires Inv(s) && WaitersOk(s) && Enabled(s, a) && WaitsFor(s, w, n)
    ensures WaitsFor(Apply(s, a), w, n)
  {
    hide InGoodHands, Allowed, Harmful, InLineServed, WaitingOk, PanickedOk, FifoOk;
    if w in s.tasks && s.tasks[w].Waiter? && |s.disposals| < n {
      if w in Apply(s, a).tasks {
        assert Apply(s, a).tasks[w] == Waiter(Apply(s, a).tasks[w].pc, n, true);
      }
    }
  }

  /** A wait that begins while the lock is held, or about to be held, by a processor does not end
      before every frame that had arrived by then is processed - in every continuation in which no
      processor panics while a waiter in line relies on it. */
  lemma {:induction false} WaitServesAll(document: Bytes, run: seq<Action>, more: seq<Action>)
    requires InGoodHands(Exec(Init(document), run)) && NeverDeserted(document, run + [Wait] + more)
    ensures var s, s' := Exec(Init(document), run), Exec(Init(document), run + [Wait] + more);
            && (!StillWaits(s', s.next) ==> |s.arrivals| <= |s'.disposals|)
            && WaitsFor(s', s.next, |s.arrivals|)
    decreases |more|
  {
    hide Enabled, Apply, Inv, WaitersOk, InGoodHands, WaitsFor, StillWaits, Deserts;
    var start := run + [Wait];
    var w, n := Exec(Init(document), run).next, |Exec(Init(document), run).arrivals|;
    if more == [] {
      assert start + more == start && start[..|run|] == run;
      WaitBegins(Exec(Init(document), run));
    } else {
      var last := |more| - 1;
      assert (start + more)[..|start| + last] == start + more[..last];
      var s, a := Exec(Init(document), start + more[..last]), more[last];
      WaitServesAll(document, run, more[..last]);
      InvAlways(document, start + more[..last]);
      WaitersAlways(document, start + more[..last]);
      if Enabled(s, a) {
        StepWaitsFor(s, a, w, n);
      }
    }
    InvAlways(document, start + more);
    WaitersAlways(document, start + more);
    if !StillWaits(Exec(Init(document), start + more), w) {
      EndedIsServed(Exec(Init(document), start + more), w, n);
    }
  }

  lemma WaitBegins(s: State)
    requires InGoodHands(s)
    ensures Enabled(s, Wait) && WaitsFor(Apply(s, Wait), s.next, |s.arrivals|) && StillWaits(Apply(s, Wait), s.next)
  {
    assert Apply(s, Wait).tasks[s.next] == Waiter(Queued, |s.arrivals|, true);
  }

  lemma EndedIsServed(s: State, w: nat, n: nat)
    requires Inv(s) && WaitersOk(s) && WaitsFor(s, w, n) && !StillWaits(s, w)
    ensures n <= |s.disposals|
  {
    hide InGoodHands, Allowed, Harmful, InLineServed, WaitingOk, PanickedOk, FifoOk;
  }

  // ---------------------------------------------------------------- the loop

  /** A frame that is not harmful has an outcome even if no hook refuses it. */
  lemma OutcomeExists(document: Bytes, frame: Bytes) returns (o: Outcome)
    requires !Harmful(document, frame)
    ensures Allowed(document, frame, o) && !o.RejectedByHook?
  {
    match ReadString(frame, 0)
    case Field(_, _) => o := if Allowed(document, frame, Applied) then Applied else OtherDocument;
    case _ => o := Undecodable;
  }

  /** One turn of the loop handles the front frame and pops that very frame. */
  lemma TurnPopsFront(s: State, t: nat, o: Outcome)
    requires HolderAt(s, t) && s.tasks[t].pc.Looping? && s.queue != [] && Allowed(s.document, s.queue[0], o)
    ensures Enabled(s, Peek(t)) && var s1 := Apply(s, Peek(t));
            s1.tasks[t].pc == Handling(s.queue[0]) && Enabled(s1, Dispose(t, o)) && var s2 := Apply(s1, Dispose(t, o));
            && s2.queue == s.queue[1..] && s2.disposals == s.disposals + [Disposal(s.queue[0], s.queue[0], o)]
            && HolderAt(s2, t) && s2.tasks[t].pc.Looping? && s2.tasks.Keys == s.tasks.Keys
            && s2.document == s.document && s2.arrivals == s.arrivals
  {
    hide Allowed;
  }

  /** A processor that has the lock can always go on until the queue is empty, and gives the lock back. */
  lemma {:induction false} LoopDrains(s: State, t: nat) returns (run: seq<Action>)
    requires HolderAt(s, t) && s.tasks[t].pc.Looping? && NoneHarmful(s.document, s.queue)
    ensures var s' := Exec(s, run);
            && s'.queue == [] && s'.holder == None && s'.tasks.Keys == s.tasks.Keys - {t}
            && s'.arrivals == s.arrivals && |s'.disposals| == |s.disposals| + |s.queue|
    decreases |s.queue|
  {
    if s.queue == [] {
      run := [Peek(t), Release(t)] + [];
      AtEnd(s, t);
      ExecTwoThen(s, Peek(t), Release(t), []);
    } else {
      hide Enabled, Apply, Harmful, Allowed;
      var o := OutcomeExists(s.document, s.queue[0]);
      TurnPopsFront(s, t, o);
      var s2 := Apply(Apply(s, Peek(t)), Dispose(t, o));
      var rest := LoopDrains(s2, t);
      run := [Peek(t), Dispose(t, o)] + rest;
      ExecTwoThen(s, Peek(t), Dispose(t, o), rest);
    }
  }

  lemma AtEnd(s: State, t: nat)
    requires HolderAt(s, t) && s.tasks[t].pc.Looping? && s.queue == []
    ensures Enabled(s, Peek(t)) && Enabled(Apply(s, Peek(t)), Release(t))
    ensures var s' := Apply(Apply(s, Peek(t)), Release(t)); Exec(s', []) == s' && s'.tasks.Keys == s.tasks.Keys - {t}
  {
  }
}
