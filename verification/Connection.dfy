/** The queue of a connection in the shape of the program. Each method is one block under the queue
    lock, or one acquisition or release of the processing lock; its postcondition names the action
    of `ConnectionQueueModel` that it performs. The lock and the tasks belong to the runtime. */
module Connections {
  import opened Encoding
  import opened RoutingKeys
  import opened Wrappers
  import opened ConnectionQueueModel
  import opened Decoders
  import Receiver = MessageReceivers
  import Frames
  import SyncModel

  class Connection {
    const documentName: Bytes
    var messageQueue: seq<Bytes>
    var closed: bool

    // the runtime underneath, and history
    ghost var holder: Option<nat>
    ghost var waiting: seq<nat>
    ghost var tasks: map<nat, Task>
    ghost var nextTask: nat
    ghost var arrivals: seq<Bytes>
    ghost var disposals: seq<Disposal>
    ghost var panicked: seq<Bytes>

    ghost function View(): State
      reads this
    {
      State(documentName, messageQueue, arrivals, disposals, panicked, tasks, waiting, holder, nextTask)
    }

    constructor (documentName: Bytes)
      ensures this.documentName == documentName && View() == Init(documentName) && !closed
    {
      this.documentName := documentName;
      messageQueue, closed := [], false;
      waiting, tasks, nextTask, holder := [], map[], 0, None;
      arrivals, disposals, panicked := [], [], [];
    }

    /** Pushes the frame; the caller is to process the queue if it found it empty. */
    method HandleMessage(data: Bytes) returns (shouldStartProcessing: bool)
      modifies this
      ensures View() == Apply(old(View()), Push(data)) && closed == old(closed)
      ensures shouldStartProcessing <==> old(messageQueue) == []
    {
      messageQueue := messageQueue + [data];
      arrivals := arrivals + [data];
      shouldStartProcessing := |messageQueue| == 1;
      if shouldStartProcessing {
        tasks := tasks[nextTask := Processor(Requesting)];
        nextTask := nextTask + 1;
      }
    }

    method WaitForPendingMessages()
      modifies this
      ensures View() == Apply(old(View()), Wait) && closed == old(closed)
    {
      tasks := tasks[nextTask := Waiter(Queued, |arrivals|, InGoodHands(View()))];
      waiting := waiting + [nextTask];
      nextTask := nextTask + 1;
    }

    /** A processor asks for the processing lock. */
    method ProcessMessages(ghost t: nat)
      requires Enabled(View(), Request(t))
      modifies this
      ensures View() == Apply(old(View()), Request(t)) && closed == old(closed)
    {
      tasks := tasks[t := tasks[t].(pc := Queued)];
      waiting := waiting + [t];
    }

    method LockGranted()
      requires Enabled(View(), Grant)
      modifies this
      ensures View() == Apply(old(View()), Grant) && closed == old(closed)
    {
      ghost var t := waiting[0];
      holder := Some(t);
      tasks := tasks[t := tasks[t].(pc := if tasks[t].Processor? then Looping else Leaving)];
      waiting := waiting[1..];
    }

    /** The top of the loop: a clone of the front frame, or the end of the loop. */
    method Front(ghost t: nat) returns (front: Option<Bytes>)
      requires Enabled(View(), Peek(t))
      modifies this
      ensures View() == Apply(old(View()), Peek(t)) && closed == old(closed)
      ensures front.Some? ==> tasks[t].pc == Handling(front.value)
      ensures front.None? ==> tasks[t].pc == Leaving
    {
      if messageQueue == [] {
        front := None;
        tasks := tasks[t := tasks[t].(pc := Leaving)];
      } else {
        front := Some(messageQueue[0]);
        tasks := tasks[t := tasks[t].(pc := Handling(messageQueue[0]))];
      }
    }

    /** The body of the loop, given the hooks and library calls: it looks at the address, asks the hook
        before handling, has the receiver handle the frame, does what the result says, and pops the
        queue in every case - or it panics, and pops nothing. */
    method HandleFront(ghost t: nat, rawUpdate: Bytes, hookAccepts: bool, env: Receiver.Env, tokenAccepted: bool)
      returns (outcome: Option<ConnectionQueueModel.Outcome>)
      requires HolderAt(View(), t) && tasks[t].pc == Handling(rawUpdate)
      requires env.fromConnection && !env.beforeSync.NoHook?
      modifies this
      ensures outcome.Some? ==> Allowed(documentName, rawUpdate, outcome.value)
      ensures outcome.Some? ==> View() == DoDispose(old(View()), t, outcome.value)
      ensures outcome.None? ==> Enabled(old(View()), Action.Panic(t)) && View() == Apply(old(View()), Action.Panic(t))
      ensures outcome == Some(Applied) ==> hookAccepts
      ensures outcome == Some(RejectedByHook) ==> !hookAccepts
      ensures outcome == Some(RejectedByHook) ==> closed
      ensures outcome != Some(RejectedByHook) && outcome != Some(Applied) ==> closed == old(closed)
      ensures outcome == Some(Applied) ==>
                match Receiver.Typed(rawUpdate, env)
                case CloseOnError(text) =>
                  closed <==> old(closed) || !(Receiver.STATELESS_TAG <= text || (Receiver.TOKEN_TAG <= text && tokenAccepted))
                case CloseAsRequested => closed
                case OnTokenSync(_) => closed <==> old(closed) || !tokenAccepted
                case _ => closed == old(closed)
    {
      hide Receiver.Typed, Receiver.Panics, Receiver.Dispatch, Receiver.InBand, Closes, DocumentName, DoDispose;
      ActionCloses(Receiver.Typed(rawUpdate, env), tokenAccepted);
      var decoder := new Decoder(rawUpdate);
      var rawKey := decoder.ReadVarString();
      if rawKey.Panic? {
        Unwind(t);
        return None;
      } else if !rawKey.Ok? {
        outcome := Some(Undecodable);
      } else if DocumentName(rawKey.value) != documentName {
        outcome := Some(OtherDocument);
      } else if !hookAccepts {
        closed := true;
        outcome := Some(RejectedByHook);
      } else {
        var survived := Receive(rawUpdate, env, tokenAccepted);
        if !survived {
          Unwind(t);
          return None;
        }
        ActionCloses(Receiver.Typed(rawUpdate, env), tokenAccepted);
        outcome := Some(Applied);
      }
      PopFront(t, rawUpdate, outcome.value);
    }

    /** The receiver handles the frame, and the connection acts on its result. */
    method Receive(rawUpdate: Bytes, env: Receiver.Env, tokenAccepted: bool) returns (survived: bool)
      requires env.fromConnection && !env.beforeSync.NoHook?
      modifies this`closed
      ensures survived <==> !Receiver.Panics(rawUpdate)
      ensures closed <==>
                old(closed)
                || (survived && Closes(Receiver.Dispatch(Receiver.InBand(Receiver.Typed(rawUpdate, env))), tokenAccepted))
    {
      hide Receiver.Typed, Receiver.Panics, Receiver.Dispatch;
      Receiver.PanicsIsUpToTheFrame(rawUpdate, env);
      var receiver := new Receiver.MessageReceiver(rawUpdate);
      var result := receiver.Apply(env);
      survived := !result.Crashed?;
      if survived && Closes(Receiver.Dispatch(result), tokenAccepted) {
        closed := true;
      }
    }

    /** What the connection does about a result: errors and close requests close it, and so does a
        refused token. */
    static predicate Closes(action: Receiver.Action, tokenAccepted: bool) {
      match action
      case CloseOnError(_) => true
      case CloseAsRequested => true
      case OnTokenSync(_) => !tokenAccepted
      case _ => false
    }

    /** A panic while handling drops the guard of the lock and ends the task. */
    method Unwind(ghost t: nat)
      requires HolderAt(View(), t) && tasks[t].pc.Handling?
      modifies this`holder, this`tasks, this`panicked
      ensures View() == old(View()).(tasks := old(tasks) - {t}, holder := None,
                                     panicked := old(panicked) + [old(tasks)[t].pc.frame])
    {
      panicked := panicked + [tasks[t].pc.frame];
      tasks := tasks - {t};
      holder := None;
    }

    method PopFront(ghost t: nat, ghost rawUpdate: Bytes, ghost outcome: ConnectionQueueModel.Outcome)
      requires t in tasks && tasks[t].pc == Handling(rawUpdate)
      modifies this`messageQueue, this`tasks, this`disposals
      ensures View() == DoDispose(old(View()), t, outcome)
    {
      if messageQueue != [] {
        disposals := disposals + [Disposal(rawUpdate, messageQueue[0], outcome)];
        messageQueue := messageQueue[1..];
      }
      tasks := tasks[t := tasks[t].(pc := Looping)];
    }

    method DropGuard(ghost t: nat)
      requires Enabled(View(), Release(t))
      modifies this
      ensures View() == Apply(old(View()), Release(t)) && closed == old(closed)
    {
      tasks := tasks - {t};
      holder := None;
    }
  }

  /** An error closes the connection unless its text is taken for a stateless message, or for a token
      that is then accepted. */
  lemma RefusalCloses(text: Bytes, tokenAccepted: bool)
    ensures var closes := Connection.Closes(Receiver.Dispatch(Receiver.Failed(text)), tokenAccepted);
            && (closes <==> !SyncModel.StaysOpen(text, tokenAccepted))
            && (closes <==> !(Receiver.STATELESS_TAG <= text || (Receiver.TOKEN_TAG <= text && tokenAccepted)))
  {
    hide Frames.Ascii;
    Receiver.TagsDiffer();
  }

  /** What becomes of the connection, by the meaning of the frame that it has handled. */
  lemma ActionCloses(action: Receiver.Action, tokenAccepted: bool)
    ensures var closes := Connection.Closes(Receiver.Dispatch(Receiver.InBand(action)), tokenAccepted);
            match action
            case CloseOnError(text) =>
              closes <==> !(Receiver.STATELESS_TAG <= text || (Receiver.TOKEN_TAG <= text && tokenAccepted))
            case CloseAsRequested => closes
            case OnTokenSync(_) => closes <==> !tokenAccepted
            case _ => !closes
  {
    hide Receiver.Dispatch, Receiver.InBand;
    Receiver.DispatchIsFaithful(action);
    if action.CloseOnError? {
      ErrorInBand(action.text);
      RefusalCloses(action.text, tokenAccepted);
    }
  }

  lemma ErrorInBand(text: Bytes)
    ensures Receiver.InBand(Receiver.CloseOnError(text)) == Receiver.Failed(text)
  {
  }
}
