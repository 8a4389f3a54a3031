/** The writer task of a socket: it drains an ordered channel of commands, feeds what is already
    queued in one go, and flushes before it waits again.

    `FramesOf` and `EndOf` describe a writer that handles one command at a time. The batching
    writer is proved to write the same frames and to end the same way for every way in which the
    commands can arrive; only a failing flush can cut it short. */
module Writers {
  import opened Encoding

  datatype Cmd = Send(data: Bytes) | Close(code: nat, reason: Bytes)

  /** What the writer does, in order. */
  datatype Io =
    | Wait                          // parks on the channel
    | Feed(data: Bytes, ok: bool)
    | Flush(ok: bool)
    | CloseFrame(code: nat, reason: Bytes)

  datatype End = Drained | SocketError | ClosedWith(code: nat, reason: Bytes)

  /** When the `k`-th feed or flush succeeds, and whether the `k`-th command is already queued
      when the writer looks for it without waiting. */
  datatype World = World(feedOk: nat -> bool, flushOk: nat -> bool, queued: nat -> bool)

  // ---------------------------------------------------------------- one command at a time

  function FramesOf(chan: seq<Cmd>, feedOk: nat -> bool, k: nat): seq<Bytes> {
    if chan == [] || chan[0].Close? || !feedOk(k) then []
    else [chan[0].data] + FramesOf(chan[1..], feedOk, k + 1)
  }

  function EndOf(chan: seq<Cmd>, feedOk: nat -> bool, k: nat): End {
    if chan == [] then Drained
    else if chan[0].Close? then ClosedWith(chan[0].code, chan[0].reason)
    else if !feedOk(k) then SocketError
    else EndOf(chan[1..], feedOk, k + 1)
  }

  /** The payloads of the sends before the first close. */
  function Payloads(chan: seq<Cmd>): seq<Bytes> {
    if chan == [] || chan[0].Close? then [] else [chan[0].data] + Payloads(chan[1..])
  }

  /** The frames are the queued sends in order, up to the first close or the first feed that fails. */
  lemma {:induction false} FramesAreSends(chan: seq<Cmd>, feedOk: nat -> bool, k: nat)
    ensures var fs := FramesOf(chan, feedOk, k);
            && fs <= Payloads(chan)
            && (forall i :: k <= i < k + |fs| ==> feedOk(i))
            && (EndOf(chan, feedOk, k).SocketError? <==> |fs| < |Payloads(chan)|)
            && (|fs| < |Payloads(chan)| ==> !feedOk(k + |fs|))
    ensures match EndOf(chan, feedOk, k)
            case ClosedWith(code, reason) => |Payloads(chan)| < |chan| && chan[|Payloads(chan)|] == Close(code, reason)
            case Drained => |Payloads(chan)| == |chan|
            case SocketError => true
  {
    if chan != [] && chan[0].Send? && feedOk(k) {
      FramesAreSends(chan[1..], feedOk, k + 1);
    }
  }

  // ---------------------------------------------------------------- reading a log

  function Fed(log: seq<Io>): seq<Bytes> {
    if log == [] then []
    else Fed(log[..|log|-1]) + (if log[|log|-1].Feed? && log[|log|-1].ok then [log[|log|-1].data] else [])
  }

  /** Something has been fed since the last successful flush. */
  predicate Dirty(log: seq<Io>) {
    log != [] &&
    match log[|log|-1]
    case Feed(_, _) => true
    case Flush(ok) => !ok && Dirty(log[..|log|-1])
    case _ => Dirty(log[..|log|-1])
  }

  /** It never waits with unflushed frames, and does nothing after the close frame. */
  ghost predicate Tidy(log: seq<Io>) {
    && (forall i :: 0 <= i < |log| && log[i].Wait? ==> !Dirty(log[..i]))
    && (forall i :: 0 <= i < |log| - 1 ==> !log[i].CloseFrame?)
  }

  ghost predicate BatchedAt(log: seq<Io>, w: World, i: nat)
    requires i < |log|
  {
    match log[i]
    case Wait => i == 0 || (log[i-1].Flush? && !w.queued(|Fed(log[..i])|))
    case Flush(_) => i == |log| - 1 || log[i+1].Wait? || log[i+1].CloseFrame?
    case CloseFrame(_, _) => i > 0 && log[i-1].Flush?
    case Feed(_, _) => true
  }

  /** It waits only if no command is queued, flushes only before it waits or closes or comes to its
      end, and closes only behind a flush; so whatever is queued is written in one batch. */
  ghost predicate Batched(log: seq<Io>, w: World) {
    forall i: nat :: i < |log| ==> BatchedAt(log, w, i)
  }

  predicate EndsInFlush(log: seq<Io>) {
    log != [] && log[|log|-1].Flush?
  }

  lemma BatchGrows(log: seq<Io>, io: Io, w: World)
    requires Batched(log, w)
    requires EndsInFlush(log) ==> io.Wait? || io.CloseFrame?
    requires io.CloseFrame? || (io.Wait? && log != []) ==> EndsInFlush(log)
    requires io.Wait? && log != [] ==> !w.queued(|Fed(log)|)
    ensures Batched(log + [io], w) && (EndsInFlush(log + [io]) <==> io.Flush?)
  {
    hide Fed;
    var log' := log + [io];
    forall i: nat | i < |log'| ensures BatchedAt(log', w, i) {
      assert log'[..i] == log[..i];
      assert i < |log| ==> log'[i] == log[i] && BatchedAt(log, w, i);
      assert i == |log| && i > 0 ==> log'[i-1] == log[|log|-1];
    }
  }

  lemma FedGrows(log: seq<Io>, io: Io)
    ensures Fed(log + [io]) == Fed(log) + (if io.Feed? && io.ok then [io.data] else [])
    ensures Dirty(log + [io]) <==> io.Feed? || (Dirty(log) && !(io.Flush? && io.ok))
  {
    assert (log + [io])[..|log|] == log;
  }

  lemma TidyGrows(log: seq<Io>, io: Io)
    requires Tidy(log) && (io.Wait? ==> !Dirty(log)) && NoCloseFrame(log)
    ensures Tidy(log + [io]) && (!io.CloseFrame? ==> NoCloseFrame(log + [io]))
  {
    hide Dirty;
    var log' := log + [io];
    assert log'[..|log|] == log;
    assert forall i :: 0 <= i < |log| ==> log'[..i] == log[..i] && log'[i] == log[i];
  }

  ghost predicate NoCloseFrame(log: seq<Io>) {
    forall i :: 0 <= i < |log| ==> !log[i].CloseFrame?
  }

  /** What is left to do, seen from the middle of the loop. */
  ghost predicate OnTrack(chan: seq<Cmd>, w: World, log: seq<Io>, rest: seq<Cmd>) {
    && Fed(log) + FramesOf(rest, w.feedOk, |Fed(log)|) == FramesOf(chan, w.feedOk, 0)
    && EndOf(rest, w.feedOk, |Fed(log)|) == EndOf(chan, w.feedOk, 0)
    && Tidy(log) && NoCloseFrame(log)
  }

  class Writer {
    var log: seq<Io>
    var feeds: nat
    var flushes: nat

    constructor ()
      ensures log == [] && feeds == 0 && flushes == 0
    {
      log, feeds, flushes := [], 0, 0;
    }

    method DoFeed(data: Bytes, w: World) returns (ok: bool)
      modifies this
      ensures ok == w.feedOk(old(feeds)) && feeds == old(feeds) + 1 && flushes == old(flushes)
      ensures log == old(log) + [Feed(data, ok)]
    {
      ok := w.feedOk(feeds);
      feeds := feeds + 1;
      log := log + [Feed(data, ok)];
    }

    method DoFlush(w: World) returns (ok: bool)
      modifies this
      ensures feeds == old(feeds) && log == old(log) + [Flush(ok)]
    {
      ok := w.flushOk(flushes);
      flushes := flushes + 1;
      log := log + [Flush(ok)];
    }

    /** The nested loops of the task, for a channel on which exactly `chan` is ever sent. */
    method Run(chan: seq<Cmd>, w: World) returns (end: End, flushFailed: bool)
      requires log == [] && feeds == 0
      modifies this
      ensures Tidy(log) && Batched(log, w)
      ensures !flushFailed ==> Fed(log) == FramesOf(chan, w.feedOk, 0) && end == EndOf(chan, w.feedOk, 0)
      ensures flushFailed ==> Fed(log) <= FramesOf(chan, w.feedOk, 0) && end == SocketError && NoCloseFrame(log)
      ensures end.ClosedWith? <==> !NoCloseFrame(log)
      ensures end.ClosedWith? ==> log[|log|-1] == CloseFrame(end.code, end.reason)
      ensures end.Drained? ==> !Dirty(log)
    {
      hide Fed, Dirty, Tidy, FramesOf, EndOf, Batched, EndsInFlush;
      var next := 0;
      flushFailed := false;
      end := Drained;
      Started(chan, w);
      while next < |chan|
        invariant next <= |chan| && end == Drained && !flushFailed
        invariant OnTrack(chan, w, log, chan[next..]) && feeds == |Fed(log)| == next && !Dirty(log)
        invariant Batched(log, w) && (log == [] || (EndsInFlush(log) && !(next < |chan| && w.queued(next))))
        decreases |chan| - next
      {
        var cmd := chan[next];
        Waited(chan, w, log, chan[next..]);
        BatchGrows(log, Wait, w);
        log := log + [Wait];
        assert chan[next..] == [cmd] + chan[next+1..];
        next := next + 1;
        ghost var received := next;
        while true
          invariant received <= next <= |chan| && end == Drained && !flushFailed
          invariant OnTrack(chan, w, log, [cmd] + chan[next..]) && feeds == |Fed(log)| == next - 1
          invariant Batched(log, w) && !EndsInFlush(log)
          decreases |chan| - next
        {
          match cmd {
            case Send(data) =>
              Sent(chan, w, log, data, chan[next..]);
              BatchGrows(log, Feed(data, w.feedOk(feeds)), w);
              var ok := DoFeed(data, w);
              if !ok {
                end := SocketError;
                return;
              }
            case Close(code, reason) =>
              ghost var before := log;
              var flushed := DoFlush(w);
              BatchGrows(before, Flush(flushed), w);
              BatchGrows(log, CloseFrame(code, reason), w);
              log := log + [CloseFrame(code, reason)];
              ClosesDown(chan, w, before, Flush(flushed), code, reason, chan[next..]);
              end := ClosedWith(code, reason);
              assert log[|log|-1] == CloseFrame(code, reason);
              return;
          }
          if next < |chan| && w.queued(next) {
            cmd := chan[next];
            assert chan[next..] == [cmd] + chan[next+1..];
            next := next + 1;
          } else {
            break;
          }
        }
        ghost var before := log;
        var ok := DoFlush(w);
        Flushed(chan, w, before, ok, chan[next..]);
        BatchGrows(before, Flush(ok), w);
        if !ok {
          flushFailed, end := true, SocketError;
          return;
        }
      }
      assert chan[next..] == [];
      AllDone(chan, w, log);
    }
  }

  lemma Started(chan: seq<Cmd>, w: World)
    ensures OnTrack(chan, w, [], chan[0..]) && Fed([]) == [] && !Dirty([]) && Batched([], w)
  {
    assert chan[0..] == chan;
  }

  lemma Waited(chan: seq<Cmd>, w: World, log: seq<Io>, rest: seq<Cmd>)
    requires OnTrack(chan, w, log, rest) && !Dirty(log)
    ensures OnTrack(chan, w, log + [Wait], rest) && Fed(log + [Wait]) == Fed(log)
  {
    hide Fed, FramesOf, EndOf, Dirty, Tidy, NoCloseFrame;
    FedGrows(log, Wait);
    TidyGrows(log, Wait);
  }

  lemma Sent(chan: seq<Cmd>, w: World, log: seq<Io>, data: Bytes, rest: seq<Cmd>)
    requires OnTrack(chan, w, log, [Send(data)] + rest)
    ensures var ok := w.feedOk(|Fed(log)|);
            var log' := log + [Feed(data, ok)];
            && Tidy(log') && NoCloseFrame(log')
            && (ok ==> OnTrack(chan, w, log', rest) && |Fed(log')| == |Fed(log)| + 1)
            && (!ok ==> Fed(log') == FramesOf(chan, w.feedOk, 0) && EndOf(chan, w.feedOk, 0) == SocketError)
  {
    hide Fed;
    var ok := w.feedOk(|Fed(log)|);
    FedGrows(log, Feed(data, ok));
    TidyGrows(log, Feed(data, ok));
    assert ([Send(data)] + rest)[1..] == rest;
  }

  lemma Flushed(chan: seq<Cmd>, w: World, log: seq<Io>, ok: bool, rest: seq<Cmd>)
    requires OnTrack(chan, w, log, rest)
    ensures OnTrack(chan, w, log + [Flush(ok)], rest) && Fed(log + [Flush(ok)]) == Fed(log)
    ensures ok ==> !Dirty(log + [Flush(ok)])
  {
    hide Fed, FramesOf, EndOf;
    FedGrows(log, Flush(ok));
    TidyGrows(log, Flush(ok));
  }

  lemma ClosesDown(chan: seq<Cmd>, w: World, log: seq<Io>, flush: Io, code: nat, reason: Bytes, rest: seq<Cmd>)
    requires OnTrack(chan, w, log, [Close(code, reason)] + rest) && flush.Flush?
    ensures var log' := log + [flush] + [CloseFrame(code, reason)];
            && Tidy(log') && Fed(log') == FramesOf(chan, w.feedOk, 0)
            && EndOf(chan, w.feedOk, 0) == ClosedWith(code, reason)
  {
    hide Fed;
    FedGrows(log, flush);
    TidyGrows(log, flush);
    FedGrows(log + [flush], CloseFrame(code, reason));
    TidyGrows(log + [flush], CloseFrame(code, reason));
  }

  lemma AllDone(chan: seq<Cmd>, w: World, log: seq<Io>)
    requires OnTrack(chan, w, log, [])
    ensures Fed(log) == FramesOf(chan, w.feedOk, 0) && EndOf(chan, w.feedOk, 0) == Drained
  {
    hide Fed;
  }

  // ---------------------------------------------------------------- the other end of the channel

  datatype ReadyState = Open | Closing | Closed

  /** What one call after the other leaves in the channel, as long as nobody else closes the socket. */
  function Queued(calls: seq<Cmd>, closing: bool): seq<Cmd> {
    if calls == [] then []
    else if calls[0].Close? then [calls[0]] + Queued(calls[1..], true)
    else (if closing then [] else [calls[0]]) + Queued(calls[1..], closing)
  }

  predicate HasClose(calls: seq<Cmd>) {
    calls != [] && (calls[0].Close? || HasClose(calls[1..]))
  }

  lemma {:induction false} QueuedGrows(calls: seq<Cmd>, closing: bool, c: Cmd)
    ensures Queued(calls + [c], closing)
            == Queued(calls, closing) + (if c.Send? && (closing || HasClose(calls)) then [] else [c])
    ensures HasClose(calls + [c]) <==> HasClose(calls) || c.Close?
  {
    if calls != [] {
      QueuedGrows(calls[1..], closing || calls[0].Close?, c);
      assert (calls + [c])[1..] == calls[1..] + [c];
    }
  }

  /** That the sink drops what is sent after a close makes no difference to the client. */
  lemma {:induction false} DroppingIsInvisible(calls: seq<Cmd>, feedOk: nat -> bool, k: nat)
    ensures FramesOf(Queued(calls, false), feedOk, k) == FramesOf(calls, feedOk, k)
    ensures EndOf(Queued(calls, false), feedOk, k) == EndOf(calls, feedOk, k)
  {
    if calls != [] {
      var queued := Queued(calls, false);
      assert queued[0] == calls[0];
      if calls[0].Send? {
        assert queued[1..] == Queued(calls[1..], false);
        if feedOk(k) {
          DroppingIsInvisible(calls[1..], feedOk, k + 1);
        }
      }
    }
  }

  /** The sink that connections send to. The writer may be gone; it and the read loop mark the
      socket closed. */
  class SocketSink {
    var state: ReadyState
    var channel: seq<Cmd>
    var writerGone: bool
    ghost var calls: seq<Cmd>
    ghost var ended: bool

    /** The channel holds what the calls leave in it, up to the end of the writer or the read loop. */
    ghost predicate Valid()
      reads this
    {
      !writerGone && !ended ==>
        !state.Closed? && channel == Queued(calls, false) && (state.Closing? <==> HasClose(calls))
    }

    constructor ()
      ensures Valid() && state == Open && channel == [] && calls == [] && !writerGone && !ended
    {
      state, channel, writerGone, calls, ended := Open, [], false, [], false;
    }

    method Send(data: Bytes) returns (ok: bool)
      requires Valid()
      modifies this`channel, this`calls
      ensures Valid() && calls == old(calls) + [Cmd.Send(data)]
      ensures ok <==> !state.Open? || !writerGone
      ensures channel == if state.Open? && !writerGone then old(channel) + [Cmd.Send(data)] else old(channel)
    {
      QueuedGrows(calls, false, Cmd.Send(data));
      calls := calls + [Cmd.Send(data)];
      if state.Closing? || state.Closed? {
        return true;
      }
      if writerGone {
        return false;
      }
      channel := channel + [Cmd.Send(data)];
      ok := true;
    }

    method Close(code: nat, reason: Bytes)
      requires Valid()
      modifies this`state, this`channel, this`calls
      ensures Valid() && calls == old(calls) + [Cmd.Close(code, reason)] && state == Closing
      ensures channel == if writerGone then old(channel) else old(channel) + [Cmd.Close(code, reason)]
    {
      QueuedGrows(calls, false, Cmd.Close(code, reason));
      calls := calls + [Cmd.Close(code, reason)];
      state := Closing;
      if !writerGone {
        channel := channel + [Cmd.Close(code, reason)];
      }
    }

    /** The end of the read loop, or of the writer, which then no longer receives. */
    method MarkClosed(byWriter: bool)
      modifies this`state, this`writerGone, this`ended
      ensures Valid() && state == Closed && ended
      ensures writerGone <==> old(writerGone) || byWriter
    {
      state, ended := Closed, true;
      writerGone := writerGone || byWriter;
    }
  }
}
