/** WsFrameWriter as an object: its fields, its sending loop over an offset, and the point where that loop suspends. */
module FrameWriterObject {
  import opened Frames
  import opened FrameWriter
  import FR = FrameWriterRuns

  /** The local variables of a sender suspended in waitDrain; `callback` is the number of the write. */
  datatype Suspended = Suspended(buf: Chunk, offset: nat, callback: nat)

  /** One turn of the sending loop, where it stops and where it goes on. */
  lemma TurnStops(w: Writer, job: Job, max: nat, readings: seq<Reading>, i: nat, back: bool)
    requires max > 0 && job.write < |w.log| && (job.rest == [] || !FR.Goes(w, At(readings, i), back))
    ensures Send(w, job, max, readings, i, back) ==
            if job.rest == [] then Fired(w, job.write, true)
            else if FR.Suspends(w, At(readings, i), back) then w.(waiting := Some(job))
            else if FR.Parks(w, At(readings, i), back) then w.(pending := Some(job))
            else Fired(w, job.write, false)
  {
  }

  lemma TurnSends(w: Writer, job: Job, max: nat, readings: seq<Reading>, i: nat, back: bool)
    requires max > 0 && job.write < |w.log| && job.rest != [] && FR.Goes(w, At(readings, i), back)
    ensures var n := Min(max, |job.rest|);
            Send(w, job, max, readings, i, back)
            == Send(Emitted(w, job.write, job.rest[..n]), Job(job.write, job.rest[n..]), max, readings, i + 1, false)
  {
  }

  class WsFrameWriter {
    const maxFramePayload: nat

    var peerPaused: bool
    var writerClosed: bool
    var pending: Option<(Chunk, nat)>
    var suspended: Option<Suspended>

    ghost var log: seq<Entry>

    ghost predicate Valid()
      reads this
    {
      && maxFramePayload > 0
      && (pending.Some? ==> pending.value.1 < |log|)
      && (suspended.Some? ==> suspended.value.offset <= |suspended.value.buf| && suspended.value.callback < |log|)
    }

    ghost function Val(): Writer
      requires Valid()
      reads this
    {
      Writer(peerPaused, writerClosed,
             if pending.Some? then Some(Job(pending.value.1, pending.value.0)) else None,
             if suspended.Some? then Some(Job(suspended.value.callback, suspended.value.buf[suspended.value.offset..])) else None,
             log)
    }

    constructor (max: nat)
      requires max > 0
      ensures Valid() && maxFramePayload == max && Val() == Fresh()
    {
      maxFramePayload := max;
      peerPaused, writerClosed, pending, suspended, log := false, false, None, None, [];
    }

    /** The callback of a write is called. */
    method Callback(write: nat, ok: bool)
      requires Valid() && write < |log|
      modifies this`log
      ensures Valid() && Val() == Fired(old(Val()), write, ok)
    {
      log := log[write := log[write].(outcomes := log[write].outcomes + [ok])];
    }

    /** sendFrame with a frame of this slice. */
    method SendSlice(write: nat, slice: Chunk)
      requires Valid() && write < |log|
      modifies this`log
      ensures Valid() && Val() == Emitted(old(Val()), write, slice)
    {
      log := log[write := log[write].(frames := log[write].frames + [slice])];
    }

    /** _sendChunk from an offset on; `drained` when it is the rest of a call that was suspended. */
    method SendChunk(buf: Chunk, start: nat, callback: nat, readings: seq<Reading>, drained: bool)
      requires Valid() && start <= |buf| && callback < |log|
      modifies this
      ensures Valid()
      ensures Val() == Send(old(Val()), Job(callback, buf[start..]), maxFramePayload, readings, 0, drained)
    {
      hide Send;
      var offset, turn, back := start, 0, drained;
      while offset < |buf|
        invariant Valid() && start <= offset <= |buf| && callback < |log|
        invariant Send(Val(), Job(callback, buf[offset..]), maxFramePayload, readings, turn, back)
               == Send(old(Val()), Job(callback, buf[start..]), maxFramePayload, readings, 0, drained)
        decreases |buf| - offset
      {
        if !FR.Goes(Val(), At(readings, turn), back) {
          TurnStops(Val(), Job(callback, buf[offset..]), maxFramePayload, readings, turn, back);
        }
        if !back {
          if writerClosed {
            Callback(callback, false);
            return;
          }
          if !At(readings, turn).open {
            Callback(callback, false);
            return;
          }
          if At(readings, turn).high {
            suspended := Some(Suspended(buf, offset, callback));
            return;
          }
        }
        if writerClosed {
          Callback(callback, false);
          return;
        }
        if peerPaused {
          pending := Some((buf[offset..], callback));
          return;
        }
        if !At(readings, turn).sent {
          Callback(callback, false);
          return;
        }
        var end := Min(offset + maxFramePayload, |buf|);
        assert buf[offset..][..end - offset] == buf[offset..end] && buf[offset..][end - offset..] == buf[end..];
        TurnSends(Val(), Job(callback, buf[offset..]), maxFramePayload, readings, turn, back);
        SendSlice(callback, buf[offset..end]);
        offset, turn, back := end, turn + 1, false;
      }
      TurnStops(Val(), Job(callback, buf[offset..]), maxFramePayload, readings, turn, back);
      Callback(callback, true);
    }

    /**
     * _write. The stream machinery calls it only when the last write was answered; k numbers its callback. While
     * the peer is paused the chunk is parked whole; a destroyed writer answers with an error at once.
     */
    method Write(chunk: Chunk, k: nat, readings: seq<Reading>)
      requires Valid() && Possible(Val(), FrameWriter.Write(chunk)) && k == |log|
      modifies this
      ensures Valid() && Val() == Step(old(Val()), FrameWriter.Write(chunk), maxFramePayload, readings)
      ensures old(writerClosed) ==> log == old(log) + [Entry(chunk, [], [false])] && pending.None?
      ensures !old(writerClosed) && old(peerPaused) ==> log == old(log) + [Entry(chunk, [], [])] && pending == Some((chunk, k))
      ensures !old(writerClosed) && !old(peerPaused) ==>
                var w := old(Val()).(log := old(log) + [Entry(chunk, [], [])]);
                |log| == |w.log| && FR.Loops(w, Val(), Job(k, chunk), maxFramePayload, readings, false)
    {
      hide FR.Loops, Send;
      log := log + [Entry(chunk, [], [])];
      if writerClosed {
        assert [] + [false] == [false];
        Callback(k, false);
        return;
      }
      if peerPaused {
        pending := Some((chunk, k));
        return;
      }
      assert chunk[0..] == chunk;
      FR.LoopSends(Val(), Job(k, chunk), maxFramePayload, readings, false);
      SendChunk(chunk, 0, k, readings, false);
    }

    /** The sender wakes up from waitDrain and goes on with the rest of its chunk, or waitDrain fails. */
    method Drained(ok: bool, readings: seq<Reading>)
      requires Valid() && Possible(Val(), FrameWriter.Drained(ok))
      modifies this
      ensures Valid() && Val() == Step(old(Val()), FrameWriter.Drained(ok), maxFramePayload, readings)
      ensures ok && old(pending.None?) ==>
                var w := old(Val());
                |log| == |w.log| && FR.Loops(w.(waiting := None), Val(), w.waiting.value, maxFramePayload, readings, true)
    {
      hide FR.Loops, Send;
      var s := suspended.value;
      suspended := None;
      if !ok {
        Callback(s.callback, false);
        return;
      }
      if pending.None? {
        FR.LoopSends(Val(), Job(s.callback, s.buf[s.offset..]), maxFramePayload, readings, true);
      }
      SendChunk(s.buf, s.offset, s.callback, readings, true);
    }

    /** Unpausing takes the parked job up again, whole. */
    method SetPeerPaused(paused: bool, readings: seq<Reading>)
      requires Valid() && Possible(Val(), FrameWriter.SetPeerPaused(paused))
      modifies this
      ensures Valid() && Val() == Step(old(Val()), FrameWriter.SetPeerPaused(paused), maxFramePayload, readings)
      ensures !paused && !old(writerClosed) && old(pending.Some? && suspended.None?) ==>
                var w := old(Val());
                && |log| == |w.log|
                && FR.Loops(w.(peerPaused := false, pending := None), Val(), w.pending.value, maxFramePayload, readings, false)
    {
      hide FR.Loops, Send;
      peerPaused := paused;
      if !paused && pending.Some? && !writerClosed {
        var (chunk, callback) := pending.value;
        pending := None;
        assert chunk[0..] == chunk;
        if suspended.None? { FR.LoopSends(Val(), Job(callback, chunk), maxFramePayload, readings, false); }
        SendChunk(chunk, 0, callback, readings, false);
      }
    }

    /** _destroy. */
    method Destroy()
      requires Valid() && Possible(Val(), FrameWriter.Destroy)
      modifies this
      ensures Valid() && Val() == Step(old(Val()), FrameWriter.Destroy, maxFramePayload, [])
    {
      writerClosed := true;
      if pending.Some? {
        var callback := pending.value.1;
        pending := None;
        Callback(callback, false);
      }
    }
  }
}
