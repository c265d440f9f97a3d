/**
 * WsFrameWriter as a value: a pausable writer that cuts each chunk into frames of at most
 * MAX_FRAME_PAYLOAD bytes, suspends while the WebSocket's buffer is high, and parks the rest of a chunk
 * while the peer is paused.
 */
module FrameWriter {
  import opened Frames

  /** What one turn of the sending loop reads: is the WebSocket OPEN, is its buffer high, does the send succeed. */
  datatype Reading = Reading(open: bool, high: bool, sent: bool)

  /** A write that is not finished: its number, and what of its chunk is still to be sent. */
  datatype Job = Job(write: nat, rest: Chunk)

  /** History, per write: its chunk, the frames sent for it, and the calls of its callback (true for success). */
  datatype Entry = Entry(chunk: Chunk, frames: seq<Chunk>, outcomes: seq<bool>)

  /** `pending` is the parked job; `waiting` is the sender suspended until the buffer drains. */
  datatype Writer = Writer(peerPaused: bool, closed: bool, pending: Option<Job>, waiting: Option<Job>, log: seq<Entry>)

  function Fresh(): Writer {
    Writer(false, false, None, None, [])
  }

  function At(readings: seq<Reading>, i: nat): Reading {
    if i < |readings| then readings[i] else Reading(true, false, true)
  }

  function Fired(w: Writer, write: nat, ok: bool): Writer
    requires write < |w.log|
  {
    w.(log := w.log[write := w.log[write].(outcomes := w.log[write].outcomes + [ok])])
  }

  function Emitted(w: Writer, write: nat, frame: Chunk): Writer
    requires write < |w.log|
  {
    w.(log := w.log[write := w.log[write].(frames := w.log[write].frames + [frame])])
  }

  function Min(a: nat, b: nat): nat {
    if a <= b then a else b
  }

  /**
   * The sending loop on a job, reading `readings` from position i on; `drained` says that it comes
   * back from waiting, past the checks at the top of the loop.
   */
  function Send(w: Writer, job: Job, max: nat, readings: seq<Reading>, i: nat, drained: bool): Writer
    requires job.write < |w.log| && max > 0
    decreases |job.rest|
  {
    if job.rest == [] then Fired(w, job.write, true)
    else if !drained && w.closed then Fired(w, job.write, false)
    else if !drained && !At(readings, i).open then Fired(w, job.write, false)
    else if !drained && At(readings, i).high then w.(waiting := Some(job))
    else if w.closed then Fired(w, job.write, false)
    else if w.peerPaused then w.(pending := Some(job))
    else if !At(readings, i).sent then Fired(w, job.write, false)
    else
      var n := Min(max, |job.rest|);
      Send(Emitted(w, job.write, job.rest[..n]), Job(job.write, job.rest[n..]), max, readings, i + 1, false)
  }

  datatype Event =
    | Write(chunk: Chunk)
    | SetPeerPaused(paused: bool)
    | Drained(ok: bool)          // waitDrain ends: drained, or closed / timed out
    | Destroy

  /** A stream hands over one chunk at a time; only a suspended sender can be woken. */
  predicate Possible(w: Writer, ev: Event) {
    match ev
    case Write(_) => w.pending.None? && w.waiting.None?
    case Drained(_) => w.waiting.Some? && w.waiting.value.write < |w.log|
    case SetPeerPaused(_) => w.pending.Some? ==> w.pending.value.write < |w.log|
    case Destroy => w.pending.Some? ==> w.pending.value.write < |w.log|
  }

  function Step(w: Writer, ev: Event, max: nat, readings: seq<Reading>): Writer
    requires Possible(w, ev) && max > 0
  {
    match ev
    case Write(chunk) =>
      var k := |w.log|;
      var w1 := w.(log := w.log + [Entry(chunk, [], [])]);
      if w.closed then Fired(w1, k, false)
      else if w.peerPaused then w1.(pending := Some(Job(k, chunk)))
      else Send(w1, Job(k, chunk), max, readings, 0, false)
    case SetPeerPaused(paused) =>
      var w1 := w.(peerPaused := paused);
      if !paused && w.pending.Some? && !w.closed then Send(w1.(pending := None), w.pending.value, max, readings, 0, false) else w1
    case Drained(ok) =>
      var job := w.waiting.value;
      if ok then Send(w.(waiting := None), job, max, readings, 0, true) else Fired(w.(waiting := None), job.write, false)
    case Destroy =>
      var w1 := w.(closed := true);
      if w.pending.Some? then Fired(w1.(pending := None), w.pending.value.write, false) else w1
  }

  // ---------------------------------------------------------------------------
  // The fixed split of a chunk
  // ---------------------------------------------------------------------------

  /** The chunk cut at the multiples of max. */
  function Split(chunk: Chunk, max: nat): (frames: seq<Chunk>)
    requires max > 0
    ensures forall k :: 0 <= k < |frames| ==> 0 < |frames[k]| <= max
    ensures forall k :: 0 <= k < |frames| - 1 ==> |frames[k]| == max
    decreases |chunk|
  {
    if chunk == [] then [] else [chunk[..Min(max, |chunk|)]] + Split(chunk[Min(max, |chunk|)..], max)
  }

  function Join(frames: seq<Chunk>): Chunk {
    if |frames| == 0 then [] else frames[0] + Join(frames[1..])
  }

  /** Joining the split gives the chunk back. */
  lemma {:induction false} SplitJoins(chunk: Chunk, max: nat)
    requires max > 0
    ensures Join(Split(chunk, max)) == chunk
    decreases |chunk|
  {
    if chunk != [] {
      var n := Min(max, |chunk|);
      SplitJoins(chunk[n..], max);
      assert Split(chunk, max)[1..] == Split(chunk[n..], max);
      assert chunk == chunk[..n] + chunk[n..];
    }
  }

  // ---------------------------------------------------------------------------
  // The invariant
  // ---------------------------------------------------------------------------

  /** A finished write was answered once, and successfully only if all of it was sent. */
  ghost predicate DoneOk(e: Entry, max: nat)
    requires max > 0
  {
    && |e.outcomes| == 1
    && e.frames <= Split(e.chunk, max)
    && (e.outcomes[0] ==> e.frames == Split(e.chunk, max))
  }

  /** An unfinished write: what was sent and what is left make up the split. */
  ghost predicate OpenOk(e: Entry, rest: Chunk, max: nat)
    requires max > 0
  {
    e.outcomes == [] && e.frames + Split(rest, max) == Split(e.chunk, max)
  }

  ghost predicate Active(w: Writer, job: Job, max: nat)
    requires max > 0
  {
    job.write == |w.log| - 1 && OpenOk(w.log[job.write], job.rest, max)
  }

  /** All writes but the last are done; the last is done, parked, or suspended, and never two of these. */
  ghost predicate Inv(w: Writer, max: nat)
    requires max > 0
  {
    && (w.pending.Some? ==> w.waiting.None? && !w.closed && w.peerPaused && Active(w, w.pending.value, max))
    && (w.waiting.Some? ==> w.pending.None? && Active(w, w.waiting.value, max))
    && (forall k :: 0 <= k < |w.log| && (w.pending.Some? || w.waiting.Some? ==> k < |w.log| - 1) ==> DoneOk(w.log[k], max))
  }

  /** A job in the sender's hands: everything before it is done. */
  ghost predicate Sending(w: Writer, job: Job, max: nat)
    requires max > 0
  {
    && w.pending.None? && w.waiting.None? && Active(w, job, max)
    && (forall k :: 0 <= k < |w.log| - 1 ==> DoneOk(w.log[k], max))
  }

  lemma FiredInv(w: Writer, job: Job, max: nat, ok: bool)
    requires max > 0 && Sending(w, job, max) && (ok ==> job.rest == [])
    ensures Inv(Fired(w, job.write, ok), max)
  {
    var e := w.log[job.write];
    assert e.frames <= Split(e.chunk, max);
    assert ok ==> e.frames + [] == e.frames;
  }

  lemma EmittedSending(w: Writer, job: Job, max: nat)
    requires max > 0 && Sending(w, job, max) && job.rest != []
    ensures var n := Min(max, |job.rest|);
            Sending(Emitted(w, job.write, job.rest[..n]), Job(job.write, job.rest[n..]), max)
  {
    var n := Min(max, |job.rest|);
    var e := w.log[job.write];
    assert e.frames + Split(job.rest, max) == e.frames + [job.rest[..n]] + Split(job.rest[n..], max);
  }

  lemma {:induction false} SendInv(w: Writer, job: Job, max: nat, readings: seq<Reading>, i: nat, drained: bool)
    requires max > 0 && Sending(w, job, max)
    ensures Inv(Send(w, job, max, readings, i, drained), max)
    decreases |job.rest|
  {
    hide Fired, Emitted, Split, OpenOk, DoneOk;
    FiredInv(w, job, max, false);
    if job.rest == [] {
      FiredInv(w, job, max, true);
    } else {
      var n := Min(max, |job.rest|);
      EmittedSending(w, job, max);
      SendInv(Emitted(w, job.write, job.rest[..n]), Job(job.write, job.rest[n..]), max, readings, i + 1, false);
    }
  }

  lemma StepInv(w: Writer, ev: Event, max: nat, readings: seq<Reading>)
    requires max > 0 && Inv(w, max) && Possible(w, ev)
    ensures Inv(Step(w, ev, max, readings), max)
  {
    hide Split, Send, Fired, DoneOk;
    match ev
    case Write(chunk) =>
      var w1 := w.(log := w.log + [Entry(chunk, [], [])]);
      var job := Job(|w.log|, chunk);
      assert [] + Split(chunk, max) == Split(chunk, max);
      assert Sending(w1, job, max);
      FiredInv(w1, job, max, false);
      SendInv(w1, job, max, readings, 0, false);
    case SetPeerPaused(paused) =>
      if w.pending.Some? { SendInv(w.(peerPaused := paused, pending := None), w.pending.value, max, readings, 0, false); }
    case Drained(ok) =>
      SendInv(w.(waiting := None), w.waiting.value, max, readings, 0, true);
      FiredInv(w.(waiting := None), w.waiting.value, max, false);
    case Destroy =>
      if w.pending.Some? { FiredInv(w.(closed := true, pending := None), w.pending.value, max, false); }
  }

  // ---------------------------------------------------------------------------
  // Every schedule
  // ---------------------------------------------------------------------------

  function Run(max: nat, script: seq<(seq<Reading>, Event)>): Option<Writer>
    requires max > 0
  {
    if |script| == 0 then Some(Fresh())
    else
      var n := |script| - 1;
      var before := Run(max, script[..n]);
      if before.Some? && Possible(before.value, script[n].1) then Some(Step(before.value, script[n].1, max, script[n].0)) else None
  }

  lemma {:induction false} RunInv(max: nat, script: seq<(seq<Reading>, Event)>)
    requires max > 0 && Run(max, script).Some?
    ensures Inv(Run(max, script).value, max)
  {
    hide Step, Possible, Inv;
    if |script| == 0 {
      FreshInv(max);
    } else {
      var n := |script| - 1;
      RunInv(max, script[..n]);
      StepInv(Run(max, script[..n]).value, script[n].1, max, script[n].0);
    }
  }

  lemma FreshInv(max: nat)
    requires max > 0
    ensures Inv(Fresh(), max)
  {
  }

  /**
   * For every schedule of writes, pauses, resumes, drains and destroy: the frames sent for a write are a
   * prefix of the fixed split of its chunk, so none is empty or longer than the limit and together they
   * are a prefix of its bytes; its callback is called at most once, and reports success only if all of
   * the split was sent; and only the last write can be unanswered, in which case there is exactly one
   * parked or suspended job, holding precisely the bytes that are left. Once every write is answered, no
   * job is parked or suspended; and a job is parked only while the peer is paused and the writer not destroyed.
   */
  lemma FramesRefineSplit(max: nat, script: seq<(seq<Reading>, Event)>, k: nat)
    requires max > 0 && Run(max, script).Some? && k < |Run(max, script).value.log|
    ensures var w := Run(max, script).value; var e := w.log[k];
            && e.frames <= Split(e.chunk, max)
            && Join(e.frames) <= e.chunk
            && |e.outcomes| <= 1
            && (e.outcomes == [true] ==> e.frames == Split(e.chunk, max) && Join(e.frames) == e.chunk)
            && (e.outcomes == [] ==>
                  && k == |w.log| - 1 && w.pending.Some? != w.waiting.Some?
                  && e.frames + Split(if w.pending.Some? then w.pending.value.rest else w.waiting.value.rest, max) == Split(e.chunk, max))
            && ((forall j :: 0 <= j < |w.log| ==> w.log[j].outcomes != []) <==> w.pending.None? && w.waiting.None?)
            && (w.pending.Some? ==> w.peerPaused && !w.closed)
  {
    hide Split, Run;
    RunInv(max, script);
    var w := Run(max, script).value;
    var e := w.log[k];
    SplitJoins(e.chunk, max);
    if !(w.pending.Some? || w.waiting.Some?) || k < |w.log| - 1 { assert DoneOk(e, max); }
    JoinPrefix(e.frames, Split(e.chunk, max));
    forall j | 0 <= j < |w.log| ensures w.log[j].outcomes == [] <==> j == |w.log| - 1 && (w.pending.Some? || w.waiting.Some?) {
      assert j < |w.log| - 1 || (w.pending.None? && w.waiting.None?) ==> DoneOk(w.log[j], max);
    }
  }

  lemma {:induction false} JoinPrefix(a: seq<Chunk>, b: seq<Chunk>)
    requires a <= b
    ensures Join(a) <= Join(b)
  {
    if |a| > 0 {
      assert a[1..] <= b[1..];
      JoinPrefix(a[1..], b[1..]);
    }
  }
}
