/**
 * What the pausable writer does and does not send over a whole schedule: nothing while the peer is paused or
 * after destroy, nothing on a turn that finds the WebSocket's buffer high, and everything else.
 */
module FrameWriterRuns {
  import opened Frames
  import opened FrameWriter

  type Script = seq<(seq<Reading>, Event)>

  // ---------------------------------------------------------------------------
  // History
  // ---------------------------------------------------------------------------

  /** The last SetPeerPaused of the schedule asked for a pause. */
  predicate Asked(script: Script) {
    |script| > 0
    && var ev := script[|script| - 1].1;
       if ev.SetPeerPaused? then ev.paused else Asked(script[..|script| - 1])
  }

  /** The writer has been destroyed. */
  predicate Destroyed(script: Script) {
    exists i :: 0 <= i < |script| && script[i].1.Destroy?
  }

  function After(max: nat, script: Script): Writer
    requires max > 0
  {
    var w := Run(max, script);
    if w.Some? then w.value else Fresh()
  }

  function FramesOf(w: Writer, k: nat): seq<Chunk> {
    if k < |w.log| then w.log[k].frames else []
  }

  // ---------------------------------------------------------------------------
  // One sending loop, turn by turn
  // ---------------------------------------------------------------------------

  /** The loop holds the job: nothing is parked or suspended. */
  predicate Free(w: Writer) {
    w.pending.None? && w.waiting.None?
  }

  /** A turn sends its frame; `back` says that the loop has just come back from waiting. */
  predicate Goes(w: Writer, r: Reading, back: bool) {
    !w.closed && !w.peerPaused && r.sent && (back || (r.open && !r.high))
  }

  predicate GoesAt(w: Writer, readings: seq<Reading>, i: nat, back: bool, j: nat) {
    Goes(w, At(readings, i + j), back && j == 0)
  }

  /** A turn that does not suspends on a high buffer, or parks while the peer is paused, or else fails. */
  predicate Suspends(w: Writer, r: Reading, back: bool) {
    !w.closed && !back && r.open && r.high
  }

  predicate Parks(w: Writer, r: Reading, back: bool) {
    !w.closed && w.peerPaused && (back || (r.open && !r.high))
  }

  /** The loop sent m frames of the job, all on turns that go. */
  ghost predicate Sends(w: Writer, t: Writer, job: Job, max: nat, readings: seq<Reading>, i: nat, back: bool, m: nat)
    requires max > 0 && job.write < |w.log|
  {
    var k := job.write;
    && m <= |Split(job.rest, max)| && |t.log| == |w.log|
    && t.log == w.log[k := Entry(w.log[k].chunk, w.log[k].frames + Split(job.rest, max)[..m], t.log[k].outcomes)]
    && t.peerPaused == w.peerPaused && t.closed == w.closed
    && forall j: nat :: j < m ==> GoesAt(w, readings, i, back, j)
  }

  /** What becomes of a job after m frames: it is answered, suspended or parked, with what is left of it. */
  ghost predicate Settles(w: Writer, t: Writer, job: Job, max: nat, r: Reading, back: bool, m: nat)
    requires max > 0 && job.write < |w.log| <= |t.log|
  {
    m <= |Split(job.rest, max)| &&
    var k, left := job.write, Split(job.rest, max)[m..];
    if left == [] then Free(t) && t.log[k].outcomes == w.log[k].outcomes + [true]
    else
      && !Goes(w, r, back)
      && t.waiting == (if Suspends(w, r, back) then Some(Job(k, Join(left))) else None)
      && t.pending == (if Parks(w, r, back) then Some(Job(k, Join(left))) else None)
      && t.log[k].outcomes == w.log[k].outcomes + if Free(t) then [false] else []
  }

  /** The loop sends its job for as long as the turns go, and settles what is left. */
  ghost predicate Loops(w: Writer, t: Writer, job: Job, max: nat, readings: seq<Reading>, back: bool)
    requires max > 0 && job.write < |w.log| <= |t.log|
  {
    exists m: nat :: Sends(w, t, job, max, readings, 0, back, m) && Settles(w, t, job, max, At(readings, m), back && m == 0, m)
  }

  lemma NoTurn(w: Writer, job: Job, max: nat, readings: seq<Reading>, i: nat, back: bool)
    requires max > 0 && job.write < |w.log| && Free(w) && (job.rest == [] || !Goes(w, At(readings, i), back))
    ensures var t := Send(w, job, max, readings, i, back);
            Sends(w, t, job, max, readings, i, back, 0) && Settles(w, t, job, max, At(readings, i), back, 0)
  {
    hide Split, Join;
    var frames := Split(job.rest, max);
    SplitJoins(job.rest, max);
    assert (frames == [] <==> job.rest == []) by { SplitEmpty(job.rest, max); }
    assert frames[..0] == [] && frames[0..] == frames && w.log[job.write].frames + [] == w.log[job.write].frames;
    assert w.log[job.write].outcomes + [] == w.log[job.write].outcomes;
  }

  lemma SplitEmpty(chunk: Chunk, max: nat)
    requires max > 0
    ensures Split(chunk, max) == [] <==> chunk == []
  {
  }

  lemma OneTurn(w: Writer, t: Writer, job: Job, max: nat, readings: seq<Reading>, i: nat, back: bool, m: nat)
    requires max > 0 && job.write < |w.log| && job.rest != [] && Goes(w, At(readings, i), back)
    requires var n := Min(max, |job.rest|);
             var w', job' := Emitted(w, job.write, job.rest[..n]), Job(job.write, job.rest[n..]);
             Sends(w', t, job', max, readings, i + 1, false, m) && Settles(w', t, job', max, At(readings, i + 1 + m), false, m)
    ensures Sends(w, t, job, max, readings, i, back, m + 1) && Settles(w, t, job, max, At(readings, i + 1 + m), false, m + 1)
  {
    hide Join;
    var n := Min(max, |job.rest|);
    var w' := Emitted(w, job.write, job.rest[..n]);
    var rest, frames := Split(job.rest[n..], max), Split(job.rest, max);
    assert frames == [job.rest[..n]] + rest;
    assert frames[..m + 1] == [job.rest[..n]] + rest[..m] && frames[m + 1..] == rest[m..];
    assert w.log[job.write].frames + frames[..m + 1] == w'.log[job.write].frames + rest[..m];
    forall j: nat | j < m + 1 ensures GoesAt(w, readings, i, back, j) {
      if j > 0 { assert GoesAt(w', readings, i + 1, false, j - 1); }
    }
  }

  /** The sending loop sends frames for as long as the turns go, and no longer. */
  lemma {:induction false} LoopStops(w: Writer, job: Job, max: nat, readings: seq<Reading>, i: nat, back: bool) returns (m: nat)
    requires max > 0 && job.write < |w.log| && Free(w)
    ensures var t := Send(w, job, max, readings, i, back);
            Sends(w, t, job, max, readings, i, back, m) && Settles(w, t, job, max, At(readings, i + m), back && m == 0, m)
    decreases |job.rest|
  {
    hide Split, Join, Sends, Settles;
    if job.rest == [] || !Goes(w, At(readings, i), back) {
      m := 0;
      NoTurn(w, job, max, readings, i, back);
    } else {
      var n := Min(max, |job.rest|);
      m := LoopStops(Emitted(w, job.write, job.rest[..n]), Job(job.write, job.rest[n..]), max, readings, i + 1, false);
      OneTurn(w, Send(w, job, max, readings, i, back), job, max, readings, i, back, m);
      m := m + 1;
    }
  }

  lemma LoopSends(w: Writer, job: Job, max: nat, readings: seq<Reading>, back: bool)
    requires max > 0 && job.write < |w.log| && Free(w)
    ensures var t := Send(w, job, max, readings, 0, back); |t.log| == |w.log| && Loops(w, t, job, max, readings, back)
  {
    hide Send, Settles;
    var m := LoopStops(w, job, max, readings, 0, back);
  }

  // ---------------------------------------------------------------------------
  // Schedules
  // ---------------------------------------------------------------------------

  function Before(script: Script): Script {
    if script == [] then [] else script[..|script| - 1]
  }

  function LastEvent(script: Script): Event {
    if script == [] then Destroy else script[|script| - 1].1
  }

  function LastReadings(script: Script): seq<Reading> {
    if script == [] then [] else script[|script| - 1].0
  }

  /** A schedule that was possible, and is not empty. */
  predicate Happened(max: nat, script: Script)
    requires max > 0
  {
    script != [] && Run(max, script).Some?
  }

  /** The two flags of the writer are what the schedule has made them. */
  ghost predicate KnowsHistory(w: Writer, script: Script) {
    && w.peerPaused == Asked(script) && w.closed == Destroyed(script)
    && (w.waiting.Some? ==> w.waiting.value.rest != [])
  }

  lemma LoopKeeps(w: Writer, job: Job, max: nat, readings: seq<Reading>, back: bool)
    requires max > 0 && job.write < |w.log| && Free(w)
    ensures var t := Send(w, job, max, readings, 0, back);
            t.peerPaused == w.peerPaused && t.closed == w.closed && (t.waiting.Some? ==> t.waiting.value.rest != [])
  {
    hide Send;
    var m := LoopStops(w, job, max, readings, 0, back);
    if m < |Split(job.rest, max)| { assert Join(Split(job.rest, max)[m..]) != [] by { JoinNonempty(Split(job.rest, max)[m..]); } }
  }

  lemma JoinNonempty(frames: seq<Chunk>)
    requires frames != [] && frames[0] != []
    ensures Join(frames) != []
  {
  }

  lemma DestroyedNext(script: Script)
    requires script != []
    ensures Destroyed(script) <==> Destroyed(Before(script)) || LastEvent(script).Destroy?
  {
    var n := |script| - 1;
    assert forall i :: 0 <= i < n ==> script[..n][i] == script[i];
    if Destroyed(Before(script)) {
      var i :| 0 <= i < n && script[..n][i].1.Destroy?;
      assert script[i].1.Destroy?;
    }
  }

  lemma {:induction false} HistoryIsKnown(max: nat, script: Script)
    requires max > 0 && Run(max, script).Some?
    ensures KnowsHistory(After(max, script), script) && Inv(After(max, script), max)
  {
    hide Send, Inv, Destroyed;
    RunInv(max, script);
    if script == [] {
      assert !Destroyed(script) by { NothingDestroyed(script); }
    } else {
      HistoryIsKnown(max, Before(script));
      DestroyedNext(script);
      var w, ev := After(max, Before(script)), LastEvent(script);
      Holds(w, max);
      match ev
      case Write(chunk) =>
        LoopKeeps(w.(log := w.log + [Entry(chunk, [], [])]), Job(|w.log|, chunk), max, LastReadings(script), false);
      case SetPeerPaused(paused) =>
        if w.pending.Some? { LoopKeeps(w.(peerPaused := paused, pending := None), w.pending.value, max, LastReadings(script), false); }
      case Drained(ok) =>
        LoopKeeps(w.(waiting := None), w.waiting.value, max, LastReadings(script), true);
      case Destroy =>
    }
  }

  lemma NothingDestroyed(script: Script)
    requires script == []
    ensures !Destroyed(script)
  {
  }

  /** A job is parked or suspended, not both, and it is that of the last write. */
  lemma Holds(w: Writer, max: nat)
    requires max > 0 && Inv(w, max)
    ensures w.pending.Some? ==> w.waiting.None? && w.pending.value.write == |w.log| - 1
    ensures w.waiting.Some? ==> w.pending.None? && w.waiting.value.write == |w.log| - 1
  {
  }

  // ---------------------------------------------------------------------------
  // What every step sends
  // ---------------------------------------------------------------------------

  /** The writer as a step's sending loop finds it: the job in hand, the flag set, a new write on the log. */
  function Holding(w: Writer, ev: Event): Writer {
    match ev
    case Write(chunk) => w.(log := w.log + [Entry(chunk, [], [])])
    case SetPeerPaused(paused) => w.(peerPaused := paused, pending := None)
    case Drained(_) => w.(waiting := None)
    case Destroy => w
  }

  function JobOf(w: Writer, ev: Event): Job {
    if ev.Write? then Job(|w.log|, ev.chunk)
    else if ev.SetPeerPaused? && w.pending.Some? then w.pending.value
    else if w.waiting.Some? then w.waiting.value
    else Job(0, [])
  }

  /** A step on a writer that is neither paused nor destroyed has something to send. */
  predicate HasWork(w: Writer, ev: Event) {
    ev.Write? || (ev.SetPeerPaused? && w.pending.Some?) || ev == Drained(true)
  }

  /**
   * In every schedule, a step that finds the peer unpaused and the writer not destroyed sends the frames of its
   * job, in order, for as long as the turns of the loop find the WebSocket OPEN, its buffer not high, and the
   * send succeeding; the first turn back from waiting is not held up by the buffer. The turn that ends the loop
   * suspends the rest if the buffer is high, and answers the write with an error otherwise; if none does, the
   * write is answered with success.
   */
  lemma TurnByTurn(max: nat, script: Script) returns (m: nat)
    requires max > 0 && Happened(max, script) && !Asked(script) && !Destroyed(script)
    requires HasWork(After(max, Before(script)), LastEvent(script))
    ensures var before, ev := After(max, Before(script)), LastEvent(script);
            var w, job, readings := Holding(before, ev), JobOf(before, ev), LastReadings(script);
            && job.write < |w.log|
            && Sends(w, After(max, script), job, max, readings, 0, ev.Drained?, m)
            && Settles(w, After(max, script), job, max, At(readings, m), ev.Drained? && m == 0, m)
  {
    hide Send, Inv, Sends, Settles, Destroyed;
    var before, ev := After(max, Before(script)), LastEvent(script);
    HistoryIsKnown(max, Before(script));
    DestroyedNext(script);
    Holds(before, max);
    m := LoopStops(Holding(before, ev), JobOf(before, ev), max, LastReadings(script), 0, ev.Drained?);
  }

  /** While the peer has asked for a pause, and once the writer is destroyed, no step sends a frame of any write. */
  lemma PausedIsSilent(max: nat, script: Script, k: nat)
    requires max > 0 && Happened(max, script) && (Asked(script) || Destroyed(script))
    ensures FramesOf(After(max, script), k) == FramesOf(After(max, Before(script)), k)
  {
    hide Send, Inv, Destroyed;
    var before, ev := After(max, Before(script)), LastEvent(script);
    HistoryIsKnown(max, Before(script));
    DestroyedNext(script);
    Holds(before, max);
    if ev.Drained? {
      var m := LoopStops(Holding(before, ev), JobOf(before, ev), max, LastReadings(script), 0, true);
      assert m > 0 ==> GoesAt(Holding(before, ev), LastReadings(script), 0, true, 0);
      assert before.log[before.waiting.value.write].frames + [] == before.log[before.waiting.value.write].frames;
    }
  }

  /** A write while the peer is paused is parked whole, unanswered; a sender that comes back from waiting parks exactly the rest. */
  lemma PausedParks(max: nat, script: Script)
    requires max > 0 && Happened(max, script) && Asked(script) && !Destroyed(script)
    ensures var before, t, ev := After(max, Before(script)), After(max, script), LastEvent(script);
            && (ev.Write? ==> t.pending == Some(Job(|before.log|, ev.chunk)) && t.log == before.log + [Entry(ev.chunk, [], [])])
            && (ev == Drained(true) ==> t.pending == before.waiting && t.waiting.None? && t.log == before.log)
  {
    hide Send, Inv, Destroyed;
    var before, ev := After(max, Before(script)), LastEvent(script);
    HistoryIsKnown(max, Before(script));
    DestroyedNext(script);
    Holds(before, max);
    if ev == Drained(true) {
      var w, job := Holding(before, ev), JobOf(before, ev);
      var m := LoopStops(w, job, max, LastReadings(script), 0, true);
      assert m > 0 ==> GoesAt(w, LastReadings(script), 0, true, 0);
      SplitJoins(job.rest, max);
      assert Split(job.rest, max)[0..] == Split(job.rest, max) && Split(job.rest, max)[..0] == [];
      assert w.log[job.write].frames + [] == w.log[job.write].frames && w.log[job.write].outcomes + [] == w.log[job.write].outcomes;
    }
  }

  /** Every turn of the loop may send: the WebSocket is OPEN, its buffer not high, and the send succeeds. */
  ghost predicate Smooth(readings: seq<Reading>) {
    forall j: nat :: At(readings, j).open && !At(readings, j).high && At(readings, j).sent
  }

  /**
   * Unpausing while nothing is in the way empties the parked job: all of its write has been sent and its callback
   * is called with success; and so it is for a new write.
   */
  lemma UnpausedSends(max: nat, script: Script)
    requires max > 0 && Happened(max, script) && !Asked(script) && !Destroyed(script) && Smooth(LastReadings(script))
    requires HasWork(After(max, Before(script)), LastEvent(script))
    ensures var t := After(max, script);
            && Free(t) && |t.log| > 0
            && var e := t.log[|t.log| - 1]; e.frames == Split(e.chunk, max) && e.outcomes == [true]
  {
    hide Send, Inv, Destroyed, Split;
    var m := TurnByTurn(max, script);
    HistoryIsKnown(max, Before(script));
    var before, ev := After(max, Before(script)), LastEvent(script);
    DestroyedNext(script);
    Holds(before, max);
    RestOfSplit(before, ev, max);
    var job := JobOf(before, ev);
    var frames, r := Split(job.rest, max), At(LastReadings(script), m);
    assert frames[..|frames|] == frames;
    assert Goes(Holding(before, ev), r, false);
  }

  /** What has been sent of a write and what is left of it make up its split. */
  lemma RestOfSplit(w: Writer, ev: Event, max: nat)
    requires max > 0 && Inv(w, max) && Possible(w, ev) && HasWork(w, ev)
    ensures var w', job := Holding(w, ev), JobOf(w, ev);
            && job.write == |w'.log| - 1 && w'.log[job.write].outcomes == []
            && w'.log[job.write].frames + Split(job.rest, max) == Split(w'.log[job.write].chunk, max)
  {
    hide Split;
    if ev.Write? { assert [] + Split(ev.chunk, max) == Split(ev.chunk, max); }
  }

  /** Destroying answers a parked write with an error; a write after that is answered so at once. */
  lemma DestroyedAnswers(max: nat, script: Script)
    requires max > 0 && Happened(max, script)
    ensures var before, t, ev := After(max, Before(script)), After(max, script), LastEvent(script);
            && (ev.Destroy? && before.pending.Some? ==> Free(t) && t.log[|t.log| - 1].outcomes == [false])
            && (ev.Write? && Destroyed(script) ==> Free(t) && t.log == before.log + [Entry(ev.chunk, [], [false])])
            && (ev == Drained(false) ==> Free(t) && t.log[|t.log| - 1].outcomes == [false])
  {
    hide Send, Destroyed, Split;
    var before, ev := After(max, Before(script)), LastEvent(script);
    HistoryIsKnown(max, Before(script));
    DestroyedNext(script);
    Holds(before, max);
    if ev.Write? {
      var log := before.log + [Entry(ev.chunk, [], [])];
      assert log[|before.log| := Entry(ev.chunk, [], [false])] == before.log + [Entry(ev.chunk, [], [false])];
      assert [] + [false] == [false];
    }
  }
}
