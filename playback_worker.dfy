/** The playback worker `static/playbackWsdsfsdorker.js`: a FIFO of audio
    buffers drained by a `while` loop that waits for `updateend` whenever the
    SourceBuffer is busy, and a message handler that queues buffers and reports
    back to the page.

    `PlaybackWorker` specifies the handlers on a `Worker` value; the class
    `Playback` in the second module holds the worker's globals and is proved to
    perform them. */
module PlaybackWorker {
  import opened Common
  import opened MediaSink

  /** Messages the worker posts to the page (the `debug` ones are not modelled). */
  datatype Posted = Queued(size: nat) | Appended(size: nat) | AppendFailed | StreamEnded

  /** Messages the page sends. */
  datatype Inbound = Init | Append(buffer: Chunk) | End | OtherType

  /** The worker's globals; `sink` is `self.sourceBuffer` (None while null) and
      `mediaOpen` is whether `self.mediaSource` reads `open`. */
  datatype Worker = Worker(queue: seq<Chunk>, isProcessing: bool, mediaOpen: bool, sink: Option<Sink>, posted: seq<Posted>)

  /** What happens while one drain runs: whether the i-th chunk's append raises,
      and which buffers arrive during the k-th wait for `updateend`. */
  datatype Schedule = Schedule(fails: seq<bool>, arrivals: seq<seq<Chunk>>)

  /** A drain in progress, with what arrived, what was taken, and how many waits
      there were. */
  datatype Pipe = Pipe(queue: seq<Chunk>, sink: Sink, posted: seq<Posted>, arrived: seq<Chunk>, taken: seq<Chunk>, waits: nat)

  /** The reports for `xs`, the chunks taken from position `from` on. */
  function Outcomes(xs: seq<Chunk>, fails: seq<bool>, from: nat): (r: seq<Posted>)
    ensures |r| == |xs|
    decreases |xs|
  {
    if xs == [] then []
    else [if At(fails, from) then AppendFailed else Appended(|xs[0]|)] + Outcomes(xs[1..], fails, from + 1)
  }

  lemma {:induction false} OutcomesAppend(xs: seq<Chunk>, x: Chunk, fails: seq<bool>, from: nat)
    ensures Outcomes(xs + [x], fails, from)
         == Outcomes(xs, fails, from) + [if At(fails, from + |xs|) then AppendFailed else Appended(|x|)]
    decreases |xs|
  {
    if xs == [] {
      assert xs + [x] == [x];
    } else {
      assert (xs + [x])[1..] == xs[1..] + [x];
      OutcomesAppend(xs[1..], x, fails, from + 1);
    }
  }

  function QueuedAll(xs: seq<Chunk>): (r: seq<Posted>)
    ensures |r| == |xs|
    decreases |xs|
  {
    if xs == [] then [] else [Queued(|xs[0]|)] + QueuedAll(xs[1..])
  }

  lemma {:induction false} QueuedAllConcat(xs: seq<Chunk>, ys: seq<Chunk>)
    ensures QueuedAll(xs + ys) == QueuedAll(xs) + QueuedAll(ys)
    decreases |xs|
  {
    if xs == [] {
      assert xs + ys == ys;
    } else {
      assert (xs + ys)[0] == xs[0];
      assert (xs + ys)[1..] == xs[1..] + ys;
      QueuedAllConcat(xs[1..], ys);
      assert QueuedAll(xs + ys) == [Queued(|xs[0]|)] + (QueuedAll(xs[1..]) + QueuedAll(ys));
    }
  }

  /** The append reports among the posted messages, in order. */
  function Reports(ms: seq<Posted>): seq<Posted>
    decreases |ms|
  {
    if ms == [] then []
    else (if ms[0].Appended? || ms[0].AppendFailed? then [ms[0]] else []) + Reports(ms[1..])
  }

  /** The `queued` acknowledgements among the posted messages, in order. */
  function Acks(ms: seq<Posted>): seq<Posted>
    decreases |ms|
  {
    if ms == [] then [] else (if ms[0].Queued? then [ms[0]] else []) + Acks(ms[1..])
  }

  lemma {:induction false} FiltersConcat(a: seq<Posted>, b: seq<Posted>)
    ensures Reports(a + b) == Reports(a) + Reports(b)
    ensures Acks(a + b) == Acks(a) + Acks(b)
    decreases |a|
  {
    if a == [] {
      assert a + b == b;
    } else {
      assert (a + b)[0] == a[0];
      assert (a + b)[1..] == a[1..] + b;
      FiltersConcat(a[1..], b);
      var h := if a[0].Appended? || a[0].AppendFailed? then [a[0]] else [];
      assert Reports(a + b) == h + Reports(a[1..] + b);
      ConcatAssoc(h, Reports(a[1..]), Reports(b));
      var k := if a[0].Queued? then [a[0]] else [];
      assert Acks(a + b) == k + Acks(a[1..] + b);
      ConcatAssoc(k, Acks(a[1..]), Acks(b));
    }
  }

  lemma {:induction false} FiltersOfQueued(xs: seq<Chunk>)
    ensures Reports(QueuedAll(xs)) == []
    ensures Acks(QueuedAll(xs)) == QueuedAll(xs)
    decreases |xs|
  {
    if xs != [] {
      FiltersOfQueued(xs[1..]);
    }
  }

  /** The `await` at the head of a pass: if the sink is busy, wait for its
      `updateend`; the buffers arriving meanwhile are queued and acknowledged. */
  function Wait(p: Pipe, sc: Schedule): (r: Pipe)
    ensures !r.sink.updating && |r.queue| >= |p.queue| && r.taken == p.taken
  {
    if !p.sink.updating then p
    else
      var more := Arrival(sc.arrivals, p.waits);
      p.(sink := p.sink.(updating := false), queue := p.queue + more, arrived := p.arrived + more,
         posted := p.posted + QueuedAll(more), waits := p.waits + 1)
  }

  /** The rest of a pass: shift the head and append it, reporting the outcome. */
  function Take(w: Pipe, sc: Schedule): (r: Pipe)
    requires |w.queue| > 0
    ensures |r.taken| == |w.taken| + 1 && r.waits == w.waits && |r.queue| == |w.queue| - 1
  {
    var x := w.queue[0];
    var failed := At(sc.fails, |w.taken|);
    w.(queue := w.queue[1..], taken := w.taken + [x],
       sink := if failed then w.sink else w.sink.(updating := true, appended := w.sink.appended + [x]),
       posted := w.posted + [if failed then AppendFailed else Appended(|x|)])
  }

  /** One pass of `while (chunkQueue.length > 0)`. */
  function Pass(p: Pipe, sc: Schedule): (r: Pipe)
    requires |p.queue| > 0
    ensures |r.taken| == |p.taken| + 1
  {
    Take(Wait(p, sc), sc)
  }

  function Drain(p: Pipe, sc: Schedule): (r: Pipe)
    ensures r.queue == []
    decreases TotalFrom(sc.arrivals, p.waits) + |p.queue|
  {
    if p.queue == [] then p
    else
      TotalFromStep(sc.arrivals, p.waits);
      Drain(Pass(p, sc), sc)
  }

  /** The drain's bookkeeping from the start state `(q0, a0, m0)`: every chunk
      queued at the start or arriving since was taken or is still queued, in
      order; the sink received exactly the taken chunks whose append did not
      raise; every take was reported and every arrival acknowledged, in order. */
  ghost predicate Accounted(q0: seq<Chunk>, a0: seq<Chunk>, m0: seq<Posted>, sc: Schedule, p: Pipe) {
    && q0 + p.arrived == p.taken + p.queue
    && p.sink.appended == a0 + Keep(p.taken, sc.fails, 0)
    && Reports(p.posted) == Reports(m0) + Outcomes(p.taken, sc.fails, 0)
    && Acks(p.posted) == Acks(m0) + QueuedAll(p.arrived)
  }

  /** The acknowledgements after a wait: the arrivals' `queued` messages follow. */
  lemma WaitAcks(m0: seq<Posted>, posted: seq<Posted>, arrived: seq<Chunk>, more: seq<Chunk>)
    requires Acks(posted) == Acks(m0) + QueuedAll(arrived)
    ensures Acks(posted + QueuedAll(more)) == Acks(m0) + QueuedAll(arrived + more)
  {
    FiltersConcat(posted, QueuedAll(more));
    FiltersOfQueued(more);
    QueuedAllConcat(arrived, more);
    ConcatAssoc(Acks(m0), QueuedAll(arrived), QueuedAll(more));
  }

  /** A wait posts no append report. */
  lemma WaitReports(posted: seq<Posted>, more: seq<Chunk>)
    ensures Reports(posted + QueuedAll(more)) == Reports(posted)
  {
    FiltersConcat(posted, QueuedAll(more));
    FiltersOfQueued(more);
  }

  lemma WaitAccounted(q0: seq<Chunk>, a0: seq<Chunk>, m0: seq<Posted>, sc: Schedule, p: Pipe)
    requires Accounted(q0, a0, m0, sc, p)
    ensures Accounted(q0, a0, m0, sc, Wait(p, sc))
  {
    if p.sink.updating {
      var more := Arrival(sc.arrivals, p.waits);
      var r := Wait(p, sc);
      assert r.arrived == p.arrived + more && r.queue == p.queue + more && r.taken == p.taken;
      assert r.posted == p.posted + QueuedAll(more) && r.sink.appended == p.sink.appended;
      WaitAcks(m0, p.posted, p.arrived, more);
      WaitReports(p.posted, more);
      ConcatAssoc(q0, p.arrived, more);
      ConcatAssoc(p.taken, p.queue, more);
    }
  }

  lemma TakeAccounted(q0: seq<Chunk>, a0: seq<Chunk>, m0: seq<Posted>, sc: Schedule, w: Pipe)
    requires |w.queue| > 0 && Accounted(q0, a0, m0, sc, w)
    ensures Accounted(q0, a0, m0, sc, Take(w, sc))
  {
    var x := w.queue[0];
    var failed := At(sc.fails, |w.taken|);
    var report: Posted := if failed then AppendFailed else Appended(|x|);
    var tail := if failed then [] else [x];
    var r := Take(w, sc);
    assert r.queue == w.queue[1..] && r.taken == w.taken + [x] && r.arrived == w.arrived;
    assert r.posted == w.posted + [report] && r.sink.appended == w.sink.appended + tail;
    KeepAppend(w.taken, x, sc.fails, 0);
    OutcomesAppend(w.taken, x, sc.fails, 0);
    FiltersConcat(w.posted, [report]);
    assert Reports([report]) == [report];
    assert Acks([report]) == [];
    assert Acks(r.posted) == Acks(w.posted) + [];
    assert w.queue == [x] + w.queue[1..];
    ConcatAssoc(w.taken, [x], w.queue[1..]);
    ConcatAssoc(a0, Keep(w.taken, sc.fails, 0), tail);
    ConcatAssoc(Reports(m0), Outcomes(w.taken, sc.fails, 0), [report]);
  }

  lemma PassAccounted(q0: seq<Chunk>, a0: seq<Chunk>, m0: seq<Posted>, sc: Schedule, p: Pipe)
    requires |p.queue| > 0 && Accounted(q0, a0, m0, sc, p)
    ensures Accounted(q0, a0, m0, sc, Pass(p, sc))
  {
    WaitAccounted(q0, a0, m0, sc, p);
    TakeAccounted(q0, a0, m0, sc, Wait(p, sc));
  }

  lemma {:induction false} DrainAccounted(q0: seq<Chunk>, a0: seq<Chunk>, m0: seq<Posted>, sc: Schedule, p: Pipe)
    requires Accounted(q0, a0, m0, sc, p)
    ensures Accounted(q0, a0, m0, sc, Drain(p, sc))
    decreases TotalFrom(sc.arrivals, p.waits) + |p.queue|
  {
    if p.queue != [] {
      PassAccounted(q0, a0, m0, sc, p);
      TotalFromStep(sc.arrivals, p.waits);
      DrainAccounted(q0, a0, m0, sc, Pass(p, sc));
    }
  }

  function Start(q: seq<Chunk>, sink: Sink, posted: seq<Posted>): Pipe {
    Pipe(q, sink, posted, [], [], 0)
  }

  /** What one drain does, over any schedule: the queue ends empty; the sink
      received, in push order, exactly the chunks whose append did not raise
      (a subsequence of everything pushed); one report was posted per chunk, in
      the same order, and one `queued` per arrival. */
  lemma DrainDelivers(q: seq<Chunk>, sink: Sink, posted: seq<Posted>, sc: Schedule)
    ensures var r := Drain(Start(q, sink, posted), sc);
      var pushed := q + r.arrived;
      && r.queue == []
      && r.sink.appended == sink.appended + Keep(pushed, sc.fails, 0)
      && IsSubseq(Keep(pushed, sc.fails, 0), pushed)
      && Reports(r.posted) == Reports(posted) + Outcomes(pushed, sc.fails, 0)
      && Acks(r.posted) == Acks(posted) + QueuedAll(r.arrived)
  {
    var p := Start(q, sink, posted);
    assert Accounted(q, sink.appended, posted, sc, p) by {
      assert q + [] == [] + q;
      assert sink.appended + [] == sink.appended;
      assert Reports(posted) + [] == Reports(posted);
      assert Acks(posted) + [] == Acks(posted);
    }
    DrainAccounted(q, sink.appended, posted, sc, p);
    var r := Drain(p, sc);
    assert r.taken + [] == r.taken;
    KeepIsSubseq(q + r.arrived, sc.fails, 0);
  }

  /** `processQueue()`: a no-op while a drain runs, while `sourceBuffer` is null,
      or while the MediaSource is not open; otherwise one drain, after which the
      flag is clear again. */
  function ProcessQueue(w: Worker, sc: Schedule): (r: Worker)
    ensures w.isProcessing || w.sink.None? || !w.mediaOpen ==> r == w
    ensures !(w.isProcessing || w.sink.None? || !w.mediaOpen) ==> r.queue == [] && !r.isProcessing && r.sink.Some?
    ensures r.mediaOpen == w.mediaOpen && r.isProcessing == w.isProcessing
  {
    if w.isProcessing || w.sink.None? || !w.mediaOpen then w
    else
      var d := Drain(Start(w.queue, w.sink.value, w.posted), sc);
      w.(queue := d.queue, sink := Some(d.sink), posted := d.posted)
  }

  /** `self.onmessage`: `append` queues the buffer at the back, acknowledges it
      with its size and starts a drain; `end` reports the end; the rest, `init`
      included, only posts debug text. */
  function OnMessage(w: Worker, m: Inbound, sc: Schedule): (r: Worker)
    ensures m.Append? ==>
      r == ProcessQueue(w.(queue := w.queue + [m.buffer], posted := w.posted + [Queued(|m.buffer|)]), sc)
    ensures m.End? ==> r == w.(posted := w.posted + [StreamEnded])
    ensures m.Init? || m.OtherType? ==> r == w
  {
    match m
    case Append(b) => ProcessQueue(w.(queue := w.queue + [b], posted := w.posted + [Queued(|b|)]), sc)
    case End => w.(posted := w.posted + [StreamEnded])
    case _ => w
  }

  /** An `append` arriving while no drain runs and the sink is ready is played:
      it is appended last, after everything queued before it, unless its own
      append raises. */
  lemma AppendIsPlayed(w: Worker, b: Chunk)
    requires !w.isProcessing && w.sink.Some? && w.mediaOpen
    ensures var r := OnMessage(w, Append(b), Schedule([], []));
      r.queue == [] && r.sink.Some?
      && r.sink.value.appended == w.sink.value.appended + w.queue + [b]
  {
    var w1 := w.(queue := w.queue + [b], posted := w.posted + [Queued(|b|)]);
    var sc := Schedule([], []);
    DrainDelivers(w1.queue, w.sink.value, w1.posted, sc);
    var d := Drain(Start(w1.queue, w.sink.value, w1.posted), sc);
    NoArrivals(Start(w1.queue, w.sink.value, w1.posted), sc);
    assert d.arrived == [];
    assert w1.queue + d.arrived == w1.queue;
    KeepNone(w1.queue, sc.fails, 0);
    assert d.sink.appended == w.sink.value.appended + (w.queue + [b]);
    assert OnMessage(w, Append(b), sc) == ProcessQueue(w1, sc);
    assert ProcessQueue(w1, sc).sink == Some(d.sink);
  }

  lemma {:induction false} NoArrivals(p: Pipe, sc: Schedule)
    requires sc.arrivals == []
    ensures Drain(p, sc).arrived == p.arrived
    decreases |p.queue|
  {
    if p.queue != [] {
      TotalFromStep(sc.arrivals, p.waits);
      NoArrivals(Pass(p, sc), sc);
    }
  }

  lemma {:induction false} KeepNone<T>(xs: seq<T>, fails: seq<bool>, from: nat)
    requires fails == []
    ensures Keep(xs, fails, from) == xs
    decreases |xs|
  {
    if xs != [] {
      KeepNone(xs[1..], fails, from + 1);
    }
  }
}

/** The worker's globals (`chunkQueue`, `isProcessing`, `self.sourceBuffer`,
    the MediaSource state and the messages posted so far), updated in place. */
module PlaybackWorkerGlobals {
  import opened Common
  import opened MediaSink
  import opened PlaybackWorker

  class Playback {
    var chunkQueue: seq<Chunk>
    var isProcessing: bool
    var mediaOpen: bool
    var sourceBuffer: SourceBuffer?
    var posted: seq<Posted>

    function Snapshot(): Worker
      reads this, sourceBuffer
    {
      Worker(chunkQueue, isProcessing, mediaOpen,
             if sourceBuffer == null then None else Some(sourceBuffer.Value()), posted)
    }

    /** At load: `self.mediaSource` and `self.sourceBuffer` are null. */
    constructor ()
      ensures Snapshot() == Worker([], false, false, None, [])
    {
      chunkQueue, isProcessing, mediaOpen, sourceBuffer, posted := [], false, false, null, [];
    }

    method ProcessQueue(sc: Schedule)
      modifies this, sourceBuffer
      ensures sourceBuffer == old(sourceBuffer)
      ensures Snapshot() == PlaybackWorker.ProcessQueue(old(Snapshot()), sc)
    {
      if isProcessing || sourceBuffer == null || !mediaOpen {
        return;  // 'Queue waiting: no sourceBuffer or processing'
      }
      isProcessing := true;
      ghost var w0 := old(Snapshot());
      ghost var start := Start(w0.queue, w0.sink.value, w0.posted);
      ghost var arrived, taken := [], [];
      var waits, shifted := 0, 0;
      while |chunkQueue| > 0
        invariant sourceBuffer == old(sourceBuffer) && sourceBuffer != null
        invariant Drain(Pipe(chunkQueue, sourceBuffer.Value(), posted, arrived, taken, waits), sc) == Drain(start, sc)
        invariant isProcessing && mediaOpen && shifted == |taken|
        decreases TotalFrom(sc.arrivals, waits) + |chunkQueue|
      {
        ghost var before := Pipe(chunkQueue, sourceBuffer.Value(), posted, arrived, taken, waits);
        if sourceBuffer.updating {
          // await the next 'updateend'; messages handled meanwhile queue more buffers
          sourceBuffer.UpdateEnd();
          var more := Arrival(sc.arrivals, waits);
          chunkQueue := chunkQueue + more;
          arrived := arrived + more;
          posted := posted + QueuedAll(more);
          TotalFromStep(sc.arrivals, waits);
          waits := waits + 1;
        }
        var buffer := chunkQueue[0];
        chunkQueue := chunkQueue[1..];
        var ok := sourceBuffer.AppendBuffer(buffer, At(sc.fails, shifted));
        taken, shifted := taken + [buffer], shifted + 1;
        if ok {
          posted := posted + [Appended(|buffer|)];
        } else {
          posted := posted + [AppendFailed];
        }
        assert Pipe(chunkQueue, sourceBuffer.Value(), posted, arrived, taken, waits) == Pass(before, sc);
      }
      isProcessing := false;
    }

    method OnMessage(m: Inbound, sc: Schedule)
      modifies this, sourceBuffer
      ensures Snapshot() == PlaybackWorker.OnMessage(old(Snapshot()), m, sc)
    {
      match m {
        case Append(b) =>
          chunkQueue := chunkQueue + [b];
          posted := posted + [Queued(|b|)];
          ProcessQueue(sc);
        case End =>
          posted := posted + [StreamEnded];
        case _ =>
      }
    }
  }
}
