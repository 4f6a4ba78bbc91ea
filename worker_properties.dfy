/** Properties of the worker's scheduler over whole runs: any sequence of
    audio arrivals and inference completions, one at a time, as the worker's
    single thread of control sees them. */
module WorkerProperties {
  import opened StreamTypes
  import opened Worker

  /** One event the worker reacts to: a batch of audio (a `stream` message) or
      the resolution of the inference in flight. */
  datatype Step = Audio(samples: seq<Sample>) | Resolve(outcome: Outcome)

  /** The new state after one step and the chunk it dispatched, if any. A
      completion changes the state as `Finish` does (`Settle`). */
  function Apply(cfg: Config, s: Sched, step: Step): (Sched, Option<seq<Sample>>)
  {
    match step
    case Audio(a) => Arrive(cfg, s, a)
    case Resolve(o) => (Settle(cfg, s, o), None)
  }

  /** The samples one step delivers. */
  function StepFed(step: Step): seq<Sample>
  {
    if step.Audio? then step.samples else []
  }

  /** 1 for a successful inference completion, 0 for any other step. */
  function StepSuccess(step: Step): nat
  {
    if step.Resolve? && step.outcome.Done? then 1 else 0
  }

  /** What one step does to the offset. */
  lemma StepOffset(cfg: Config, s: Sched, step: Step)
    ensures Apply(cfg, s, step).0.offset ==
      s.offset + (cfg.chunkDuration * StepSuccess(step)) as real
  {
  }

  /** What one step does to the buffer and the busy flag. */
  lemma StepEffect(cfg: Config, s: Sched, step: Step)
    ensures var a := Apply(cfg, s, step);
      var cs := cfg.ChunkSamples();
      (a.1.Some? ==>
         (step.Audio? && !s.busy && a.0.busy &&
          cs <= |a.1.value| <= cs + cfg.OverlapSamples() &&
          a.1.value == (s.buffer + StepFed(step))[..|a.1.value|])) &&
      (if a.1.Some? then cs else 0) <= |s.buffer + StepFed(step)| &&
      a.0.buffer == (s.buffer + StepFed(step))[(if a.1.Some? then cs else 0)..] &&
      (step.Resolve? ==> !a.0.busy) &&
      (step.Audio? && a.1.None? ==> a.0.busy == s.busy)
  {
    match step
    case Audio(samples) =>
      var r := Arrive(cfg, s, samples);
      if r.1.Some? {
        var n := NextChunk(cfg, s.buffer + samples);
        assert n.0 == r.1;
      }
    case Resolve(o) =>
  }

  /** The state after all of `steps` and the chunks dispatched, in order. */
  function Run(cfg: Config, s: Sched, steps: seq<Step>): (Sched, seq<seq<Sample>>)
    decreases |steps|
  {
    if |steps| == 0 then
      (s, [])
    else
      var first := Apply(cfg, s, steps[0]);
      var rest := Run(cfg, first.0, steps[1..]);
      (rest.0, (if first.1.Some? then [first.1.value] else []) + rest.1)
  }

  /** Every sample delivered by the audio steps, in arrival order. */
  function Fed(steps: seq<Step>): seq<Sample>
    decreases |steps|
  {
    if |steps| == 0 then []
    else StepFed(steps[0]) + Fed(steps[1..])
  }

  /** The number of inference completions. */
  function Completions(steps: seq<Step>): nat
    decreases |steps|
  {
    if |steps| == 0 then 0
    else (if steps[0].Resolve? then 1 else 0) + Completions(steps[1..])
  }

  /** The number of successful inference completions. */
  function Successes(steps: seq<Step>): nat
    decreases |steps|
  {
    if |steps| == 0 then 0
    else StepSuccess(steps[0]) + Successes(steps[1..])
  }

  /** A completion only ever resolves an inference that was dispatched: it
      happens while the processor is busy. */
  predicate Sequential(cfg: Config, s: Sched, steps: seq<Step>)
    decreases |steps|
  {
    |steps| == 0 ||
    ((steps[0].Resolve? ==> s.busy) &&
     Sequential(cfg, Apply(cfg, s, steps[0]).0, steps[1..]))
  }

  /** Single flight: the chunks dispatched and not yet resolved number exactly
      one while the processor is busy and none otherwise. */
  lemma {:induction false} SingleFlight(cfg: Config, s: Sched, steps: seq<Step>)
    requires Sequential(cfg, s, steps)
    ensures var r := Run(cfg, s, steps);
      (if s.busy then 1 else 0) + |r.1| == Completions(steps) + (if r.0.busy then 1 else 0)
    decreases |steps|
  {
    if |steps| > 0 {
      SingleFlight(cfg, Apply(cfg, s, steps[0]).0, steps[1..]);
    }
  }

  /** While busy, arriving audio only accumulates: no chunk is dispatched and
      every sample is kept, in order. */
  lemma {:induction false} BusyOnlyBuffers(cfg: Config, s: Sched, steps: seq<Step>)
    requires s.busy
    requires forall i :: 0 <= i < |steps| ==> steps[i].Audio?
    ensures var r := Run(cfg, s, steps);
      r.1 == [] && r.0 == s.(buffer := s.buffer + Fed(steps))
    decreases |steps|
  {
    if |steps| > 0 {
      var s1 := Apply(cfg, s, steps[0]).0;
      BusyOnlyBuffers(cfg, s1, steps[1..]);
      assert s1.buffer + Fed(steps[1..]) == s.buffer + Fed(steps);
    }
  }

  /** The stream offset is advanced by one chunk duration per successful
      completion and by nothing else, whatever the overlap. */
  lemma {:induction false} OffsetCountsSuccesses(cfg: Config, s: Sched, steps: seq<Step>)
    ensures Run(cfg, s, steps).0.offset ==
      s.offset + (cfg.chunkDuration * Successes(steps)) as real
    decreases |steps|
  {
    if |steps| > 0 {
      var first := Apply(cfg, s, steps[0]);
      StepOffset(cfg, s, steps[0]);
      OffsetCountsSuccesses(cfg, first.0, steps[1..]);
      AddChunks(s.offset, cfg.chunkDuration, StepSuccess(steps[0]), Successes(steps[1..]));
    }
  }

  lemma AddChunks(o: real, d: nat, b: nat, m: nat)
    ensures (o + (d * b) as real) + (d * m) as real == o + (d * (b + m)) as real
  {
    assert d * (b + m) == d * b + d * m;
  }

  lemma DropDrop(xs: seq<Sample>, ys: seq<Sample>, m: nat, n: nat)
    requires m <= |xs|
    requires n <= |xs[m..] + ys|
    ensures (xs[m..] + ys)[n..] == (xs + ys)[m + n..]
  {
  }

  /** Dropping one more chunk from the front of a stream suffix. */
  lemma DrainOneMore(xs: seq<Sample>, ys: seq<Sample>, cs: nat, n: nat, rest: seq<Sample>)
    requires cs <= |xs|
    requires cs * n <= |xs[cs..] + ys| && rest == (xs[cs..] + ys)[cs * n..]
    ensures cs * (1 + n) <= |xs + ys| && rest == (xs + ys)[cs * (1 + n)..]
  {
    DropDrop(xs, ys, cs, cs * n);
    assert cs + cs * n == cs * (1 + n);
  }

  /** The buffer is always the whole stream of samples received, with a prefix
      of one chunk length per dispatched chunk removed: samples are never
      reordered, changed or lost, and the overlap is not counted twice. */
  lemma {:induction false} BufferIsStreamSuffix(cfg: Config, s: Sched, steps: seq<Step>)
    ensures var r := Run(cfg, s, steps);
      cfg.ChunkSamples() * |r.1| <= |s.buffer + Fed(steps)| &&
      r.0.buffer == (s.buffer + Fed(steps))[cfg.ChunkSamples() * |r.1|..]
    decreases |steps|
  {
    if |steps| > 0 {
      var cs := cfg.ChunkSamples();
      var first := Apply(cfg, s, steps[0]);
      var fed := StepFed(steps[0]);
      var rest := Run(cfg, first.0, steps[1..]);
      var all := Run(cfg, s, steps);
      assert all.0 == rest.0;
      FedCons(steps);
      Associate(s.buffer, fed, Fed(steps[1..]));
      StepEffect(cfg, s, steps[0]);
      BufferIsStreamSuffix(cfg, first.0, steps[1..]);
      if first.1.Some? {
        assert |all.1| == 1 + |rest.1|;
        DrainOneMore(s.buffer + fed, Fed(steps[1..]), cs, |rest.1|, rest.0.buffer);
      } else {
        assert all.1 == rest.1;
      }
    }
  }

  /** A window of a stream suffix is a window of the stream, one chunk further on. */
  lemma WindowOneMore(cfg: Config, xs: seq<Sample>, ys: seq<Sample>, k: nat, w: seq<Sample>)
    requires cfg.ChunkSamples() <= |xs| && WindowAt(cfg, xs[cfg.ChunkSamples()..] + ys, w, k)
    ensures WindowAt(cfg, xs + ys, w, k + 1)
  {
    var cs := cfg.ChunkSamples();
    assert cs * (k + 1) == cs + cs * k;
    assert forall i :: 0 <= i < |w| ==> w[i] == (xs + ys)[cs + cs * k + i];
  }

  /** A chunk cut from the head of the buffer is the stream's first window. */
  lemma WindowAtStart(cfg: Config, xs: seq<Sample>, ys: seq<Sample>, w: seq<Sample>)
    requires cfg.ChunkSamples() <= |w| <= cfg.ChunkSamples() + cfg.OverlapSamples()
    requires |w| <= |xs| && w == xs[..|w|]
    ensures WindowAt(cfg, xs + ys, w, 0)
  {
  }

  /** A step that dispatches nothing appends what it delivers to the buffer. */
  lemma QuietBuffer(cfg: Config, s: Sched, step: Step)
    requires Apply(cfg, s, step).1.None?
    ensures Apply(cfg, s, step).0.buffer == s.buffer + StepFed(step)
  {
    if step.Resolve? {
      assert s.buffer + [] == s.buffer;
    }
  }

  /** A first step that dispatches nothing keeps the whole stream buffered. */
  lemma QuietStep(cfg: Config, s: Sched, steps: seq<Step>)
    requires |steps| > 0 && Apply(cfg, s, steps[0]).1.None?
    ensures var first := Apply(cfg, s, steps[0]);
      Run(cfg, s, steps).1 == Run(cfg, first.0, steps[1..]).1 &&
      s.buffer + Fed(steps) == first.0.buffer + Fed(steps[1..])
  {
    var first := Apply(cfg, s, steps[0]);
    var rest := Run(cfg, first.0, steps[1..]);
    assert [] + rest.1 == rest.1;
    QuietFed(cfg, s, steps, first.0);
  }

  lemma QuietFed(cfg: Config, s: Sched, steps: seq<Step>, next: Sched)
    requires |steps| > 0 && Apply(cfg, s, steps[0]).1.None?
    requires next == Apply(cfg, s, steps[0]).0
    ensures s.buffer + Fed(steps) == next.buffer + Fed(steps[1..])
  {
    QuietBuffer(cfg, s, steps[0]);
    FedCons(steps);
    Associate(s.buffer, StepFed(steps[0]), Fed(steps[1..]));
  }

  lemma FedCons(steps: seq<Step>)
    requires |steps| > 0
    ensures Fed(steps) == StepFed(steps[0]) + Fed(steps[1..])
  {
  }

  lemma Associate(a: seq<Sample>, b: seq<Sample>, c: seq<Sample>)
    ensures a + (b + c) == (a + b) + c
  {
  }

  /** `chunk` is the window of `stream` that starts at sample
      k * ChunkSamples() and holds at least one chunk and at most one chunk
      plus the overlap. */
  predicate WindowAt(cfg: Config, stream: seq<Sample>, chunk: seq<Sample>, k: nat)
  {
    var start := cfg.ChunkSamples() * k;
    cfg.ChunkSamples() <= |chunk| <= cfg.ChunkSamples() + cfg.OverlapSamples() &&
    start + |chunk| <= |stream| &&
    chunk == stream[start..start + |chunk|]
  }

  /** The k-th dispatched chunk is the k-th window of the stream: chunks start
      one chunk length apart and each repeats the overlap that the next one
      begins with. */
  lemma {:induction false} ChunksAreWindows(cfg: Config, s: Sched, steps: seq<Step>, k: nat)
    requires k < |Run(cfg, s, steps).1|
    ensures WindowAt(cfg, s.buffer + Fed(steps), Run(cfg, s, steps).1[k], k)
    decreases |steps|, 1
  {
    var first := Apply(cfg, s, steps[0]);
    if first.1.Some? {
      DispatchedWindows(cfg, s, steps, k);
    } else {
      QuietStep(cfg, s, steps);
      ChunksAreWindows(cfg, first.0, steps[1..], k);
    }
  }

  /** A first step that dispatches a chunk: the chunk heads the list and is
      a prefix of what was buffered, and the buffer loses one chunk length. */
  lemma LoudStep(cfg: Config, s: Sched, steps: seq<Step>)
    requires |steps| > 0 && Apply(cfg, s, steps[0]).1.Some?
    ensures var first := Apply(cfg, s, steps[0]);
      var xs := s.buffer + StepFed(steps[0]);
      var chunk := first.1.value;
      Run(cfg, s, steps).1 == [chunk] + Run(cfg, first.0, steps[1..]).1 &&
      s.buffer + Fed(steps) == xs + Fed(steps[1..]) &&
      cfg.ChunkSamples() <= |chunk| <= cfg.ChunkSamples() + cfg.OverlapSamples() &&
      |chunk| <= |xs| && chunk == xs[..|chunk|] &&
      cfg.ChunkSamples() <= |xs| && first.0.buffer == xs[cfg.ChunkSamples()..]
  {
    StepEffect(cfg, s, steps[0]);
  }

  /** ChunksAreWindows when the first step dispatches a chunk. */
  lemma {:induction false} DispatchedWindows(cfg: Config, s: Sched, steps: seq<Step>, k: nat)
    requires |steps| > 0 && Apply(cfg, s, steps[0]).1.Some?
    requires k < |Run(cfg, s, steps).1|
    ensures WindowAt(cfg, s.buffer + Fed(steps), Run(cfg, s, steps).1[k], k)
    decreases |steps|, 0
  {
    var first := Apply(cfg, s, steps[0]);
    var xs, ys := s.buffer + StepFed(steps[0]), Fed(steps[1..]);
    var chunks, later := Run(cfg, s, steps).1, Run(cfg, first.0, steps[1..]).1;
    LoudStep(cfg, s, steps);
    if k == 0 {
      assert chunks[0] == first.1.value;
      WindowAtStart(cfg, xs, ys, first.1.value);
    } else {
      assert chunks[k] == later[k - 1];
      ChunksAreWindows(cfg, first.0, steps[1..], k - 1);
      WindowOneMore(cfg, xs, ys, k - 1, later[k - 1]);
    }
  }

  /** 35 seconds of audio in three batches of any sizes, with no inference
      finishing meanwhile, dispatch exactly one chunk and leave 5 seconds
      buffered; stopping then flushes those 5 seconds once and resets. */
  lemma ThirtyFiveSeconds(a1: seq<Sample>, a2: seq<Sample>, a3: seq<Sample>,
                          id2label: map<int, string>, flush: Outcome)
    requires |a1| + |a2| + |a3| == 35 * 16000
    ensures var r := Run(Reference, Initial, [Audio(a1), Audio(a2), Audio(a3)]);
      |r.1| == 1 && r.0.busy && |r.0.buffer| == 5 * 16000 &&
      (flush.Done? ==>
        var stop := Stop(Reference, id2label, r.0, flush);
        stop.1 == Some(r.0.buffer) && stop.0 == Initial && |stop.2| == 2)
  {
    var steps := [Audio(a1), Audio(a2), Audio(a3)];
    var s1 := Arrive(Reference, Initial, a1);
    var s2 := Arrive(Reference, s1.0, a2);
    var s3 := Arrive(Reference, s2.0, a3);
    assert steps[1..] == [Audio(a2), Audio(a3)];
    assert steps[1..][1..] == [Audio(a3)];
    assert Fed(steps[1..][1..]) == a3;
    assert Fed(steps[1..]) == a2 + a3;
    assert Fed(steps) == a1 + a2 + a3;
    var r := Run(Reference, Initial, steps);
    assert Run(Reference, s2.0, steps[1..][1..]).0 == s3.0;
    assert Run(Reference, s1.0, steps[1..]).0 == s3.0;
    assert r.0 == s3.0;
    assert Sequential(Reference, s2.0, steps[1..][1..]);
    assert Sequential(Reference, s1.0, steps[1..]);
    SingleFlight(Reference, Initial, steps);
    BufferIsStreamSuffix(Reference, Initial, steps);
    assert |r.1| == (if s3.0.busy then 1 else 0);
  }

  /** A stop while a chunk is still in flight does not wait for it. While
      busy, audio is only buffered; after the stop clears the busy flag, the
      same audio dispatches a second chunk while the first is pending. The
      first's late completion then clears the busy flag under the second and,
      on success, moves the new session's offset to one chunk duration, by
      which the second chunk's result is then aligned. */
  lemma StopDuringInference(cfg: Config, id2label: map<int, string>, s: Sched, flush: Outcome,
                            audio: seq<Sample>, late: Outcome, second: Outcome)
    requires s.busy && (|s.buffer| == 0 || flush.Done?)
    requires |audio| >= cfg.ChunkSamples()
    ensures var stopped := Stop(cfg, id2label, s, flush).0;
      var next := Arrive(cfg, stopped, audio);
      var after := Settle(cfg, next.0, late);
      Arrive(cfg, s, audio).1.None? &&
      !stopped.busy && stopped.offset == 0.0 &&
      next.1.Some? && next.0.busy &&
      !after.busy &&
      (late.Done? && second.Done? ==>
        after.offset == cfg.chunkDuration as real &&
        Finish(cfg, id2label, after, second).1 ==
          Partial(Align(Inferred(second.transcript, second.diarization, id2label), cfg.chunkDuration as real)))
  {
  }

  /** Aligning by an offset and then by its negation gives the result back. */
  lemma AlignRoundTrip(res: ChunkResult, offset: real)
    ensures Align(Align(res, offset), -offset) == res
  {
    var back := Align(Align(res, offset), -offset);
    if res.transcript.Some? {
      assert back.transcript.value == res.transcript.value;
    }
    if res.segments.Some? {
      assert back.segments.value == res.segments.value;
    }
  }

  /** Aligning twice shifts by the sum of the offsets: a second alignment
      of the same result is a double shift. */
  lemma AlignTwice(res: ChunkResult, a: real, b: real)
    ensures Align(Align(res, a), b) == Align(res, a + b)
  {
    var twice := Align(Align(res, a), b);
    if res.transcript.Some? {
      assert twice.transcript.value == Align(res, a + b).transcript.value;
    }
    if res.segments.Some? {
      assert twice.segments.value == Align(res, a + b).segments.value;
    }
  }

  /** A completed chunk's timestamps are not earlier than the offset at its
      completion when the models report non-negative chunk-local times. */
  lemma PartialAfterOffset(cfg: Config, id2label: map<int, string>, s: Sched,
                           transcript: Option<seq<Word>>, diarization: seq<Segment>)
    requires transcript.Some? ==> forall w :: w in transcript.value ==> 0.0 <= w.t0 && 0.0 <= w.t1
    requires forall g :: g in diarization ==> 0.0 <= g.start && 0.0 <= g.end
    ensures var ev := Finish(cfg, id2label, s, Done(transcript, diarization)).1;
      ev.Partial? &&
      (ev.result.transcript.Some? ==> forall w :: w in ev.result.transcript.value ==> s.offset <= w.t0 && s.offset <= w.t1) &&
      ev.result.segments.Some? &&
      forall g :: g in ev.result.segments.value ==> s.offset <= g.start && s.offset <= g.end
  {
    var ev := Finish(cfg, id2label, s, Done(transcript, diarization)).1;
    var labelled := Labelled(diarization, id2label);
    forall g | g in ev.result.segments.value
      ensures s.offset <= g.start && s.offset <= g.end
    {
      var i :| 0 <= i < |ev.result.segments.value| && ev.result.segments.value[i] == g;
      assert diarization[i] in diarization;
    }
    if transcript.Some? {
      forall w | w in ev.result.transcript.value
        ensures s.offset <= w.t0 && s.offset <= w.t1
      {
        var i :| 0 <= i < |ev.result.transcript.value| && ev.result.transcript.value[i] == w;
        assert transcript.value[i] in transcript.value;
      }
    }
  }
}
