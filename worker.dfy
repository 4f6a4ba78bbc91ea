/** The worker side of the streaming transcriber: the audio sample buffer
    (`AudioProcessor`), the single-flight chunk scheduler of `processStream`,
    the timestamp alignment of a finished chunk, the final flush of
    `stopStreaming` and the label attachment of `segment`.

    The speech-recognition and segmentation models are not modelled: what one
    inference pass produced (or that it failed) is an `Outcome` given to the
    step that completes it. Each awaited inference is split into two steps,
    "audio arrives / chunk dispatched" and "inference completes". */
module Worker {
  import opened StreamTypes

  /** An audio amplitude. The Float32 value is kept as a real. */
  type Sample = real

  /** The audio constants: samples per second, chunk length and overlap in
      seconds. */
  datatype Config = Config(sampleRate: nat, chunkDuration: nat, chunkOverlap: nat)
  {
    function ChunkSamples(): nat
    {
      chunkDuration * sampleRate
    }

    function OverlapSamples(): nat
    {
      chunkOverlap * sampleRate
    }
  }

  /** The deployed constants: 16 kHz, 30 s chunks, 5 s overlap. */
  const Reference: Config := Config(16000, 30, 5)

  function Min(a: int, b: int): int
  {
    if a <= b then a else b
  }

  /** `getNextChunk` on a buffer value: the chunk (None for `null`) and the
      buffer left behind. A chunk is taken as soon as one chunk's worth of
      samples is buffered, so it holds between `ChunkSamples()` and
      `ChunkSamples() + OverlapSamples()` samples. */
  function NextChunk(cfg: Config, buf: seq<Sample>): (r: (Option<seq<Sample>>, seq<Sample>))
    ensures r.0.None? <==> |buf| < cfg.ChunkSamples()
    ensures r.0.None? ==> r.1 == buf
    ensures r.0.Some? ==>
      var chunk := r.0.value;
      |chunk| == Min(|buf|, cfg.ChunkSamples() + cfg.OverlapSamples()) &&
      chunk == buf[..|chunk|] &&
      |r.1| == |buf| - cfg.ChunkSamples() &&
      buf == chunk[..cfg.ChunkSamples()] + r.1 &&
      chunk[cfg.ChunkSamples()..] == r.1[..|chunk| - cfg.ChunkSamples()]
  {
    var cs := cfg.ChunkSamples();
    if |buf| < cs then
      (None, buf)
    else
      var chunk := buf[..Min(|buf|, cs + cfg.OverlapSamples())];
      var rest := buf[cs..];
      assert buf == chunk[..cs] + rest;
      (Some(chunk), rest)
  }

  /** The state of the `AudioProcessor` as a value: the buffered samples, the
      busy flag `isProcessing`, the stream offset `lastChunkEnd` and the
      `currentSpeakers` table (cleared on reset, otherwise never used). */
  datatype Sched = Sched(buffer: seq<Sample>, busy: bool, offset: real, speakers: map<int, string>)

  /** The state after construction or `reset`. */
  const Initial: Sched := Sched([], false, 0.0, map[])

  /** What one inference pass on a chunk produced: the transcript's words (the
      transcript may lack them) and the raw diarization segments, or a failure
      of either model call. */
  datatype Outcome = Done(transcript: Option<seq<Word>>, diarization: seq<Segment>) | Failed(message: string)

  /** The messages the worker posts: `streaming`, `partial`, `error`, `stopped`. */
  datatype Event = Streaming | Partial(result: ChunkResult) | Error(message: string) | Stopped

  /** `model.config.id2label[id]`: the table's name for a speaker id, and
      Undefined when the table has no entry. */
  function LabelOf(id2label: map<int, string>, id: int): (r: Label)
    ensures r.Named? <==> id in id2label
    ensures r.Named? ==> r.name == id2label[id]
  {
    if id in id2label then Named(id2label[id]) else Undefined
  }

  /** The segments with their labels attached: one per segment, in order, each
      differing from its segment only in the label, looked up by its id. */
  function Labelled(ss: seq<Segment>, id2label: map<int, string>): (r: seq<Segment>)
    ensures |r| == |ss|
    ensures forall i :: 0 <= i < |ss| ==>
      r[i].(speakerLabel := ss[i].speakerLabel) == ss[i] && r[i].speakerLabel == LabelOf(id2label, ss[i].id)
  {
    seq(|ss|, i requires 0 <= i < |ss| => ss[i].(speakerLabel := LabelOf(id2label, ss[i].id)))
  }

  /** What `processAudioChunk` returns for a successful inference: the
      transcript as the model gave it, and the segments always present, one per
      diarization segment with its label attached. */
  function Inferred(transcript: Option<seq<Word>>, diarization: seq<Segment>, id2label: map<int, string>): (r: ChunkResult)
    ensures r.transcript == transcript
    ensures r.segments.Some? && |r.segments.value| == |diarization|
    ensures forall i :: 0 <= i < |diarization| ==>
      r.segments.value[i].(speakerLabel := diarization[i].speakerLabel) == diarization[i] &&
      r.segments.value[i].speakerLabel == LabelOf(id2label, diarization[i].id)
  {
    ChunkResult(transcript, Some(Labelled(diarization, id2label)))
  }

  /** The timestamp adjustment of `processStream`: `offset` is added to both
      ends of every word and every segment that is present. */
  function Align(res: ChunkResult, offset: real): (r: ChunkResult)
    ensures r.transcript.Some? <==> res.transcript.Some?
    ensures r.segments.Some? <==> res.segments.Some?
    ensures res.transcript.Some? ==>
      |r.transcript.value| == |res.transcript.value| &&
      forall i :: 0 <= i < |res.transcript.value| ==>
        var w, w' := res.transcript.value[i], r.transcript.value[i];
        w'.text == w.text && w'.t0 == w.t0 + offset && w'.t1 == w.t1 + offset
    ensures res.segments.Some? ==>
      |r.segments.value| == |res.segments.value| &&
      forall i :: 0 <= i < |res.segments.value| ==>
        var s, s' := res.segments.value[i], r.segments.value[i];
        s'.id == s.id && s'.speakerLabel == s.speakerLabel && s'.confidence == s.confidence &&
        s'.start == s.start + offset && s'.end == s.end + offset
  {
    ChunkResult(
      match res.transcript
      case None => None
      case Some(ws) => Some(ShiftWords(ws, offset)),
      match res.segments
      case None => None
      case Some(ss) => Some(ShiftSegments(ss, offset)))
  }

  /** `startStreaming`: reset, then announce streaming. */
  function Start(s: Sched): (r: (Sched, Event))
    ensures r.0.buffer == [] && !r.0.busy && r.0.offset == 0.0 && r.1 == Streaming
  {
    (Initial, Streaming)
  }

  /** The first step of `processStream`: the audio is appended; when the
      processor is busy nothing more happens; otherwise at most one chunk is
      taken, and taking one makes the processor busy. */
  function Arrive(cfg: Config, s: Sched, audio: seq<Sample>): (r: (Sched, Option<seq<Sample>>))
    ensures s.busy ==> r == (s.(buffer := s.buffer + audio), None)
    ensures r.1.Some? <==> !s.busy && |s.buffer| + |audio| >= cfg.ChunkSamples()
    ensures r.1.Some? ==> r.0.busy && (r.1, r.0.buffer) == NextChunk(cfg, s.buffer + audio)
    ensures r.1.None? ==> r.0.buffer == s.buffer + audio && r.0.busy == s.busy
    ensures r.0.offset == s.offset && r.0.speakers == s.speakers
  {
    var buf := s.buffer + audio;
    if s.busy then
      (s.(buffer := buf), None)
    else
      var next := NextChunk(cfg, buf);
      if next.0.None? then (s.(buffer := next.1), None)
      else (s.(buffer := next.1, busy := true), next.0)
  }

  /** The state change of the second step of `processStream`: the processor
      is no longer busy, and the offset advances by one chunk duration when
      the inference succeeded and stays put when it failed. */
  function Settle(cfg: Config, s: Sched, outcome: Outcome): (r: Sched)
    ensures !r.busy
    ensures r.buffer == s.buffer && r.speakers == s.speakers
    ensures outcome.Done? ==> r.offset == s.offset + cfg.chunkDuration as real
    ensures outcome.Failed? ==> r.offset == s.offset
  {
    if outcome.Done? then s.(busy := false, offset := s.offset + cfg.chunkDuration as real)
    else s.(busy := false)
  }

  /** The second step of `processStream`, once the inference resolves. On
      success the result is aligned by the offset read at that moment and a
      `partial` event carries it; on failure only an `error` event is
      posted. */
  function Finish(cfg: Config, id2label: map<int, string>, s: Sched, outcome: Outcome): (r: (Sched, Event))
    ensures r.0 == Settle(cfg, s, outcome)
    ensures outcome.Done? ==>
      r.1 == Partial(Align(Inferred(outcome.transcript, outcome.diarization, id2label), s.offset))
    ensures outcome.Failed? ==> r.1 == Error(outcome.message)
  {
    match outcome
    case Failed(message) =>
      (Settle(cfg, s, outcome), Error(message))
    case Done(transcript, diarization) =>
      (Settle(cfg, s, outcome), Partial(Align(Inferred(transcript, diarization, id2label), s.offset)))
  }

  /** `stopStreaming`, given what the inference on the remaining buffer
      produced (ignored when the buffer is empty). A non-empty buffer is
      flushed once, whole, and its result is posted without any offset; then
      the processor is reset and `stopped` is posted. A failed final
      inference is not caught: nothing is posted and nothing is reset. */
  function Stop(cfg: Config, id2label: map<int, string>, s: Sched, flush: Outcome): (r: (Sched, Option<seq<Sample>>, seq<Event>))
    ensures r.1.Some? <==> |s.buffer| > 0
    ensures r.1.Some? ==> r.1.value == s.buffer
    ensures |s.buffer| == 0 ==> r.0 == Initial && r.2 == [Stopped]
    ensures |s.buffer| > 0 && flush.Done? ==>
      r.0 == Initial && r.2 == [Partial(Inferred(flush.transcript, flush.diarization, id2label)), Stopped]
    ensures |s.buffer| > 0 && flush.Failed? ==> r.0 == s && r.2 == []
  {
    if |s.buffer| == 0 then
      (Initial, None, [Stopped])
    else
      match flush
      case Failed(_) => (s, Some(s.buffer), [])
      case Done(transcript, diarization) =>
        (Initial, Some(s.buffer), [Partial(Inferred(transcript, diarization, id2label)), Stopped])
  }

  /** The audio buffer and scheduling flags of the worker. */
  class AudioProcessor {
    const config: Config
    var buffer: seq<Sample>
    var isProcessing: bool
    var currentSpeakers: map<int, string>
    var lastChunkEnd: real

    /** The processor's fields as a value. */
    function State(): Sched
      reads this
    {
      Sched(buffer, isProcessing, lastChunkEnd, currentSpeakers)
    }

    constructor (config: Config)
      ensures this.config == config && State() == Initial
    {
      this.config := config;
      buffer := [];
      isProcessing := false;
      currentSpeakers := map[];
      lastChunkEnd := 0.0;
    }

    /** `addAudio`: the new samples go after the buffered ones. */
    method AddAudio(audioData: seq<Sample>)
      modifies this`buffer
      ensures buffer == old(buffer) + audioData
    {
      buffer := buffer + audioData;
    }

    /** `getNextChunk`. */
    method GetNextChunk() returns (chunk: Option<seq<Sample>>)
      modifies this`buffer
      ensures (chunk, buffer) == NextChunk(config, old(buffer))
    {
      var cs := config.ChunkSamples();
      if |buffer| < cs {
        return None;
      }
      chunk := Some(buffer[..Min(|buffer|, cs + config.OverlapSamples())]);
      buffer := buffer[cs..];
    }

    /** `reset`. */
    method Reset()
      modifies this
      ensures State() == Initial
    {
      buffer := [];
      isProcessing := false;
      currentSpeakers := map[];
      lastChunkEnd := 0.0;
    }
  }

  /** The label-attaching loop of `segment`: each segment gets the table's
      label for its id; nothing else about the list changes. */
  method AttachLabels(segments: seq<Segment>, id2label: map<int, string>) returns (labelled: seq<Segment>)
    ensures |labelled| == |segments|
    ensures forall i :: 0 <= i < |segments| ==>
      labelled[i].speakerLabel == LabelOf(id2label, segments[i].id) &&
      labelled[i].id == segments[i].id && labelled[i].start == segments[i].start &&
      labelled[i].end == segments[i].end && labelled[i].confidence == segments[i].confidence
  {
    labelled := segments;
    for i := 0 to |segments|
      invariant |labelled| == |segments|
      invariant forall k :: 0 <= k < i ==> labelled[k] == segments[k].(speakerLabel := LabelOf(id2label, segments[k].id))
      invariant forall k :: i <= k < |segments| ==> labelled[k] == segments[k]
    {
      labelled := labelled[i := labelled[i].(speakerLabel := LabelOf(id2label, labelled[i].id))];
    }
  }

  /** `startStreaming`. */
  method StartStreaming(p: AudioProcessor) returns (ev: Event)
    modifies p
    ensures (p.State(), ev) == Start(old(p.State()))
  {
    p.Reset();
    ev := Streaming;
  }

  /** `processStream` up to its await: returns the chunk handed to inference,
      if one was dispatched. */
  method ProcessStreamDispatch(p: AudioProcessor, chunk: seq<Sample>) returns (audioChunk: Option<seq<Sample>>)
    modifies p
    ensures (p.State(), audioChunk) == Arrive(p.config, old(p.State()), chunk)
  {
    p.AddAudio(chunk);
    if p.isProcessing {
      return None;
    }
    audioChunk := p.GetNextChunk();
    if audioChunk.None? {
      return;
    }
    p.isProcessing := true;
  }

  /** `processStream` after its await, with the inference's outcome. */
  method ProcessStreamComplete(p: AudioProcessor, id2label: map<int, string>, outcome: Outcome) returns (ev: Event)
    modifies p
    ensures (p.State(), ev) == Finish(p.config, id2label, old(p.State()), outcome)
  {
    match outcome {
      case Failed(message) =>
        ev := Error(message);
      case Done(transcript, diarization) =>
        var segments := AttachLabels(diarization, id2label);
        assert segments == Labelled(diarization, id2label);
        var timeOffset := p.lastChunkEnd;
        var words := transcript;
        if transcript.Some? {
          var ws := transcript.value;
          for i := 0 to |ws|
            invariant |ws| == |transcript.value|
            invariant forall k :: 0 <= k < |ws| ==>
              ws[k] == if k < i then transcript.value[k].Shift(timeOffset) else transcript.value[k]
          {
            ws := ws[i := ws[i].Shift(timeOffset)];
          }
          assert ws == ShiftWords(transcript.value, timeOffset);
          words := Some(ws);
        }
        // the segment list is always present, so its guard always holds
        var ss := segments;
        for i := 0 to |ss|
          invariant |ss| == |segments|
          invariant forall k :: 0 <= k < |ss| ==>
            ss[k] == if k < i then segments[k].Shift(timeOffset) else segments[k]
        {
          ss := ss[i := ss[i].Shift(timeOffset)];
        }
        assert ss == ShiftSegments(segments, timeOffset);
        p.lastChunkEnd := timeOffset + p.config.chunkDuration as real;
        ev := Partial(ChunkResult(words, Some(ss)));
    }
    p.isProcessing := false;
  }

  /** `stopStreaming`, with the outcome of the final inference pass. Returns
      the samples that pass was run on, if any, and the events posted. */
  method StopStreaming(p: AudioProcessor, id2label: map<int, string>, flush: Outcome)
    returns (flushed: Option<seq<Sample>>, events: seq<Event>)
    modifies p
    ensures (p.State(), flushed, events) == Stop(p.config, id2label, old(p.State()), flush)
  {
    flushed, events := None, [];
    if |p.buffer| > 0 {
      flushed := Some(p.buffer);
      match flush {
        case Failed(_) =>
          return;
        case Done(transcript, diarization) =>
          var segments := AttachLabels(diarization, id2label);
          assert segments == Labelled(diarization, id2label);
          events := [Partial(ChunkResult(transcript, Some(segments)))];
      }
    }
    ghost var before := p.State();
    p.Reset();
    events := events + [Stopped];
    assert events == Stop(p.config, id2label, before, flush).2;
  }
}
