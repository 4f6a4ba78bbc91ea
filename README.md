# Streaming transcription with speaker labels: scheduler and transcript merge

The system is a browser application. It records microphone audio. A web
worker transcribes the audio in chunks and labels the speakers. The page
shows the transcript one segment per speaker turn. This project models two
parts of that system and proves properties about them.

- **The worker's stream state** (`src/worker.js`):
  - `AudioProcessor` is an append-only sample buffer. It is drained one
    chunk length at a time and keeps an overlap. It also has a busy flag and
    a running time offset.
  - `processStream` is a single-flight scheduler. It appends incoming audio.
    It dispatches at most one chunk, and only when the busy flag is clear.
    When the inference completes, it shifts every timestamp of the
    result by the running offset. It advances that offset only on success.
  - `stopStreaming` runs one final inference on the buffer when it is not
    empty, then resets. With an empty buffer no inference runs. When the
    final inference fails, nothing resets.
  - `segment` attaches speaker labels from the model's `id → label` table.
- **The page's transcript merge** (`src/main.js`):
  - `updateTranscript` takes each word's timestamp midpoint and resolves it
    to the first speaker segment whose closed interval holds it. It then
    groups consecutive words under the carried speaker.
  - `createSegmentHTML` decides whether a speaker label is shown.
  - `formatTime` turns seconds into the `m:ss` clock text.

Modules:

- `StreamTypes` (`types.dfy`): words, speaker segments, labels and chunk
  results.
- `Worker` (`worker.dfy`):
  - the scheduler as functions on a state value `Sched`;
  - the `AudioProcessor` class, whose methods are proved to move the object
    through exactly those states;
  - the method versions of `processStream` (split at its `await`),
    `startStreaming`, `stopStreaming` and the label loop.
- `WorkerProperties` (`worker_properties.dfy`): properties of whole runs,
  meaning any sequence of audio arrivals and inference completions.
- `Merge` (`merge.dfy`):
  - the merge as a reference definition: `Attribute` tags each word with its
    carried speaker, `Runs` forms maximal same-speaker groups, and `Render`
    renders them;
  - the loop of `updateTranscript`, as the method `CombineSegments`, proved
    equal to that definition;
  - the transcript element as a class that is only ever appended to.
- `MergeProperties` (`merge_properties.dfy`): what the merge guarantees, plus
  worked examples.
- `TimeFormat` (`time_format.dfy`): `formatTime`, using JavaScript's
  truncating `%`; the proof that its text reads back as the time.

### Modelling choices

- **Inference is a parameter.** An inference pass is not called. Its result
  (words and raw segments, or a failure) is an `Outcome` handed to the step
  that completes it.
- **The `await` is two steps.**
  - `Arrive` / `ProcessStreamDispatch`: audio arrives and a chunk may be
    dispatched.
  - `Finish` / `ProcessStreamComplete`: the inference resolves.
- **The audio constants are a `Config`.** The deployed values are
  `Reference` (16 kHz, 30 s chunks, 5 s overlap).
- **Samples and timestamps are `real`.**
- **A segment's `label` is a `Label`.**
  - `Named(s)` is a string from the table.
  - `Undefined` stands for an id the table lacks (JavaScript `undefined`).
  - The page's `currentSpeaker` is an `Option<Label>`, and `None` stands for
    `null`.
  - Strict `!==` becomes `!=` on these values.
- **A shown label needs a truthy speaker.** `createSegmentHTML` shows a
  label exactly when the speaker is a non-empty name. `null`, `undefined`
  and `""` are falsy.

### Where the code and its design description differ (the model follows the code)

- **A chunk can be short.** A chunk is taken as soon as
  `buffer.length >= CHUNK_SAMPLES` (`src/worker.js:42`), not at chunk plus
  overlap. So a chunk holds between one chunk and one chunk plus the overlap.
- **A failure keeps the offset.** `lastChunkEnd` advances only on a
  successful completion, because line 185 sits inside the `try`.
- **A failed stop is not caught.** The final flush of `stopStreaming` adds no
  offset. If that last inference throws, nothing catches it: nothing is
  posted and the processor is not reset (`src/worker.js:201-214`).
- **No speaker carries across calls.** `currentSpeaker` is local to one
  `updateTranscript` call, so a chunk whose first words match no segment
  renders them without a label.
- **An unmatched word stays with its group.** A word matching no segment
  joins the open group: it does not start a speaker-less one.
- **`currentSpeakers` is never used.** It is cleared on reset and is
  otherwise unused; it is kept in the state.

## Model

| member | source | states |
|---|---|---|
| Worker.NextChunk | src/worker.js:41-53 | No chunk (`null`), with the buffer unchanged, exactly when fewer than `ChunkSamples()` samples are buffered. Otherwise the chunk is the buffer's prefix of length min(len, chunk + overlap). The new buffer is the old one minus its first `ChunkSamples()` samples. The chunk's overlap tail is the head of the new buffer. |
| Worker.AudioProcessor.constructor | src/worker.js:25-30 | A new processor has an empty buffer, is not busy, has offset 0 and an empty speaker table. |
| Worker.AudioProcessor.AddAudio | src/worker.js:33-38 | The buffer becomes the old buffer followed by the new samples. Nothing else changes. |
| Worker.AudioProcessor.GetNextChunk | src/worker.js:41-53 | Returns the chunk and leaves the buffer that `NextChunk` gives for the old buffer. |
| Worker.AudioProcessor.Reset | src/worker.js:56-61 | Buffer emptied, busy flag cleared, offset zeroed, speaker table cleared. |
| Worker.Align | src/worker.js:170-183 | A missing transcript or segment list stays missing. Every present word keeps its text and has both timestamp ends moved by the offset. Every present segment keeps id, label and confidence, and has start and end moved by the offset. Counts and order are unchanged. |
| Worker.Start | src/worker.js:144-150 | `startStreaming` leaves an empty, idle processor at offset 0 and posts `streaming`. |
| Worker.StartStreaming | src/worker.js:144-150 | The method performs exactly `Start` on the processor. |
| Worker.Arrive | src/worker.js:152-165 | When busy, the audio is only appended and nothing else changes. A chunk is dispatched exactly when the processor is idle and the buffer plus the audio reach one chunk. Dispatching sets busy and takes `NextChunk` of the extended buffer. Offset and speaker table are untouched. |
| Worker.ProcessStreamDispatch | src/worker.js:152-165 | The method's new processor state and dispatched chunk are exactly `Arrive`'s. |
| Worker.Settle | src/worker.js:185-198 | After a completion the processor is idle and its buffer is unchanged. The offset grows by the chunk duration on success and is unchanged on failure. |
| Worker.Finish | src/worker.js:166-198 | The state after a completion is `Settle`'s. A success posts `partial`, with the labelled result aligned by the offset read at completion. A failure posts `error` with its message. |
| Worker.ProcessStreamComplete | src/worker.js:166-198 | The method (label loop, in-place shift loops, offset update, `finally`) performs exactly `Finish`. |
| Worker.Stop | src/worker.js:201-219 | A non-empty buffer is flushed once, whole and with no offset. After a successful flush the processor is reset and `partial` is posted, then `stopped`. An empty buffer only resets and posts `stopped`. A failed flush posts nothing and resets nothing. |
| Worker.StopStreaming | src/worker.js:201-219 | The method's state, flushed samples and events are exactly `Stop`'s. |
| Worker.AttachLabels | src/worker.js:137-139 | Same count and order. Each segment's label is the table's entry for its id (`Undefined` when the table has none). Id, start, end and confidence are unchanged. |
| Worker.LabelOf | src/worker.js:138 | `id2label[id]`: a name exactly when the table has the id, and then the table's name; `undefined` otherwise. |
| Worker.Labelled | src/worker.js:137-139 | One segment per segment, in order. Each differs from its segment only in the label, which is the table's entry for its id. |
| Worker.Inferred | src/worker.js:120-141 | The transcript as the model gave it. The segments are always present, one per diarization segment, each differing only in its label, which is the table's entry for the segment's id (`undefined` when the table has none). |
| WorkerProperties.StepOffset | src/worker.js:185 | One step moves the offset by the chunk duration exactly when it is a successful completion. |
| WorkerProperties.StepEffect | src/worker.js:152-198 | A step dispatches only when it is audio arriving at an idle processor, and the processor is then busy. The chunk is a prefix of the buffered samples, between one chunk and one chunk plus the overlap long. The buffer then loses one chunk length, or nothing if nothing was dispatched. A completion always leaves the processor idle. |
| WorkerProperties.SingleFlight | src/worker.js:154-198 | Over any run of `stream` messages and inference completions, with no stop in between, where completions only follow dispatches: chunks dispatched minus completions equals the change in the busy flag. So along such a run at most one `processStream` inference is in flight. |
| WorkerProperties.BusyOnlyBuffers | src/worker.js:154-158 | While busy, any run of audio arrivals dispatches nothing. The buffer grows by exactly the delivered samples, in order, and nothing else changes. |
| WorkerProperties.OffsetCountsSuccesses | src/worker.js:171-185 | After any run, the offset has grown by chunk duration × number of successful completions, whatever the overlap. |
| WorkerProperties.BufferIsStreamSuffix | src/worker.js:33-53 | After any run, the buffer is the whole delivered stream with the first `ChunkSamples()` samples dropped once per dispatched chunk. |
| WorkerProperties.ChunksAreWindows | src/worker.js:41-53 | The k-th dispatched chunk is the stream's window starting at sample k × `ChunkSamples()`, one chunk to one chunk plus the overlap long. So consecutive chunks repeat the overlap. |
| WorkerProperties.DispatchedWindows | src/worker.js:41-53 | `ChunksAreWindows` when the first step dispatches. |
| WorkerProperties.ThirtyFiveSeconds | src/worker.js:152-214 | Under the deployed constants, 35 s of audio in any three batches, with no completion meanwhile, dispatch exactly one chunk and leave 5 s buffered while busy. A successful stop then flushes those 5 s once and resets. |
| WorkerProperties.StopDuringInference | src/worker.js:185-219 | While a chunk is in flight, audio is only buffered. A stop then clears the busy flag and zeroes the offset without waiting, so the next audio dispatches a second chunk while the first is pending. The first's late completion then clears the busy flag under the second. On success it moves the new session's offset to one chunk duration, by which the second chunk's result is then aligned. |
| WorkerProperties.AlignRoundTrip | src/worker.js:171-183 | Aligning by an offset and then by its negation gives the result back. |
| WorkerProperties.AlignTwice | src/worker.js:171-183 | Two alignments add up to one alignment by the sum. |
| WorkerProperties.PartialAfterOffset | src/worker.js:171-183 | When the models report non-negative chunk-local times, every timestamp `partial` carries is at least the offset at completion. |
| Merge.Midpoint | src/main.js:118 | The probe time is as far from the word's end as from its start. |
| Merge.FindSpeaker | src/main.js:118-121 | `segments.find`: the index of the first segment in list order whose closed interval holds the midpoint, or none exactly when no segment holds it. |
| Merge.Resolve | src/main.js:119-124 | None exactly when no segment's closed interval holds the word's midpoint. Otherwise the label of the first segment in list order that holds it. |
| Merge.Carry | src/main.js:124-130 | A resolved speaker becomes current. Otherwise the current speaker stays. The result is `null` exactly when both are. |
| Merge.Attribute | src/main.js:116-132 | One tagged word per word (reference definition of the carried speaker). |
| Merge.Runs | src/main.js:123-138 | The grouping is empty exactly when there are no words (reference definition of maximal same-speaker runs). |
| Merge.JoinShape | src/main.js:126-137 | `join(' ')` of a non-empty list starts with the first word, ends with the last, and is one character per gap longer than the words together. |
| Merge.CreateSegment | src/main.js:93-103 | The text is kept. A label is shown exactly when the speaker is a non-empty name, and the shown label is that name. |
| Merge.Render | src/main.js:126-137 | One rendered segment per group. |
| Merge.PushWord | src/main.js:117-132 | One loop iteration. When the word resolves to a speaker other than the current one, the open text (if any) is emitted under the current speaker and the resolved speaker becomes current. An unresolved word leaves the speaker as it was. The word's text is then pushed. |
| Merge.CombineSegments | src/main.js:111-138 | The loop renders exactly `Render(Runs(Attribute(words, segments)))`. It renders nothing exactly when there are no words. |
| Merge.TranscriptView.UpdateTranscript | src/main.js:106-146 | A result lacking transcript or segments leaves the transcript unchanged. Otherwise the new segments are appended after those already shown, never replacing them. |
| MergeProperties.RunsExpand | src/main.js:123-138 | Flattening the groups gives back every tagged word with its speaker, in order. |
| MergeProperties.RunsGroupsNonEmpty | src/main.js:125-137 | No emitted group is empty. |
| MergeProperties.RunsAdjacentDiffer | src/main.js:124-130 | Adjacent groups never share a speaker. |
| MergeProperties.MergeKeepsWords | src/main.js:116-138 | The emitted segments' word lists, concatenated in order, are exactly the input word texts. |
| MergeProperties.AttributeTexts | src/main.js:132 | Every word's text is kept at its position. |
| MergeProperties.RenderAt | src/main.js:126-137 | The k-th rendered segment is group k's speaker choice with its words joined by single spaces. |
| MergeProperties.AttributePrefix | src/main.js:116-132 | A word's speaker depends only on the words before it in the same call. |
| MergeProperties.AttributeAt | src/main.js:118-132 | A word resolving to a segment takes that segment's label. A word resolving to none keeps the previous word's speaker. The first word starts from `null`. |
| MergeProperties.NoSpeakerIffNoMatchSoFar | src/main.js:113-132 | A word has no speaker exactly when neither it nor any earlier word of the call resolves to a segment. |
| MergeProperties.AttributeNoneLeads | src/main.js:113-132 | Speaker-less words form a prefix of the call's words. |
| MergeProperties.RunsNoneOnlyFirst | src/main.js:124-138 | When speaker-less words lead, every group after the first has a speaker. |
| MergeProperties.LeadingUnmatchedUnlabelled | src/main.js:113-138 | Only the first segment of a call can lack a speaker. It does exactly when the call's first word matches no segment, and then it shows no label. |
| MergeProperties.RunsFirst | src/main.js:124-133 | The first group's speaker is the first word's. |
| MergeProperties.FindSpeakerShift | src/main.js:118-121 | Shifting all segments and the probe time by one offset finds the same segment. |
| MergeProperties.AttributeShift | src/main.js:116-132 | Shifting all words and segments by one offset leaves every word's speaker as it was. |
| MergeProperties.AlignedMergeUnchanged | src/worker.js:171-183 | The worker's alignment does not change how the page groups a chunk. |
| MergeProperties.SampleResolution | src/main.js:118-121 | Midpoints 1, 3.5, 4.5, 6.5 against segments A [0,3], B [4,5], A [6,7] resolve to A, none, B, A. |
| MergeProperties.SampleAttribution | src/main.js:116-132 | In that example the unmatched word is carried under A. |
| MergeProperties.SampleGrouping | src/main.js:124-133 | Speakers A, A, B, A group into three runs A, B, A. |
| MergeProperties.ExampleSpeakerRuns | src/main.js:116-138 | That example renders "a b" labelled A, "c" labelled B, "d" labelled A. |
| MergeProperties.ExampleNoCarryAcrossCalls | src/main.js:112-138 | Two calls: a second chunk whose word matches no segment renders unlabelled, although the first ended under A. |
| TimeFormat.Truncate | src/main.js:151 | Rounds toward zero: a non-negative value lies in [r, r + 1) with r ≥ 0, a negative one in (r - 1, r] with r ≤ 0. |
| TimeFormat.Remainder60 | src/main.js:151 | JavaScript's `seconds % 60`: in [0, 60) for a non-negative dividend, in (-60, 0] for a negative one, and the dividend minus it is 60 times the truncated quotient. |
| TimeFormat.Clock | src/main.js:150-151 | For non-negative seconds, minutes ≥ 0, remaining seconds in 0..59, and minutes × 60 + remaining = ⌊seconds⌋. |
| TimeFormat.Decimal | src/main.js:152 | `toString` of a natural number: at least one digit, one digit exactly below 10, no leading zero. |
| TimeFormat.ParseDecimalOf | src/main.js:152 | The digits of a number read back as that number. |
| TimeFormat.PadStart | src/main.js:152 | `padStart`: length max(len, width), the original string as the suffix, and the fill character before it. |
| TimeFormat.PaddedSeconds | src/main.js:152 | Seconds below 60 pad to exactly two digits that read back as the seconds. |
| TimeFormat.IntString | src/main.js:152 | `toString` of an integer: for n ≥ 0, digits that read back as n; for n < 0, a minus sign followed by digits that read back as -n. |
| TimeFormat.ClockText | src/main.js:152 | For minutes ≥ 0 and seconds in 0..59, the text is digits, a colon and two digits that read back as the minutes and seconds. |
| TimeFormat.FormatTime | src/main.js:149-153 | For seconds ≥ 0, the text is minutes, ":" and two digits. The digits read back as m and r with 0 ≤ r < 60 and m × 60 + r = ⌊seconds⌋. |
| TimeFormat.FormatTimeExamples | src/main.js:149-153 | 65.5 shows as "1:05" and 754.9 as "12:34". |

## Left out

- The speech-recognition and diarization models are not part of this model.
  - This covers `PipelineSingeton.getInstance`, `load`, `processAudioChunk`,
    and the processor and model calls inside `segment`.
  - They are foreign library calls. Their results are the `Outcome`
    parameter of the completing step.
- Message plumbing is left out: the worker's `postMessage`, its message
  dispatch switch, and the page's `worker.onmessage`. The posted messages are
  returned as `Event` values instead.
- Device and UI code is left out: WebGPU detection, microphone capture,
  `AudioContext` wiring, recording controls, progress display, `showError`,
  scrolling and the HTML template text. Only the label shown / not shown
  choice of `createSegmentHTML` is modelled.
- Real asynchrony is left out.
  - The `await` of `processStream` is split into a dispatch step and a
    completion step, taken one at a time. Interleavings inside a step are
    not modelled.
  - `Stop` is a single atomic step, and the awaits of `stopStreaming`
    (`src/worker.js:205-206`) are not split: the flush outcome is a
    parameter.
  - `StopDuringInference` shows what a stop made while a chunk is in flight
    does to the state. The reset (`src/worker.js:56-61`) clears that chunk's
    busy flag, and the next audio dispatches again. The late completion
    (`src/worker.js:185`, `src/worker.js:197`) then overwrites the new
    session's offset and busy flag.
  - The flush inference of `stopStreaming` does not check `isProcessing`
    (`src/worker.js:204-206`). It can therefore run in parallel with an
    in-flight chunk, and the two can complete in either order. The model
    does not capture this.
  - A new `startStream` and its audio (`src/main.js:201-204`) can arrive
    while the flush is pending. The late `reset()` (`src/worker.js:214`)
    then wipes that new session's buffer, busy flag and offset, and
    `stopped` is posted after it started. The model does not capture this.
  - `SingleFlight` covers only runs without a stop.
- Float32 samples and IEEE-754 timestamp arithmetic are left out. Samples
  and timestamps are exact reals.
- The quadratic reallocation of `addAudio` is left out. The buffer is a
  sequence value, so only its contents are modelled.
- Worker.ProcessStreamComplete: it builds the shifted word and segment lists
  as new sequences rather than mutating the result objects in place. Nobody
  else holds those objects before they are posted.
- A transcript that lacks its `chunks` list (`result.transcript.chunks`
  falsy) and `updateTranscript(null)` are left out. A missing word list is a
  missing transcript (`None`), and a result is always a value.
- Word timestamps that are `null` (as the recogniser can give for a final
  word) are left out. Every word has two real timestamps.
- TimeFormat.FormatTime: the read-back is proved only for non-negative seconds.
  `Clock` and `FormatTime` are defined for every real, with JavaScript's
  truncating `%`, but the read-back property is stated for times ≥ 0.
