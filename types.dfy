/** Values exchanged between the worker and the main thread: recognised words,
    speaker segments and the per-chunk result the worker posts. */
module StreamTypes {

  datatype Option<+T> = None | Some(value: T)

  /** The `label` of a speaker segment: the string taken from the model's
      id-to-label table, or Undefined where no label was attached (JavaScript
      `undefined`, as for an id the table does not hold). */
  datatype Label = Undefined | Named(name: string)

  /** One recognised word (an entry of `transcript.chunks`): its text and its
      `timestamp` pair [t0, t1] in seconds. */
  datatype Word = Word(text: string, t0: real, t1: real)
  {
    /** The word with both timestamp ends moved by `offset` seconds. */
    function Shift(offset: real): Word
    {
      Word(text, t0 + offset, t1 + offset)
    }
  }

  /** One speaker segment produced by diarization: the model's class `id`, its
      interval [start, end] in seconds, the model's confidence and the label. */
  datatype Segment = Segment(id: int, start: real, end: real, confidence: real, speakerLabel: Label)
  {
    /** The segment with both interval ends moved by `offset` seconds. */
    function Shift(offset: real): Segment
    {
      Segment(id, start + offset, end + offset, confidence, speakerLabel)
    }
  }

  /** The result of one chunk: the transcript's word list and the speaker
      segments, either of which may be missing. */
  datatype ChunkResult = ChunkResult(transcript: Option<seq<Word>>, segments: Option<seq<Segment>>)

  /** Every word of `ws` moved by `offset`. */
  function ShiftWords(ws: seq<Word>, offset: real): seq<Word>
  {
    seq(|ws|, i requires 0 <= i < |ws| => ws[i].Shift(offset))
  }

  /** Every segment of `ss` moved by `offset`. */
  function ShiftSegments(ss: seq<Segment>, offset: real): seq<Segment>
  {
    seq(|ss|, i requires 0 <= i < |ss| => ss[i].Shift(offset))
  }
}
