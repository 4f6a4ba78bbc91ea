/** The main thread's transcript merge (`updateTranscript`, `createSegmentHTML`):
    every word is attributed to the first speaker segment whose closed
    interval holds the word's midpoint, and consecutive words are grouped
    while the carried speaker stays the same. The page's HTML is modelled by
    the choice it makes per segment: a speaker label shown or not, and the
    segment's text. */
module Merge {
  import opened StreamTypes

  /** `(chunk.timestamp[0] + chunk.timestamp[1]) / 2`: the time as far from
      the word's end as from its start. */
  function Midpoint(w: Word): (r: real)
    ensures r - w.t0 == w.t1 - r
  {
    (w.t0 + w.t1) / 2.0
  }

  /** `timestamp >= seg.start && timestamp <= seg.end`. */
  predicate Covers(seg: Segment, t: real)
  {
    seg.start <= t && t <= seg.end
  }

  /** `segments.find(...)` as an index: the first segment in list order whose
      closed interval holds `t`, or None when no segment does. */
  function FindSpeaker(segs: seq<Segment>, t: real): (r: Option<nat>)
    ensures r.Some? ==>
      r.value < |segs| && Covers(segs[r.value], t) &&
      forall j :: 0 <= j < r.value ==> !Covers(segs[j], t)
    ensures r.None? ==> forall j :: 0 <= j < |segs| ==> !Covers(segs[j], t)
  {
    if |segs| == 0 then None
    else if Covers(segs[0], t) then Some(0)
    else match FindSpeaker(segs[1..], t)
      case None => None
      case Some(k) => Some(k + 1)
  }

  /** The label of the segment a word's midpoint resolves to: None exactly
      when no segment holds the midpoint, otherwise the label of the first
      segment that does. */
  function Resolve(segs: seq<Segment>, w: Word): (r: Option<Label>)
    ensures r.None? <==> forall j :: 0 <= j < |segs| ==> !Covers(segs[j], Midpoint(w))
    ensures r.Some? ==>
      (exists k :: 0 <= k < |segs| && Covers(segs[k], Midpoint(w)) &&
        (forall j :: 0 <= j < k ==> !Covers(segs[j], Midpoint(w))) && r.value == segs[k].speakerLabel)
  {
    match FindSpeaker(segs, Midpoint(w))
    case None => None
    case Some(k) => Some(segs[k].speakerLabel)
  }

  /** A word's text with the speaker it is grouped under: the value of
      `currentSpeaker` when its text is pushed, None standing for `null`. */
  datatype Tagged = Tagged(text: string, speaker: Option<Label>)

  /** The speaker `currentSpeaker` holds after a word: the word's own resolved
      label if it has one, the previous speaker otherwise. */
  function Carry(previous: Option<Label>, resolved: Option<Label>): (r: Option<Label>)
    ensures resolved.Some? ==> r == resolved
    ensures r != resolved ==> r == previous
    ensures r.None? <==> previous.None? && resolved.None?
  {
    if resolved.Some? then resolved else previous
  }

  /** The words of one call tagged with their carried speaker: a word that
      resolves to a segment takes that segment's label, a word that resolves to
      none keeps the previous word's speaker, and the call starts from none. */
  function Attribute(ws: seq<Word>, segs: seq<Segment>): (r: seq<Tagged>)
    ensures |r| == |ws|
    decreases |ws|
  {
    if |ws| == 0 then []
    else
      var before := Attribute(ws[..|ws| - 1], segs);
      var w := ws[|ws| - 1];
      var previous := if |before| == 0 then None else before[|before| - 1].speaker;
      before + [Tagged(w.text, Carry(previous, Resolve(segs, w)))]
  }

  /** A transcript segment before rendering: a speaker and its words. */
  datatype Group = Group(speaker: Option<Label>, words: seq<string>)

  /** The run-length grouping of tagged words: maximal runs of consecutive
      words under the same speaker. */
  function Runs(ps: seq<Tagged>): (r: seq<Group>)
    ensures |ps| == 0 <==> |r| == 0
    decreases |ps|
  {
    if |ps| == 0 then []
    else
      var before := Runs(ps[..|ps| - 1]);
      var x := ps[|ps| - 1];
      if |before| > 0 && before[|before| - 1].speaker == x.speaker then
        before[..|before| - 1] + [Group(x.speaker, before[|before| - 1].words + [x.text])]
      else
        before + [Group(x.speaker, [x.text])]
  }

  /** `currentText.join(' ')`. */
  function Join(ws: seq<string>): string
    decreases |ws|
  {
    if |ws| == 0 then ""
    else if |ws| == 1 then ws[0]
    else Join(ws[..|ws| - 1]) + " " + ws[|ws| - 1]
  }

  /** The number of characters in all the words together. */
  function TotalLength(ws: seq<string>): nat
    decreases |ws|
  {
    if |ws| == 0 then 0 else TotalLength(ws[..|ws| - 1]) + |ws[|ws| - 1]|
  }

  /** The joined text is the words in order with one space between
      neighbours: it starts with the first word, ends with the last, and is
      one character per gap longer than the words together. */
  lemma {:induction false} JoinShape(ws: seq<string>)
    requires |ws| > 0
    ensures var r := Join(ws);
      |r| == TotalLength(ws) + |ws| - 1 &&
      ws[0] <= r && r[|r| - |ws[|ws| - 1]|..] == ws[|ws| - 1]
    decreases |ws|
  {
    if |ws| > 1 {
      var init := ws[..|ws| - 1];
      JoinShape(init);
      assert init[0] == ws[0];
    }
  }

  /** Whether a rendered segment shows a speaker label. */
  datatype SpeakerTag = Labelled(name: string) | Unlabelled

  /** One rendered transcript segment. */
  datatype Rendered = SegmentView(speaker: SpeakerTag, text: string)

  /** `createSegmentHTML`: a label is shown exactly when the speaker is a
      non-empty string; `null`, `undefined` and "" are falsy and show none. */
  function CreateSegment(speaker: Option<Label>, text: string): (r: Rendered)
    ensures r.text == text
    ensures r.speaker.Labelled? <==> speaker.Some? && speaker.value.Named? && speaker.value.name != ""
    ensures r.speaker.Labelled? ==> speaker == Some(Named(r.speaker.name))
  {
    match speaker
    case Some(Named(name)) => if name != "" then SegmentView(Labelled(name), text) else SegmentView(Unlabelled, text)
    case _ => SegmentView(Unlabelled, text)
  }

  /** Every group rendered, in order. */
  function Render(gs: seq<Group>): (r: seq<Rendered>)
    ensures |r| == |gs|
    decreases |gs|
  {
    if |gs| == 0 then []
    else Render(gs[..|gs| - 1]) + [CreateSegment(gs[|gs| - 1].speaker, Join(gs[|gs| - 1].words))]
  }

  lemma AttributeStep(ws: seq<Word>, segs: seq<Segment>, i: nat)
    requires i < |ws|
    ensures var before := Attribute(ws[..i], segs);
      Attribute(ws[..i + 1], segs) ==
        before + [Tagged(ws[i].text, Carry(if i == 0 then None else before[i - 1].speaker, Resolve(segs, ws[i])))]
  {
    assert ws[..i + 1][..i] == ws[..i];
  }

  lemma RunsStep(ps: seq<Tagged>, x: Tagged, groups: seq<Group>, g: Group)
    requires Runs(ps) == groups + [g]
    ensures Runs(ps + [x]) ==
      if x.speaker == g.speaker then groups + [Group(g.speaker, g.words + [x.text])]
      else groups + [g, Group(x.speaker, [x.text])]
  {
    assert (ps + [x])[..|ps|] == ps;
    assert (groups + [g])[..|groups|] == groups;
  }

  /** The groups a loop state stands for: those closed so far, then the open
      group when it holds any words. */
  ghost function Pending(groups: seq<Group>, current: Option<Label>, text: seq<string>): seq<Group>
  {
    if text == [] then groups else groups + [Group(current, text)]
  }

  /** One word of the loop on tagged words: the groups closed so far and the
      open group, after `x` is pushed under the speaker the word resolves to. */
  lemma {:induction false} LoopStep(ps: seq<Tagged>, x: Tagged, groups: seq<Group>, current: Option<Label>, text: seq<string>, resolved: Option<Label>)
    requires Runs(ps) == Pending(groups, current, text)
    requires ps == [] <==> text == []
    requires ps != [] ==> current == ps[|ps| - 1].speaker
    requires x.speaker == Carry(current, resolved)
    ensures var flushed := resolved.Some? && resolved != current && |text| > 0;
      Runs(ps + [x]) ==
        Pending(if flushed then groups + [Group(current, text)] else groups,
                x.speaker, (if flushed then [] else text) + [x.text])
  {
    if ps == [] {
      assert [x][..0] == [];
      assert ps + [x] == [x];
      assert [] + [x.text] == [x.text];
    } else {
      RunsStep(ps, x, groups, Group(current, text));
      assert [] + [x.text] == [x.text];
      assert groups + [Group(current, text), Group(x.speaker, [x.text])] ==
        (groups + [Group(current, text)]) + [Group(x.speaker, [x.text])];
    }
  }

  /** The last group's speaker is the last word's. */
  lemma RunsLast(ps: seq<Tagged>)
    requires |ps| > 0
    ensures Runs(ps)[|Runs(ps)| - 1].speaker == ps[|ps| - 1].speaker
  {
  }

  /** The loop's state after the first `i` words: the words tagged so far and
      the groups they form, split into those closed and the open one. */
  ghost predicate Inv(words: seq<Word>, segments: seq<Segment>, i: nat, tagged: seq<Tagged>,
                      groups: seq<Group>, current: Option<Label>, text: seq<string>)
  {
    i <= |words| &&
    tagged == Attribute(words[..i], segments) &&
    Runs(tagged) == Pending(groups, current, text) &&
    (tagged == [] <==> text == []) &&
    (tagged == [] ==> current == None)
  }

  /** One word of the loop: pushing word `i` under the speaker it resolves
      to, after closing the open group when that speaker is a different one,
      keeps the loop's state in step with `Runs(Attribute(...))`. */
  lemma Advance(words: seq<Word>, segments: seq<Segment>, i: nat, tagged: seq<Tagged>,
                groups: seq<Group>, current: Option<Label>, text: seq<string>)
    requires i < |words| && Inv(words, segments, i, tagged, groups, current, text)
    ensures var resolved := Resolve(segments, words[i]);
      var flushed := resolved.Some? && resolved != current && |text| > 0;
      Inv(words, segments, i + 1, tagged + [Tagged(words[i].text, Carry(current, resolved))],
          if flushed then groups + [Group(current, text)] else groups,
          Carry(current, resolved), (if flushed then [] else text) + [words[i].text])
  {
    var resolved := Resolve(segments, words[i]);
    var x := Tagged(words[i].text, Carry(current, resolved));
    if i > 0 {
      RunsLast(tagged);
    }
    AttributeStep(words, segments, i);
    LoopStep(tagged, x, groups, current, text, resolved);
  }

  lemma RenderStep(groups: seq<Group>, g: Group)
    ensures Render(groups + [g]) == Render(groups) + [CreateSegment(g.speaker, Join(g.words))]
  {
    assert (groups + [g])[..|groups|] == groups;
  }

  /** One iteration of the loop of `updateTranscript` for `word`: when the
      word resolves to a speaker other than the current one, the open text is
      emitted under the current speaker (if there is any text) and the
      resolved speaker becomes current; the word's text is then pushed. */
  method PushWord(segments: seq<Segment>, word: Word, currentSpeaker: Option<Label>, currentText: seq<string>)
    returns (emitted: Option<Rendered>, speaker: Option<Label>, text: seq<string>)
    ensures var resolved := Resolve(segments, word);
      var flushed := resolved.Some? && resolved != currentSpeaker && |currentText| > 0;
      emitted == (if flushed then Some(CreateSegment(currentSpeaker, Join(currentText))) else None) &&
      speaker == Carry(currentSpeaker, resolved) &&
      text == (if flushed then [] else currentText) + [word.text]
  {
    emitted, speaker, text := None, currentSpeaker, currentText;
    var timestamp := Midpoint(word);
    var found := FindSpeaker(segments, timestamp);
    if found.Some? && Some(segments[found.value].speakerLabel) != speaker {
      if |text| > 0 {
        emitted := Some(CreateSegment(speaker, Join(text)));
        text := [];
      }
      speaker := Some(segments[found.value].speakerLabel);
    }
    text := text + [word.text];
  }

  /** The loop of `updateTranscript`: the segments it renders for one
      result's words and speaker segments. */
  method CombineSegments(words: seq<Word>, segments: seq<Segment>) returns (html: seq<Rendered>)
    ensures html == Render(Runs(Attribute(words, segments)))
    ensures |html| == 0 <==> |words| == 0
  {
    html := [];
    var currentSpeaker: Option<Label> := None;
    var currentText: seq<string> := [];
    ghost var tagged: seq<Tagged> := [];
    ghost var groups: seq<Group> := [];
    for i := 0 to |words|
      invariant Inv(words, segments, i, tagged, groups, currentSpeaker, currentText)
      invariant html == Render(groups)
    {
      Advance(words, segments, i, tagged, groups, currentSpeaker, currentText);
      var emitted, speaker, text := PushWord(segments, words[i], currentSpeaker, currentText);
      if emitted.Some? {
        RenderStep(groups, Group(currentSpeaker, currentText));
        html := html + [emitted.value];
        groups := groups + [Group(currentSpeaker, currentText)];
      }
      tagged := tagged + [Tagged(words[i].text, speaker)];
      currentSpeaker, currentText := speaker, text;
    }
    assert words[..|words|] == words;
    if |currentText| > 0 {
      RenderStep(groups, Group(currentSpeaker, currentText));
      html := html + [CreateSegment(currentSpeaker, Join(currentText))];
      groups := groups + [Group(currentSpeaker, currentText)];
    }
  }

  /** The transcript element: the segments shown so far. */
  class TranscriptView {
    var shown: seq<Rendered>

    constructor ()
      ensures shown == []
    {
      shown := [];
    }

    /** `updateTranscript`: a result lacking its transcript or its segments is
      ignored; otherwise the new segments are appended after those already
      shown. */
    method UpdateTranscript(result: ChunkResult)
      modifies this
      ensures result.transcript.Some? && result.segments.Some? ==>
        shown == old(shown) + Render(Runs(Attribute(result.transcript.value, result.segments.value)))
      ensures result.transcript.None? || result.segments.None? ==> shown == old(shown)
    {
      if result.transcript.None? || result.segments.None? {
        return;
      }
      var html := CombineSegments(result.transcript.value, result.segments.value);
      if |html| > 0 {
        shown := shown + html;
      }
    }
  }
}
