/** What the transcript merge of `updateTranscript` guarantees: grouping keeps
    every word in order and only splits where the carried speaker changes,
    each word's speaker is its own first matching segment or the one carried
    from the word before, speaker-less words can only lead a call, and a
    common timestamp offset on words and segments changes nothing. */
module MergeProperties {
  import opened StreamTypes
  import opened Merge
  import Worker

  /** The tagged words a group stands for. */
  function Spread(g: Group): seq<Tagged>
  {
    seq(|g.words|, i requires 0 <= i < |g.words| => Tagged(g.words[i], g.speaker))
  }

  /** Groups flattened back into tagged words, in order. */
  function Expand(gs: seq<Group>): seq<Tagged>
    decreases |gs|
  {
    if |gs| == 0 then [] else Expand(gs[..|gs| - 1]) + Spread(gs[|gs| - 1])
  }

  /** The word lists of all groups, concatenated in order. */
  function AllWords(gs: seq<Group>): seq<string>
    decreases |gs|
  {
    if |gs| == 0 then [] else AllWords(gs[..|gs| - 1]) + gs[|gs| - 1].words
  }

  function Texts(ps: seq<Tagged>): seq<string>
  {
    seq(|ps|, i requires 0 <= i < |ps| => ps[i].text)
  }

  function WordTexts(ws: seq<Word>): seq<string>
  {
    seq(|ws|, i requires 0 <= i < |ws| => ws[i].text)
  }

  lemma ExpandSnoc(gs: seq<Group>, g: Group)
    ensures Expand(gs + [g]) == Expand(gs) + Spread(g)
  {
    assert (gs + [g])[..|gs|] == gs;
  }

  /** Extending the last group by `x` extends the flattened words by `x`. */
  lemma ExpandExtend(rest: seq<Group>, last: Group, x: Tagged)
    requires x.speaker == last.speaker
    ensures Expand(rest + [Group(x.speaker, last.words + [x.text])]) == Expand(rest + [last]) + [x]
  {
    ExpandSnoc(rest, last);
    ExpandSnoc(rest, Group(x.speaker, last.words + [x.text]));
    assert Spread(Group(x.speaker, last.words + [x.text])) == Spread(last) + [x];
  }

  /** Opening a new group for `x` extends the flattened words by `x`. */
  lemma ExpandOpen(before: seq<Group>, x: Tagged)
    ensures Expand(before + [Group(x.speaker, [x.text])]) == Expand(before) + [x]
  {
    ExpandSnoc(before, Group(x.speaker, [x.text]));
    assert Spread(Group(x.speaker, [x.text])) == [x];
  }

  /** Grouping loses, adds and reorders nothing: flattening the groups gives
      back every tagged word with its speaker. */
  lemma {:induction false} RunsExpand(ps: seq<Tagged>)
    ensures Expand(Runs(ps)) == ps
    decreases |ps|
  {
    if |ps| > 0 {
      var init := ps[..|ps| - 1];
      var x := ps[|ps| - 1];
      var before := Runs(init);
      RunsExpand(init);
      assert ps == init + [x];
      if |before| > 0 && before[|before| - 1].speaker == x.speaker {
        var last := before[|before| - 1];
        var rest := before[..|before| - 1];
        assert before == rest + [last];
        ExpandExtend(rest, last, x);
      } else {
        ExpandOpen(before, x);
      }
    }
  }

  /** No group is empty. */
  lemma {:induction false} RunsGroupsNonEmpty(ps: seq<Tagged>)
    ensures forall k :: 0 <= k < |Runs(ps)| ==> |Runs(ps)[k].words| > 0
    decreases |ps|
  {
    if |ps| > 0 {
      RunsGroupsNonEmpty(ps[..|ps| - 1]);
    }
  }

  /** Two adjacent groups never share a speaker. */
  predicate Maximal(gs: seq<Group>)
  {
    forall k :: 0 < k < |gs| ==> gs[k - 1].speaker != gs[k].speaker
  }

  /** Replacing the last group by one under the same speaker keeps groups
      maximal. */
  lemma MaximalExtend(gs: seq<Group>, g: Group)
    requires Maximal(gs) && |gs| > 0 && g.speaker == gs[|gs| - 1].speaker
    ensures Maximal(gs[..|gs| - 1] + [g])
  {
  }

  /** Appending a group under a new speaker keeps groups maximal. */
  lemma MaximalOpen(gs: seq<Group>, g: Group)
    requires Maximal(gs) && (|gs| > 0 ==> gs[|gs| - 1].speaker != g.speaker)
    ensures Maximal(gs + [g])
  {
  }

  /** Groups are maximal: two adjacent groups never share a speaker. */
  lemma {:induction false} RunsAdjacentDiffer(ps: seq<Tagged>)
    ensures forall k :: 0 < k < |Runs(ps)| ==> Runs(ps)[k - 1].speaker != Runs(ps)[k].speaker
    decreases |ps|
  {
    if |ps| > 0 {
      var x := ps[|ps| - 1];
      var before := Runs(ps[..|ps| - 1]);
      RunsAdjacentDiffer(ps[..|ps| - 1]);
      assert Maximal(before);
      if |before| > 0 && before[|before| - 1].speaker == x.speaker {
        var g := Group(x.speaker, before[|before| - 1].words + [x.text]);
        MaximalExtend(before, g);
      } else {
        MaximalOpen(before, Group(x.speaker, [x.text]));
      }
    }
  }

  /** Flattened groups as text: the concatenated group words are the texts. */
  lemma {:induction false} AllWordsExpand(gs: seq<Group>)
    ensures AllWords(gs) == Texts(Expand(gs))
    decreases |gs|
  {
    if |gs| > 0 {
      var init := gs[..|gs| - 1];
      AllWordsExpand(init);
    }
  }

  /** Every word of a call reaches the transcript exactly once and in order:
      the words of the emitted segments, concatenated, are the word texts. */
  lemma MergeKeepsWords(ws: seq<Word>, segs: seq<Segment>)
    ensures AllWords(Runs(Attribute(ws, segs))) == WordTexts(ws)
  {
    var ps := Attribute(ws, segs);
    RunsExpand(ps);
    AllWordsExpand(Runs(ps));
    AttributeTexts(ws, segs);
  }

  /** Tagging keeps every word's text in place. */
  lemma AttributeTexts(ws: seq<Word>, segs: seq<Segment>)
    ensures Texts(Attribute(ws, segs)) == WordTexts(ws)
  {
    forall i | 0 <= i < |ws|
      ensures Attribute(ws, segs)[i].text == ws[i].text
    {
      AttributeAt(ws, segs, i);
    }
  }

  /** Rendering keeps one segment per group, with the group's joined words as
      its text and a label only for a non-empty named speaker. */
  lemma {:induction false} RenderAt(gs: seq<Group>)
    ensures |Render(gs)| == |gs|
    ensures forall k :: 0 <= k < |gs| ==> Render(gs)[k] == CreateSegment(gs[k].speaker, Join(gs[k].words))
    decreases |gs|
  {
    if |gs| > 0 {
      var init := gs[..|gs| - 1];
      RenderAt(init);
      forall k | 0 <= k < |init|
        ensures init[k] == gs[k]
      {
      }
    }
  }

  /** `words[..k]` is tagged exactly as the first `k` words of the whole list:
      a word's speaker depends only on the words before it. */
  lemma {:induction false} AttributePrefix(ws: seq<Word>, segs: seq<Segment>, k: nat)
    requires k <= |ws|
    ensures Attribute(ws[..k], segs) == Attribute(ws, segs)[..k]
    decreases |ws|
  {
    if k < |ws| {
      var init := ws[..|ws| - 1];
      AttributePrefix(init, segs, k);
      assert init[..k] == ws[..k];
    } else {
      assert ws[..k] == ws;
    }
  }

  /** A word resolving to a segment is grouped under that segment's label; a
      word resolving to none keeps the speaker of the word before, and the
      first word of a call starts from no speaker (`null`). */
  lemma {:induction false} AttributeAt(ws: seq<Word>, segs: seq<Segment>, i: nat)
    requires i < |ws|
    ensures Attribute(ws, segs)[i].text == ws[i].text
    ensures Resolve(segs, ws[i]).Some? ==> Attribute(ws, segs)[i].speaker == Resolve(segs, ws[i])
    ensures Resolve(segs, ws[i]).None? && i == 0 ==> Attribute(ws, segs)[i].speaker == None
    ensures Resolve(segs, ws[i]).None? && i > 0 ==> Attribute(ws, segs)[i].speaker == Attribute(ws, segs)[i - 1].speaker
  {
    AttributePrefix(ws, segs, i + 1);
    AttributePrefix(ws, segs, i);
    AttributeStep(ws, segs, i);
    if i > 0 {
    }
  }

  /** A word has no speaker exactly when neither it nor any word before it in
      the same call resolves to a segment. */
  lemma {:induction false} NoSpeakerIffNoMatchSoFar(ws: seq<Word>, segs: seq<Segment>, i: nat)
    requires i < |ws|
    ensures Attribute(ws, segs)[i].speaker == None <==> forall j :: 0 <= j <= i ==> Resolve(segs, ws[j]).None?
  {
    AttributeAt(ws, segs, i);
    if i > 0 {
      NoSpeakerIffNoMatchSoFar(ws, segs, i - 1);
    }
  }

  /** Speaker-less words form a prefix of the tagged words. */
  predicate NoneLeads(ps: seq<Tagged>)
  {
    forall i, j :: 0 <= i < j < |ps| && ps[j].speaker == None ==> ps[i].speaker == None
  }

  lemma {:induction false} AttributeNoneLeads(ws: seq<Word>, segs: seq<Segment>)
    ensures NoneLeads(Attribute(ws, segs))
  {
    var ps := Attribute(ws, segs);
    forall i, j | 0 <= i < j < |ps| && ps[j].speaker == None
      ensures ps[i].speaker == None
    {
      NoSpeakerIffNoMatchSoFar(ws, segs, j);
      NoSpeakerIffNoMatchSoFar(ws, segs, i);
    }
  }

  /** Every group after the first has a speaker. */
  predicate LaterSpeakers(gs: seq<Group>)
  {
    forall k :: 0 < k < |gs| ==> gs[k].speaker != None
  }

  lemma NoneLeadsInit(ps: seq<Tagged>)
    requires |ps| > 0 && NoneLeads(ps)
    ensures NoneLeads(ps[..|ps| - 1])
  {
    var init := ps[..|ps| - 1];
    forall i, j | 0 <= i < j < |init| && init[j].speaker == None
      ensures init[i].speaker == None
    {
    }
  }

  lemma LaterSpeakersExtend(rest: seq<Group>, last: Group, g: Group)
    requires LaterSpeakers(rest + [last]) && g.speaker == last.speaker
    ensures LaterSpeakers(rest + [g])
  {
    assert forall k :: 0 <= k < |rest| ==> (rest + [g])[k] == (rest + [last])[k];
  }

  lemma LaterSpeakersOpen(before: seq<Group>, g: Group)
    requires LaterSpeakers(before) && (|before| == 0 || g.speaker != None)
    ensures LaterSpeakers(before + [g])
  {
    assert forall k :: 0 <= k < |before| ==> (before + [g])[k] == before[k];
  }

  /** When speaker-less words lead, only the first group can lack a speaker. */
  lemma {:induction false} RunsNoneOnlyFirst(ps: seq<Tagged>)
    requires NoneLeads(ps)
    ensures LaterSpeakers(Runs(ps))
    decreases |ps|
  {
    if |ps| > 0 {
      var init := ps[..|ps| - 1];
      var x := ps[|ps| - 1];
      var before := Runs(init);
      NoneLeadsInit(ps);
      RunsNoneOnlyFirst(init);
      if |before| > 0 && before[|before| - 1].speaker == x.speaker {
        var rest, last := before[..|before| - 1], before[|before| - 1];
        assert before == rest + [last];
        LaterSpeakersExtend(rest, last, Group(x.speaker, last.words + [x.text]));
      } else {
        if |init| > 0 {
          RunsLast(init);
          assert init[|init| - 1] == ps[|ps| - 2];
        }
        LaterSpeakersOpen(before, Group(x.speaker, [x.text]));
      }
    }
  }

  /** Only the first segment a call renders can come from words without a
      speaker, and it does exactly when the call's first word matches no
      segment; such a segment shows no label. */
  lemma {:induction false} LeadingUnmatchedUnlabelled(ws: seq<Word>, segs: seq<Segment>)
    ensures LaterSpeakers(Runs(Attribute(ws, segs)))
    ensures var gs := Runs(Attribute(ws, segs));
      |ws| > 0 ==> (gs[0].speaker == None <==> Resolve(segs, ws[0]).None?)
    ensures var gs := Runs(Attribute(ws, segs));
      |ws| > 0 && Resolve(segs, ws[0]).None? ==> Render(gs)[0].speaker == Unlabelled
  {
    var ps := Attribute(ws, segs);
    AttributeNoneLeads(ws, segs);
    RunsNoneOnlyFirst(ps);
    if |ws| > 0 {
      RunsFirst(ps);
      RenderFirst(Runs(ps));
      AttributeAt(ws, segs, 0);
    }
  }

  /** The first group's speaker is the first word's. */
  lemma {:induction false} RunsFirst(ps: seq<Tagged>)
    requires |ps| > 0
    ensures |Runs(ps)| > 0 && Runs(ps)[0].speaker == ps[0].speaker
    decreases |ps|
  {
    var init, x := ps[..|ps| - 1], ps[|ps| - 1];
    var before := Runs(init);
    if |init| == 0 {
      assert Runs(ps) == [Group(x.speaker, [x.text])];
    } else {
      RunsFirst(init);
      assert init[0] == ps[0];
      if before[|before| - 1].speaker == x.speaker {
      } else {
      }
    }
  }

  lemma {:induction false} RenderFirst(gs: seq<Group>)
    requires |gs| > 0
    ensures Render(gs)[0] == CreateSegment(gs[0].speaker, Join(gs[0].words))
    decreases |gs|
  {
    if |gs| > 1 {
      var init := gs[..|gs| - 1];
      RenderFirst(init);
      assert init[0] == gs[0];
    }
  }

  lemma MidpointShift(w: Word, offset: real)
    ensures Midpoint(w.Shift(offset)) == Midpoint(w) + offset
  {
  }

  /** Moving every segment and the probe point by the same offset finds the
      same segment. */
  lemma {:induction false} FindSpeakerShift(ss: seq<Segment>, t: real, offset: real)
    ensures FindSpeaker(ShiftSegments(ss, offset), t + offset) == FindSpeaker(ss, t)
    decreases |ss|
  {
    if |ss| > 0 {
      assert ShiftSegments(ss, offset)[1..] == ShiftSegments(ss[1..], offset);
      FindSpeakerShift(ss[1..], t, offset);
    }
  }

  lemma ResolveShift(ss: seq<Segment>, w: Word, offset: real)
    ensures Resolve(ShiftSegments(ss, offset), w.Shift(offset)) == Resolve(ss, w)
  {
    MidpointShift(w, offset);
    FindSpeakerShift(ss, Midpoint(w), offset);
  }

  /** Shifting words and segments together leaves every word's speaker as it was. */
  lemma {:induction false} AttributeShift(ws: seq<Word>, ss: seq<Segment>, offset: real)
    ensures Attribute(ShiftWords(ws, offset), ShiftSegments(ss, offset)) == Attribute(ws, ss)
    decreases |ws|
  {
    if |ws| > 0 {
      var init := ws[..|ws| - 1];
      var w := ws[|ws| - 1];
      assert ShiftWords(ws, offset)[..|ws| - 1] == ShiftWords(init, offset);
      assert ShiftWords(ws, offset)[|ws| - 1] == w.Shift(offset);
      AttributeShift(init, ss, offset);
      ResolveShift(ss, w, offset);
    }
  }

  /** The worker's alignment does not change how the main thread groups a
      chunk: the aligned words and segments merge exactly as the raw ones. */
  lemma AlignedMergeUnchanged(res: ChunkResult, offset: real)
    requires res.transcript.Some? && res.segments.Some?
    ensures var a := Worker.Align(res, offset);
      Runs(Attribute(a.transcript.value, a.segments.value)) ==
      Runs(Attribute(res.transcript.value, res.segments.value))
  {
    AttributeShift(res.transcript.value, res.segments.value, offset);
  }

  /** Segments A [0, 3], B [4, 5] and A [6, 7], and four words whose midpoints
      1, 3.5, 4.5 and 6.5 resolve to A, none, B and A. */
  const SampleSegments := [Segment(0, 0.0, 3.0, 0.9, Named("A")), Segment(1, 4.0, 5.0, 0.9, Named("B")),
                           Segment(0, 6.0, 7.0, 0.9, Named("A"))]
  const SampleWords := [Word("a", 1.0, 1.0), Word("b", 3.0, 4.0), Word("c", 4.5, 4.5), Word("d", 6.0, 7.0)]

  lemma SampleResolution()
    ensures Resolve(SampleSegments, SampleWords[0]) == Some(Named("A"))
    ensures Resolve(SampleSegments, SampleWords[1]) == None
    ensures Resolve(SampleSegments, SampleWords[2]) == Some(Named("B"))
    ensures Resolve(SampleSegments, SampleWords[3]) == Some(Named("A"))
  {
    var segs := SampleSegments;
    assert segs[1..][1..] == [segs[2]];
  }

  lemma SampleAttribution()
    ensures Attribute(SampleWords, SampleSegments) ==
      [Tagged("a", Some(Named("A"))), Tagged("b", Some(Named("A"))),
       Tagged("c", Some(Named("B"))), Tagged("d", Some(Named("A")))]
  {
    var segs, ws := SampleSegments, SampleWords;
    SampleResolution();
    AttributeAt(ws, segs, 0);
    AttributeAt(ws, segs, 1);
    AttributeAt(ws, segs, 2);
    AttributeAt(ws, segs, 3);
  }

  lemma RunsAA(x1: Tagged, x2: Tagged)
    requires x1.speaker == x2.speaker
    ensures Runs([x1, x2]) == [Group(x1.speaker, [x1.text, x2.text])]
  {
    assert [x1][..0] == [];
    assert [x1, x2][..1] == [x1];
    assert [x1.text] + [x2.text] == [x1.text, x2.text];
  }

  /** Speakers a, a, b, a group into three runs a, b, a. */
  lemma RunsABA(x1: Tagged, x2: Tagged, x3: Tagged, x4: Tagged)
    requires x1.speaker == x2.speaker == x4.speaker != x3.speaker
    ensures Runs([x1, x2, x3, x4]) ==
      [Group(x1.speaker, [x1.text, x2.text]), Group(x3.speaker, [x3.text]), Group(x1.speaker, [x4.text])]
  {
    var g := Group(x1.speaker, [x1.text, x2.text]);
    RunsAA(x1, x2);
    RunsStep([x1, x2], x3, [], g);
    assert [x1, x2] + [x3] == [x1, x2, x3];
    RunsStep([x1, x2, x3], x4, [g], Group(x3.speaker, [x3.text]));
    assert [x1, x2, x3] + [x4] == [x1, x2, x3, x4];
  }

  lemma SampleGrouping()
    ensures Runs(Attribute(SampleWords, SampleSegments)) ==
      [Group(Some(Named("A")), ["a", "b"]), Group(Some(Named("B")), ["c"]), Group(Some(Named("A")), ["d"])]
  {
    SampleAttribution();
    RunsABA(Tagged("a", Some(Named("A"))), Tagged("b", Some(Named("A"))),
            Tagged("c", Some(Named("B"))), Tagged("d", Some(Named("A"))));
  }

  lemma JoinTwo(u: string, v: string)
    ensures Join([u, v]) == u + " " + v
  {
    assert [u, v][..1] == [u];
  }

  lemma RenderThree(g1: Group, g2: Group, g3: Group)
    ensures Render([g1, g2, g3]) ==
      [CreateSegment(g1.speaker, Join(g1.words)), CreateSegment(g2.speaker, Join(g2.words)),
       CreateSegment(g3.speaker, Join(g3.words))]
  {
    var v1, v2, v3 := CreateSegment(g1.speaker, Join(g1.words)), CreateSegment(g2.speaker, Join(g2.words)),
      CreateSegment(g3.speaker, Join(g3.words));
    RenderStep([], g1);
    assert [] + [g1] == [g1];
    RenderStep([g1], g2);
    assert [g1] + [g2] == [g1, g2];
    RenderStep([g1, g2], g3);
    assert [g1, g2] + [g3] == [g1, g2, g3];
  }

  /** Resolved speakers A, (none), B, A give three segments labelled A, B, A;
      the word whose midpoint falls between segments joins the A group. */
  lemma ExampleSpeakerRuns()
    ensures Render(Runs(Attribute(SampleWords, SampleSegments))) ==
      [SegmentView(Labelled("A"), "a b"), SegmentView(Labelled("B"), "c"), SegmentView(Labelled("A"), "d")]
  {
    SampleGrouping();
    RenderThree(Group(Some(Named("A")), ["a", "b"]), Group(Some(Named("B")), ["c"]), Group(Some(Named("A")), ["d"]));
    JoinTwo("a", "b");
    assert "a" + " " + "b" == "a b";
  }

  /** Each call starts from no speaker: a chunk whose first word matches no
      segment renders that word without a label even when the previous chunk
      ended under a named speaker. */
  lemma ExampleNoCarryAcrossCalls()
    ensures
      var segs := [Segment(0, 0.0, 3.0, 0.9, Named("A"))];
      Render(Runs(Attribute([Word("a", 1.0, 1.0)], segs))) +
      Render(Runs(Attribute([Word("b", 40.0, 40.0)], segs))) ==
        [SegmentView(Labelled("A"), "a"), SegmentView(Unlabelled, "b")]
  {
  }
}
