/**
 * The transcription service: rebuilding speaker segments from a diarized,
 * word-level speech-to-text response, and annotating every segment with the
 * probability that its text was AI-generated.
 */
module Transcription {
  import opened Wrappers
  import opened Strings

  /**
   * A word's `speaker` as JavaScript sees it: missing (`undefined`), `null`,
   * or a label. Strict inequality `!==` tells all three apart.
   */
  datatype SpeakerId = Undefined | Null | Label(name: string)

  /** One word of the speech-to-text response. */
  datatype Word = Word(text: string, speaker: SpeakerId, start: real, end: real)

  /** `ai_probability`: not yet set, or set to a number or to `null`. */
  datatype Score = Unscored | Scored(probability: Option<real>)

  /** One speaker segment; `start` is `null` for a leading run of `null`-speaker words. */
  datatype Segment = Segment(speaker: SpeakerId, text: string, start: Option<real>, end: real, aiProbability: Score)

  /**
   * A transcription object: its optional `words` and `segments` arrays, and
   * every other field of the response, which the service copies along unread.
   */
  datatype Transcription = Transcription(words: Option<seq<Word>>, segments: Option<seq<Segment>>, otherFields: map<string, string>)

  /** `transcription.words ?? []`. */
  function WordsOf(t: Transcription): seq<Word> {
    t.words.GetOr([])
  }

  // ---------------------------------------------------------------------------
  // Speaker runs: the reference partition of a word list
  // ---------------------------------------------------------------------------

  /** The words of the runs, concatenated in order. */
  function Flatten(rs: seq<seq<Word>>): seq<Word>
    decreases |rs|
  {
    if |rs| == 0 then [] else Flatten(rs[..|rs| - 1]) + rs[|rs| - 1]
  }

  /** Every word of `run` has the speaker of its first word. */
  predicate Uniform(run: seq<Word>)
    requires |run| > 0
  {
    forall k :: 0 <= k < |run| ==> run[k].speaker == run[0].speaker
  }

  /** No run is empty, each has one speaker, and neighbouring runs have different speakers. */
  predicate MaximalRuns(rs: seq<seq<Word>>) {
    && (forall i :: 0 <= i < |rs| ==> |rs[i]| > 0 && Uniform(rs[i]))
    && (forall i :: 0 <= i < |rs| - 1 ==> rs[i][0].speaker != rs[i + 1][0].speaker)
  }

  /** `rs` splits `ws` into maximal runs of consecutive words with the same speaker. */
  predicate IsRunPartition(ws: seq<Word>, rs: seq<seq<Word>>) {
    Flatten(rs) == ws && MaximalRuns(rs)
  }

  /**
   * Adds word `w` after the runs `rs`: it joins the last run when it has
   * that run's speaker and opens a new run otherwise.
   */
  function Extend(rs: seq<seq<Word>>, w: Word): (rs': seq<seq<Word>>)
    requires forall i :: 0 <= i < |rs| ==> |rs[i]| > 0
    ensures forall i :: 0 <= i < |rs'| ==> |rs'[i]| > 0
    ensures |rs'| > 0
  {
    if |rs| > 0 && rs[|rs| - 1][0].speaker == w.speaker then rs[..|rs| - 1] + [rs[|rs| - 1] + [w]]
    else rs + [[w]]
  }

  /** The speaker runs of `ws`, built word by word with `Extend`. */
  function Runs(ws: seq<Word>): (rs: seq<seq<Word>>)
    ensures forall i :: 0 <= i < |rs| ==> |rs[i]| > 0
    ensures |rs| == 0 <==> |ws| == 0
    decreases |ws|
  {
    if |ws| == 0 then [] else Extend(Runs(ws[..|ws| - 1]), ws[|ws| - 1])
  }

  lemma RunsSnoc(p: seq<Word>, w: Word)
    ensures Runs(p + [w]) == Extend(Runs(p), w)
  {
    assert (p + [w])[..|p|] == p;
  }

  lemma FlattenSnoc(init: seq<seq<Word>>, last: seq<Word>)
    ensures Flatten(init + [last]) == Flatten(init) + last
  {
    assert (init + [last])[..|init|] == init;
  }

  /** `Extend` appends exactly the new word to the flattened runs. */
  lemma ExtendFlatten(rs: seq<seq<Word>>, w: Word)
    requires forall i :: 0 <= i < |rs| ==> |rs[i]| > 0
    ensures Flatten(Extend(rs, w)) == Flatten(rs) + [w]
  {
    var rs' := Extend(rs, w);
    if |rs| > 0 && rs[|rs| - 1][0].speaker == w.speaker {
      var init, last := rs[..|rs| - 1], rs[|rs| - 1];
      assert rs == init + [last];
      assert rs' == init + [last + [w]];
      calc {
        Flatten(rs');
        { FlattenSnoc(init, last + [w]); }
        Flatten(init) + (last + [w]);
        (Flatten(init) + last) + [w];
        { FlattenSnoc(init, last); }
        Flatten(rs) + [w];
      }
    } else {
      assert rs' == rs + [[w]];
      FlattenSnoc(rs, [w]);
    }
  }

  /** `Extend` keeps the runs maximal. */
  lemma ExtendMaximal(rs: seq<seq<Word>>, w: Word)
    requires MaximalRuns(rs)
    ensures MaximalRuns(Extend(rs, w))
  {
    var rs' := Extend(rs, w);
    if |rs| > 0 && rs[|rs| - 1][0].speaker == w.speaker {
      var m := |rs|;
      assert Uniform(rs'[m - 1]) by { assert Uniform(rs[m - 1]); }
      assert forall i :: 0 <= i < m ==> rs'[i][0] == rs[i][0];
    } else {
      assert forall i :: 0 <= i < |rs| ==> rs'[i] == rs[i];
    }
  }

  /** `Runs` is a partition of the words into maximal equal-speaker runs. */
  lemma {:induction false} RunsArePartition(ws: seq<Word>)
    ensures IsRunPartition(ws, Runs(ws))
    decreases |ws|
  {
    if |ws| > 0 {
      var p: seq<Word>, w: Word := ws[..|ws| - 1], ws[|ws| - 1];
      assert ws == p + [w];
      RunsArePartition(p);
      ExtendFlatten(Runs(p), w);
      ExtendMaximal(Runs(p), w);
    }
  }

  /** A partition of a non-empty word list ends with a run holding the list's last word. */
  lemma PartitionLast(ws: seq<Word>, rs: seq<seq<Word>>)
    requires IsRunPartition(ws, rs) && |ws| > 0
    ensures |rs| > 0
    ensures var last := rs[|rs| - 1];
      Flatten(rs[..|rs| - 1]) + last == ws && last[|last| - 1] == ws[|ws| - 1]
  {
    assert |rs| > 0;
    assert rs == rs[..|rs| - 1] + [rs[|rs| - 1]];
    FlattenSnoc(rs[..|rs| - 1], rs[|rs| - 1]);
  }

  /** Dropping the common last element of two equal concatenations. */
  lemma DropLast<T>(p: seq<T>, w: T, front: seq<T>, last: seq<T>)
    requires p + [w] == front + last && |last| > 0
    ensures p == front + last[..|last| - 1]
  {
    assert last == last[..|last| - 1] + [last[|last| - 1]];
    assert p + [w] == (front + last[..|last| - 1]) + [last[|last| - 1]];
    assert (p + [w])[..|p|] == p;
    assert ((front + last[..|last| - 1]) + [last[|last| - 1]])[..|p|] == front + last[..|last| - 1];
  }

  /** Removing the last word of a partition of `p + [w]` leaves a partition of `p`, which `w` extends back. */
  lemma ShrinkPartition(p: seq<Word>, w: Word, rs: seq<seq<Word>>) returns (rs0: seq<seq<Word>>)
    requires IsRunPartition(p + [w], rs)
    ensures IsRunPartition(p, rs0) && rs == Extend(rs0, w)
  {
    PartitionLast(p + [w], rs);
    var m := |rs|;
    var init, last := rs[..m - 1], rs[m - 1];
    assert rs == init + [last];
    DropLast(p, w, Flatten(init), last);
    if |last| == 1 {
      rs0 := DropSingletonRun(p, w, rs);
    } else {
      rs0 := ShortenLastRun(p, w, rs);
    }
  }

  /** The last run is just `[w]`: dropping it leaves a partition of `p`. */
  lemma DropSingletonRun(p: seq<Word>, w: Word, rs: seq<seq<Word>>) returns (rs0: seq<seq<Word>>)
    requires MaximalRuns(rs) && |rs| > 0 && rs[|rs| - 1] == [w]
    requires p == Flatten(rs[..|rs| - 1])
    ensures IsRunPartition(p, rs0) && rs == Extend(rs0, w)
  {
    var m := |rs|;
    rs0 := rs[..m - 1];
    assert forall i :: 0 <= i < m - 1 ==> rs0[i] == rs[i];
    if m > 1 {
      assert rs0[m - 2][0].speaker != w.speaker by {
        assert rs[m - 2][0].speaker != rs[m - 1][0].speaker;
      }
    }
    assert rs == rs0 + [[w]];
  }

  /** The last run is longer than `[w]`: shortening it by `w` leaves a partition of `p`. */
  lemma ShortenLastRun(p: seq<Word>, w: Word, rs: seq<seq<Word>>) returns (rs0: seq<seq<Word>>)
    requires MaximalRuns(rs) && |rs| > 0
    requires |rs[|rs| - 1]| > 1 && rs[|rs| - 1][|rs[|rs| - 1]| - 1] == w
    requires p == Flatten(rs[..|rs| - 1]) + rs[|rs| - 1][..|rs[|rs| - 1]| - 1]
    ensures IsRunPartition(p, rs0) && rs == Extend(rs0, w)
  {
    var m := |rs|;
    var init, last := rs[..m - 1], rs[m - 1];
    var shorter := last[..|last| - 1];
    rs0 := init + [shorter];
    FlattenSnoc(init, shorter);
    assert Uniform(last);
    assert w.speaker == last[0].speaker;
    assert Uniform(shorter);
    assert forall i :: 0 <= i < m - 1 ==> rs0[i] == rs[i];
    assert rs0[m - 1][0] == rs[m - 1][0];
    assert MaximalRuns(rs0);
    assert rs0[..m - 1] == init;
    assert last == shorter + [w];
    assert rs == init + [shorter + [w]];
  }

  /** The partition into maximal equal-speaker runs is unique: it is `Runs`. */
  lemma {:induction false} RunsUnique(ws: seq<Word>, rs: seq<seq<Word>>)
    requires IsRunPartition(ws, rs)
    ensures rs == Runs(ws)
    decreases |ws|
  {
    if |ws| > 0 {
      var p: seq<Word>, w: Word := ws[..|ws| - 1], ws[|ws| - 1];
      assert ws == p + [w];
      var rs0 := ShrinkPartition(p, w, rs);
      RunsUnique(p, rs0);
      RunsSnoc(p, w);
    }
  }

  /** The number of neighbouring word pairs whose speakers differ. */
  function Changes(ws: seq<Word>): nat
    decreases |ws|
  {
    if |ws| < 2 then 0
    else Changes(ws[..|ws| - 1]) + (if ws[|ws| - 2].speaker != ws[|ws| - 1].speaker then 1 else 0)
  }

  /** A non-empty word list has one run more than it has speaker changes. */
  lemma {:induction false} RunCount(ws: seq<Word>)
    requires |ws| > 0
    ensures |Runs(ws)| == Changes(ws) + 1
    decreases |ws|
  {
    if |ws| > 1 {
      var p: seq<Word>, w: Word := ws[..|ws| - 1], ws[|ws| - 1];
      assert ws == p + [w];
      RunCount(p);
      var rs := Runs(p);
      RunsArePartition(p);
      PartitionLast(p, rs);
      var last := rs[|rs| - 1];
      assert last[|last| - 1].speaker == last[0].speaker by { assert Uniform(last); }
      assert p[|p| - 1] == ws[|ws| - 2];
      RunsSnoc(p, w);
      assert Changes(ws) == Changes(p) + (if ws[|ws| - 2].speaker != w.speaker then 1 else 0);
      if last[0].speaker == w.speaker {
        assert |Extend(rs, w)| == |rs|;
      } else {
        assert |Extend(rs, w)| == |rs| + 1;
      }
    }
  }

  /** The first word of the runs is the first word of the list. */
  lemma {:induction false} FlattenHead(rs: seq<seq<Word>>)
    requires |rs| > 0 && |rs[0]| > 0
    ensures |Flatten(rs)| > 0 && Flatten(rs)[0] == rs[0][0]
    decreases |rs|
  {
    if |rs| > 1 {
      FlattenHead(rs[..|rs| - 1]);
    }
  }

  // ---------------------------------------------------------------------------
  // Segments of a word list
  // ---------------------------------------------------------------------------

  /** The texts of the words of a run, in order. */
  function Texts(run: seq<Word>): (ts: seq<string>)
    ensures |ts| == |run|
  {
    seq(|run|, k requires 0 <= k < |run| => run[k].text)
  }

  /**
   * The start of the segment of run `i`. The first run keeps the initial
   * `null` when its speaker is `null`, because that run never differs from
   * the initial speaker and so never records its start.
   */
  function StartOf(rs: seq<seq<Word>>, i: int): Option<real>
    requires 0 <= i < |rs| && |rs[0]| > 0 && |rs[i]| > 0
  {
    if i == 0 && rs[0][0].speaker == Null then None else Some(rs[i][0].start)
  }

  /**
   * The segment of run `i`: its speaker, its words joined by single spaces,
   * and an end that is the start of the next run's first word, or `lastEnd`
   * for the final run.
   */
  function SegmentOfRun(rs: seq<seq<Word>>, i: int, lastEnd: real): Segment
    requires 0 <= i < |rs|
    requires forall j :: 0 <= j < |rs| ==> |rs[j]| > 0
  {
    Segment(rs[i][0].speaker, Join(Texts(rs[i]), " "), StartOf(rs, i),
            if i + 1 < |rs| then rs[i + 1][0].start else lastEnd, Unscored)
  }

  /** The segments of every run but the last, whose ends are already known. */
  function ClosedSegments(rs: seq<seq<Word>>): (segs: seq<Segment>)
    requires |rs| > 0
    requires forall j :: 0 <= j < |rs| ==> |rs[j]| > 0
    ensures |segs| == |rs| - 1
  {
    seq(|rs| - 1, j requires 0 <= j < |rs| - 1 => SegmentOfRun(rs, j, 0.0))
  }

  /** The segments of a word list, one per speaker run; the last ends at the last word's end. */
  function NormalizedSegments(ws: seq<Word>): seq<Segment> {
    if |ws| == 0 then []
    else
      var rs := Runs(ws);
      seq(|rs|, i requires 0 <= i < |rs| => SegmentOfRun(rs, i, ws[|ws| - 1].end))
  }

  /** What `normalizeTranscription` returns for `t`. */
  function Normalized(t: Transcription): Transcription {
    if t.segments.Some? then t else t.(segments := Some(NormalizedSegments(WordsOf(t))))
  }

  /**
   * One segment per maximal equal-speaker run, whatever partition into such
   * runs one starts from: segment `i` has the speaker of run `i` and its
   * text is the words of run `i` joined by single spaces, so the segments
   * together carry every word once and in order.
   */
  lemma SegmentsFollowMaximalRuns(ws: seq<Word>, rs: seq<seq<Word>>)
    requires IsRunPartition(ws, rs)
    ensures |NormalizedSegments(ws)| == |rs|
    ensures forall i :: 0 <= i < |rs| ==>
      NormalizedSegments(ws)[i].speaker == rs[i][0].speaker
      && NormalizedSegments(ws)[i].text == Join(Texts(rs[i]), " ")
  {
    RunsUnique(ws, rs);
  }

  /**
   * Times of the segments: each non-final segment ends where the next one
   * starts, which is the start of the first word of the next speaker run;
   * the final one ends at the last word's end, and the first starts at the
   * first word's start unless that word's speaker is `null`.
   */
  lemma SegmentBoundaries(ws: seq<Word>)
    requires |ws| > 0
    ensures var segs := NormalizedSegments(ws);
      && |segs| > 0
      && segs[0].start == (if ws[0].speaker == Null then None else Some(ws[0].start))
      && (forall i :: 0 < i < |segs| ==> segs[i].start == Some(segs[i - 1].end))
      && (forall i :: 0 < i < |segs| ==>
            segs[i - 1].end == Runs(ws)[i][0].start && segs[i].start == Some(Runs(ws)[i][0].start))
      && segs[|segs| - 1].end == ws[|ws| - 1].end
  {
    OuterSegmentTimes(ws);
    var segs := NormalizedSegments(ws);
    forall i | 0 < i < |segs|
      ensures segs[i - 1].end == Runs(ws)[i][0].start && segs[i].start == Some(Runs(ws)[i][0].start)
    {
      SegmentLink(ws, i);
    }
  }

  /** The first segment starts at the first word (unless its speaker is `null`); the last ends at the last word. */
  lemma OuterSegmentTimes(ws: seq<Word>)
    requires |ws| > 0
    ensures var segs := NormalizedSegments(ws);
      && |segs| > 0
      && segs[0].start == (if ws[0].speaker == Null then None else Some(ws[0].start))
      && segs[|segs| - 1].end == ws[|ws| - 1].end
  {
    var rs := Runs(ws);
    var segs := NormalizedSegments(ws);
    assert |segs| == |rs| > 0;
    assert segs[0] == SegmentOfRun(rs, 0, ws[|ws| - 1].end);
    assert rs[0][0] == ws[0] by {
      RunsArePartition(ws);
      FlattenHead(rs);
    }
    assert segs[|segs| - 1] == SegmentOfRun(rs, |rs| - 1, ws[|ws| - 1].end);
  }

  /** Segment `i - 1` ends, and segment `i` starts, at the first word of run `i`. */
  lemma SegmentLink(ws: seq<Word>, i: int)
    requires |ws| > 0 && 0 < i < |NormalizedSegments(ws)|
    ensures NormalizedSegments(ws)[i - 1].end == Runs(ws)[i][0].start
    ensures NormalizedSegments(ws)[i].start == Some(Runs(ws)[i][0].start)
  {
    var rs, segs := Runs(ws), NormalizedSegments(ws);
    assert segs[i] == SegmentOfRun(rs, i, ws[|ws| - 1].end);
    assert segs[i - 1] == SegmentOfRun(rs, i - 1, ws[|ws| - 1].end);
  }

  /** A non-empty word list yields one segment more than it has speaker changes. */
  lemma SegmentCount(ws: seq<Word>)
    requires |ws| > 0
    ensures |NormalizedSegments(ws)| == Changes(ws) + 1
  {
    RunCount(ws);
  }

  // ---------------------------------------------------------------------------
  // normalizeTranscription
  // ---------------------------------------------------------------------------

  /**
   * The state of `normalizeTranscription` after the first `i` words: the
   * segments closed so far, the open run's speaker, its word texts and its
   * start time.
   */
  predicate NormalizerState(ws: seq<Word>, i: int, closed: seq<Segment>, speaker: SpeakerId, texts: seq<string>, start: Option<real>)
    requires 0 <= i <= |ws|
  {
    if i == 0 then closed == [] && texts == [] && speaker == Null && start == None
    else
      var rs := Runs(ws[..i]);
      && closed == ClosedSegments(rs)
      && texts == Texts(rs[|rs| - 1])
      && speaker == rs[|rs| - 1][0].speaker
      && start == StartOf(rs, |rs| - 1)
  }

  /** A word with the last run's speaker grows that run and leaves the closed segments alone. */
  lemma ExtendSameSpeaker(rs: seq<seq<Word>>, w: Word)
    requires |rs| > 0 && forall j :: 0 <= j < |rs| ==> |rs[j]| > 0
    requires rs[|rs| - 1][0].speaker == w.speaker
    ensures var rs' := Extend(rs, w);
      && |rs'| == |rs|
      && ClosedSegments(rs') == ClosedSegments(rs)
      && Texts(rs'[|rs'| - 1]) == Texts(rs[|rs| - 1]) + [w.text]
      && rs'[|rs'| - 1][0].speaker == rs[|rs| - 1][0].speaker
      && StartOf(rs', |rs'| - 1) == StartOf(rs, |rs| - 1)
  {
    var rs' := Extend(rs, w);
    var m := |rs|;
    assert rs' == rs[..m - 1] + [rs[m - 1] + [w]];
    assert forall j :: 0 <= j < m - 1 ==> rs'[j] == rs[j];
    assert rs'[m - 1][0] == rs[m - 1][0];
    assert rs'[0][0] == rs[0][0];
    forall j | 0 <= j < m - 1
      ensures ClosedSegments(rs')[j] == ClosedSegments(rs)[j]
    {
      assert ClosedSegments(rs')[j] == SegmentOfRun(rs', j, 0.0);
      assert ClosedSegments(rs)[j] == SegmentOfRun(rs, j, 0.0);
      assert rs'[j + 1][0] == rs[j + 1][0];
    }
  }

  /** A word with another speaker closes the last run at the word's start and opens a run of its own. */
  lemma ExtendNewSpeaker(rs: seq<seq<Word>>, w: Word)
    requires |rs| > 0 && forall j :: 0 <= j < |rs| ==> |rs[j]| > 0
    requires rs[|rs| - 1][0].speaker != w.speaker
    ensures var rs' := Extend(rs, w);
      && |rs'| == |rs| + 1
      && ClosedSegments(rs') == ClosedSegments(rs) + [Segment(rs[|rs| - 1][0].speaker, Join(Texts(rs[|rs| - 1]), " "), StartOf(rs, |rs| - 1), w.start, Unscored)]
      && Texts(rs'[|rs'| - 1]) == [w.text]
      && rs'[|rs'| - 1][0].speaker == w.speaker
      && StartOf(rs', |rs'| - 1) == Some(w.start)
  {
    var rs' := Extend(rs, w);
    var m := |rs|;
    assert rs' == rs + [[w]];
    assert forall j :: 0 <= j < m ==> rs'[j] == rs[j];
    assert Texts([w]) == [w.text];
    forall j | 0 <= j < m - 1
      ensures ClosedSegments(rs')[j] == ClosedSegments(rs)[j]
    {
      assert ClosedSegments(rs')[j] == SegmentOfRun(rs', j, 0.0);
      assert ClosedSegments(rs)[j] == SegmentOfRun(rs, j, 0.0);
    }
    assert ClosedSegments(rs')[m - 1] == SegmentOfRun(rs', m - 1, 0.0);
  }

  /** A word with the open run's speaker joins the open run. */
  lemma StepSameSpeaker(ws: seq<Word>, i: int, closed: seq<Segment>, speaker: SpeakerId, texts: seq<string>, start: Option<real>)
    requires 0 <= i < |ws| && NormalizerState(ws, i, closed, speaker, texts, start)
    requires ws[i].speaker == speaker
    ensures NormalizerState(ws, i + 1, closed, speaker, texts + [ws[i].text], start)
  {
    if i == 0 {
      OpenNullRun(ws);
    } else {
      GrowRun(ws, i, closed, speaker, texts, start);
    }
  }

  lemma OpenNullRun(ws: seq<Word>)
    requires |ws| > 0 && ws[0].speaker == Null
    ensures NormalizerState(ws, 1, [], Null, [ws[0].text], None)
  {
    assert ws[..1] == [ws[0]];
    FirstRun(ws[0]);
  }

  lemma GrowRun(ws: seq<Word>, i: int, closed: seq<Segment>, speaker: SpeakerId, texts: seq<string>, start: Option<real>)
    requires 0 < i < |ws| && NormalizerState(ws, i, closed, speaker, texts, start)
    requires ws[i].speaker == speaker
    ensures NormalizerState(ws, i + 1, closed, speaker, texts + [ws[i].text], start)
  {
    var w := ws[i];
    var rs := Runs(ws[..i]);
    assert closed == ClosedSegments(rs) && texts == Texts(rs[|rs| - 1]);
    assert speaker == rs[|rs| - 1][0].speaker && start == StartOf(rs, |rs| - 1);
    assert ws[..i + 1] == ws[..i] + [w];
    RunsSnoc(ws[..i], w);
    ExtendSameSpeaker(rs, w);
    var rs' := Runs(ws[..i + 1]);
    assert rs' == Extend(rs, w);
    assert ClosedSegments(rs') == closed;
  }

  /**
   * A word with another speaker closes the open run, if there is one, at
   * the word's own start, and opens a new run that starts there.
   */
  lemma StepNewSpeaker(ws: seq<Word>, i: int, closed: seq<Segment>, speaker: SpeakerId, texts: seq<string>, start: Option<real>)
    requires 0 <= i < |ws| && NormalizerState(ws, i, closed, speaker, texts, start)
    requires ws[i].speaker != speaker
    ensures var closed' := if |texts| > 0 then closed + [Segment(speaker, Join(texts, " "), start, ws[i].start, Unscored)] else closed;
      NormalizerState(ws, i + 1, closed', ws[i].speaker, [ws[i].text], Some(ws[i].start))
  {
    if i == 0 {
      OpenFirstRun(ws);
    } else {
      CloseAndOpenRun(ws, i, closed, speaker, texts, start);
    }
  }

  lemma OpenFirstRun(ws: seq<Word>)
    requires |ws| > 0 && ws[0].speaker != Null
    ensures NormalizerState(ws, 1, [], ws[0].speaker, [ws[0].text], Some(ws[0].start))
  {
    assert ws[..1] == [ws[0]];
    FirstRun(ws[0]);
  }

  lemma CloseAndOpenRun(ws: seq<Word>, i: int, closed: seq<Segment>, speaker: SpeakerId, texts: seq<string>, start: Option<real>)
    requires 0 < i < |ws| && NormalizerState(ws, i, closed, speaker, texts, start)
    requires ws[i].speaker != speaker
    ensures |texts| > 0
    ensures NormalizerState(ws, i + 1, closed + [Segment(speaker, Join(texts, " "), start, ws[i].start, Unscored)], ws[i].speaker, [ws[i].text], Some(ws[i].start))
  {
    var w := ws[i];
    var rs := Runs(ws[..i]);
    assert closed == ClosedSegments(rs) && texts == Texts(rs[|rs| - 1]);
    assert speaker == rs[|rs| - 1][0].speaker && start == StartOf(rs, |rs| - 1);
    assert ws[..i + 1] == ws[..i] + [w];
    RunsSnoc(ws[..i], w);
    ExtendNewSpeaker(rs, w);
    var rs' := Runs(ws[..i + 1]);
    assert rs' == Extend(rs, w);
    assert ClosedSegments(rs') == closed + [Segment(speaker, Join(texts, " "), start, w.start, Unscored)];
  }

  /** The first word opens the first run, which has no closed segment before it. */
  lemma FirstRun(w: Word)
    ensures Runs([w]) == [[w]]
    ensures ClosedSegments([[w]]) == []
    ensures Texts([w]) == [w.text]
  {
    RunsSnoc([], w);
  }

  /** Closing the open run at the last word's end completes the segments. */
  lemma CloseLastRun(ws: seq<Word>, closed: seq<Segment>, speaker: SpeakerId, texts: seq<string>, start: Option<real>)
    requires NormalizerState(ws, |ws|, closed, speaker, texts, start)
    ensures |texts| > 0 <==> |ws| > 0
    ensures |ws| > 0 ==> closed + [Segment(speaker, Join(texts, " "), start, ws[|ws| - 1].end, Unscored)] == NormalizedSegments(ws)
    ensures |ws| == 0 ==> closed == NormalizedSegments(ws)
  {
    if |ws| > 0 {
      CloseNonEmpty(ws, closed, speaker, texts, start);
    }
  }

  lemma CloseNonEmpty(ws: seq<Word>, closed: seq<Segment>, speaker: SpeakerId, texts: seq<string>, start: Option<real>)
    requires |ws| > 0 && NormalizerState(ws, |ws|, closed, speaker, texts, start)
    ensures |texts| > 0
    ensures closed + [Segment(speaker, Join(texts, " "), start, ws[|ws| - 1].end, Unscored)] == NormalizedSegments(ws)
  {
    assert ws[..|ws|] == ws;
    var rs := Runs(ws);
    CloseRuns(rs, ws[|ws| - 1].end);
  }

  /** The closed segments and the last run's segment are all the runs' segments. */
  lemma CloseRuns(rs: seq<seq<Word>>, lastEnd: real)
    requires |rs| > 0 && forall j :: 0 <= j < |rs| ==> |rs[j]| > 0
    ensures ClosedSegments(rs) + [SegmentOfRun(rs, |rs| - 1, lastEnd)]
      == seq(|rs|, i requires 0 <= i < |rs| => SegmentOfRun(rs, i, lastEnd))
  {
    var m := |rs|;
    var segs := ClosedSegments(rs) + [SegmentOfRun(rs, m - 1, lastEnd)];
    var want := seq(m, i requires 0 <= i < m => SegmentOfRun(rs, i, lastEnd));
    forall j | 0 <= j < m - 1 ensures segs[j] == want[j] {
      assert segs[j] == SegmentOfRun(rs, j, 0.0);
    }
  }

  /**
   * The word loop of `normalizeTranscription`: walks the words, closing a
   * segment whenever the speaker changes and the last one at the last
   * word's end.
   */
  method SegmentWords(ws: seq<Word>) returns (segments: seq<Segment>)
    ensures segments == NormalizedSegments(ws)
  {
    segments := [];
    var currentSpeaker := Null;
    var currentText: seq<string> := [];
    var startTime: Option<real> := None;
    var i := 0;
    while i < |ws|
      invariant 0 <= i <= |ws|
      invariant NormalizerState(ws, i, segments, currentSpeaker, currentText, startTime)
    {
      var word := ws[i];
      if word.speaker != currentSpeaker {
        StepNewSpeaker(ws, i, segments, currentSpeaker, currentText, startTime);
        if |currentText| > 0 {
          segments := segments + [Segment(currentSpeaker, Join(currentText, " "), startTime, word.start, Unscored)];
        }
        currentSpeaker := word.speaker;
        currentText := [];
        startTime := Some(word.start);
      } else {
        StepSameSpeaker(ws, i, segments, currentSpeaker, currentText, startTime);
      }
      currentText := currentText + [word.text];
      i := i + 1;
    }
    CloseLastRun(ws, segments, currentSpeaker, currentText, startTime);
    if |currentText| > 0 {
      segments := segments + [Segment(currentSpeaker, Join(currentText, " "), startTime, ws[|ws| - 1].end, Unscored)];
    }
  }

  /**
   * Returns a transcription that already has a `segments` array unchanged;
   * otherwise segments its words (none when `words` is missing) and
   * replaces only `segments`.
   */
  method NormalizeTranscription(t: Transcription) returns (r: Transcription)
    ensures r == Normalized(t)
  {
    if t.segments.Some? {
      return t;
    }
    var segments := SegmentWords(WordsOf(t));
    r := t.(segments := Some(segments));
  }

  // ---------------------------------------------------------------------------
  // analyzeWithGPTZero
  // ---------------------------------------------------------------------------

  /**
   * The probability segment `i` receives. With a classifier, whatever its
   * call for that segment answered (`None` when the call failed); without
   * one, a number in [0, 1).
   */
  predicate ScoredBy(classifier: Option<(nat, string) -> Option<real>>, i: nat, seg: Segment, score: Score) {
    match classifier
    case Some(classify) => score == Scored(classify(i, seg.text))
    case None => score.Scored? && score.probability.Some? && 0.0 <= score.probability.value < 1.0
  }

  /**
   * `r` is `t` with every segment scored, in order and independently: the
   * same segments with only `ai_probability` set, and every other field of
   * the transcription unchanged.
   */
  predicate ScoredFrom(r: Transcription, t: Transcription, classifier: Option<(nat, string) -> Option<real>>)
    requires t.segments.Some?
  {
    && r.words == t.words && r.otherFields == t.otherFields
    && r.segments.Some? && |r.segments.value| == |t.segments.value|
    && forall i :: 0 <= i < |t.segments.value| ==>
      && r.segments.value[i].(aiProbability := t.segments.value[i].aiProbability) == t.segments.value[i]
      && ScoredBy(classifier, i, t.segments.value[i], r.segments.value[i].aiProbability)
  }

  /**
   * Scores every segment, in order and independently: the result has the
   * same segments with only `ai_probability` set, and every other field of
   * the transcription unchanged. `classifier` is the GPTZero call for the
   * `i`-th segment's text when an API key is configured; without a key the
   * probability is an arbitrary number in [0, 1), standing for `Math.random()`.
   */
  method AnalyzeWithGPTZero(t: Transcription, classifier: Option<(nat, string) -> Option<real>>) returns (r: Transcription)
    requires t.segments.Some?
    ensures ScoredFrom(r, t, classifier)
  {
    var segments := t.segments.value;
    var analyzed: seq<Segment> := [];
    for i := 0 to |segments|
      invariant |analyzed| == i
      invariant forall j :: 0 <= j < i ==>
        && analyzed[j].(aiProbability := segments[j].aiProbability) == segments[j]
        && ScoredBy(classifier, j, segments[j], analyzed[j].aiProbability)
    {
      var aiProbability: Option<real>;
      if classifier.Some? {
        aiProbability := classifier.value(i, segments[i].text);
      } else {
        var p: real :| 0.0 <= p < 1.0;
        aiProbability := Some(p);
      }
      analyzed := analyzed + [segments[i].(aiProbability := Scored(aiProbability))];
    }
    r := t.(segments := Some(analyzed));
  }

  /**
   * Each segment's score depends only on the classifier's answer for that
   * segment: two scorings whose classifiers agree on every other segment
   * (say, one call fails in one of them) agree on every other segment.
   */
  lemma ScoresIsolated(t: Transcription, r1: Transcription, r2: Transcription,
                       c1: (nat, string) -> Option<real>, c2: (nat, string) -> Option<real>, i: nat)
    requires t.segments.Some? && ScoredFrom(r1, t, Some(c1)) && ScoredFrom(r2, t, Some(c2))
    requires forall j :: 0 <= j < |t.segments.value| && j != i ==> c1(j, t.segments.value[j].text) == c2(j, t.segments.value[j].text)
    ensures forall j :: 0 <= j < |t.segments.value| && j != i ==> r1.segments.value[j] == r2.segments.value[j]
  {
    var segs := t.segments.value;
    forall j | 0 <= j < |segs| && j != i ensures r1.segments.value[j] == r2.segments.value[j] {
      var a, b := r1.segments.value[j], r2.segments.value[j];
      assert a.(aiProbability := segs[j].aiProbability) == segs[j];
      assert b.(aiProbability := segs[j].aiProbability) == segs[j];
      assert ScoredBy(Some(c1), j, segs[j], a.aiProbability);
      assert ScoredBy(Some(c2), j, segs[j], b.aiProbability);
      assert a.aiProbability == b.aiProbability;
    }
  }
}
