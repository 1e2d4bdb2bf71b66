/**
 * The syllable segmenter and the double-syllable gap test.
 *
 * Both detectors run the same two-state machine over (volume, time)
 * samples: a volume strictly above the threshold opens a syllable (or
 * continues the open one), a volume at or below it closes the open
 * syllable, which is kept only when its duration lies within the syllable
 * bounds. The current detector runs it one sample at a time
 * (voice/wake_up.py:252-269); the legacy one re-runs it over a window of
 * samples on every check (voice/wake_up_old.py:147-162). Each file has its
 * own timing constants, so they are a parameter here.
 */
module Syllables {

  datatype Option<T> = None | Some(value: T)

  /** One loudness measurement: the volume of a frame and the wall-clock time it was read. */
  datatype Sample = Sample(volume: real, time: real)

  /** A kept syllable: the tuple (start, end, duration) both detectors record. */
  datatype Syllable = Syllable(start: real, end: real, duration: real)

  /** Syllable duration bounds and the largest gap allowed between the two syllables of the cue. */
  datatype Timing = Timing(minSyllable: real, maxSyllable: real, maxGap: real)

  /** Segmenter state: between syllables, or inside one that started at `start`. */
  datatype Segment = Idle | InSyllable(start: real)

  /** What one sample does to the segmenter: its next state and the syllable it closes and keeps, if any. */
  datatype Stepped = Stepped(segment: Segment, kept: Option<Syllable>)

  /** The segmenter's state after a run of samples and the syllables it kept, oldest first. */
  datatype Segmentation = Segmentation(segment: Segment, syllables: seq<Syllable>)

  predicate Acceptable(timing: Timing, duration: real)
  {
    timing.minSyllable <= duration <= timing.maxSyllable
  }

  predicate WellFormed(timing: Timing, s: Syllable)
  {
    s.duration == s.end - s.start && Acceptable(timing, s.duration)
  }

  function Emitted(kept: Option<Syllable>): seq<Syllable>
  {
    if kept.Some? then [kept.value] else []
  }

  /** One transition of the segmenter. */
  function SegmentStep(segment: Segment, threshold: real, timing: Timing, sample: Sample): (r: Stepped)
    ensures r.segment.InSyllable? <==> sample.volume > threshold
    ensures segment.InSyllable? && r.segment.InSyllable? ==> r.segment.start == segment.start
    ensures segment.Idle? && r.segment.InSyllable? ==> r.segment.start == sample.time
    ensures r.kept.Some? <==>
      segment.InSyllable? && sample.volume <= threshold && Acceptable(timing, sample.time - segment.start)
    ensures r.kept.Some? ==> r.kept.value == Syllable(segment.start, sample.time, sample.time - segment.start)
  {
    if sample.volume > threshold then
      if segment.Idle? then Stepped(InSyllable(sample.time), None) else Stepped(segment, None)
    else if segment.InSyllable? then
      var duration := sample.time - segment.start;
      if Acceptable(timing, duration) then Stepped(Idle, Some(Syllable(segment.start, sample.time, duration)))
      else Stepped(Idle, None)
    else
      Stepped(Idle, None)
  }

  /** The segmenter run from the idle state over `samples`, in order. */
  function Segmented(threshold: real, timing: Timing, samples: seq<Sample>): (r: Segmentation)
    ensures forall i :: 0 <= i < |r.syllables| ==> WellFormed(timing, r.syllables[i])
    ensures 2 * |r.syllables| + (if r.segment.InSyllable? then 1 else 0) <= |samples|
    ensures r.segment.InSyllable? <==> samples != [] && samples[|samples| - 1].volume > threshold
  {
    if samples == [] then Segmentation(Idle, [])
    else Continue(Segmented(threshold, timing, samples[..|samples| - 1]), threshold, timing, samples[|samples| - 1])
  }

  /** One more sample through a segmentation. */
  function Continue(before: Segmentation, threshold: real, timing: Timing, sample: Sample): Segmentation
  {
    var step := SegmentStep(before.segment, threshold, timing, sample);
    Segmentation(step.segment, before.syllables + Emitted(step.kept))
  }

  /** Segmenting one more sample of a sequence continues the segmentation of the part before it. */
  lemma SegmentedPrefix(threshold: real, timing: Timing, samples: seq<Sample>, i: nat)
    requires i < |samples|
    ensures Segmented(threshold, timing, samples[..i + 1])
      == Continue(Segmented(threshold, timing, samples[..i]), threshold, timing, samples[i])
  {
    assert samples[..i + 1][..i] == samples[..i];
  }

  /** Samples that never rise above the threshold produce no syllable and leave the segmenter idle. */
  lemma {:induction false} QuietSamplesKeepNothing(threshold: real, timing: Timing, samples: seq<Sample>)
    requires forall i :: 0 <= i < |samples| ==> samples[i].volume <= threshold
    ensures Segmented(threshold, timing, samples) == Segmentation(Idle, [])
  {
    if samples != [] {
      QuietSamplesKeepNothing(threshold, timing, samples[..|samples| - 1]);
    }
  }

  /** While a run of loud samples lasts, the syllable stays open at the run's first time and nothing is kept. */
  lemma {:induction false} LoudRunStaysOpen(threshold: real, timing: Timing, before: seq<Sample>, run: seq<Sample>)
    requires Segmented(threshold, timing, before).segment == Idle
    requires run != []
    requires forall i :: 0 <= i < |run| ==> run[i].volume > threshold
    ensures Segmented(threshold, timing, before + run)
      == Segmentation(InSyllable(run[0].time), Segmented(threshold, timing, before).syllables)
  {
    var all := before + run;
    var shorter := run[..|run| - 1];
    DropLastOfAppend(before, run);
    assert all[..|all| - 1] == before + shorter;
    if |run| > 1 {
      LoudRunStaysOpen(threshold, timing, before, shorter);
    } else {
      assert before + shorter == before;
    }
  }

  lemma DropLastOfAppend<T>(a: seq<T>, b: seq<T>)
    requires b != []
    ensures (a + b)[..|a| + |b| - 1] == a + b[..|b| - 1]
  {
  }

  /**
   * A run of loud samples followed by a quiet one yields exactly one
   * syllable, from the run's first time to the quiet sample's time, when
   * that duration is within bounds, and none otherwise.
   */
  lemma RunOfLoudSamples(threshold: real, timing: Timing, before: seq<Sample>, run: seq<Sample>, after: Sample)
    requires Segmented(threshold, timing, before).segment == Idle
    requires run != []
    requires forall i :: 0 <= i < |run| ==> run[i].volume > threshold
    requires after.volume <= threshold
    ensures var d := after.time - run[0].time;
      Segmented(threshold, timing, before + run + [after])
      == Segmentation(Idle, Segmented(threshold, timing, before).syllables
                            + (if Acceptable(timing, d) then [Syllable(run[0].time, after.time, d)] else []))
  {
    LoudRunStaysOpen(threshold, timing, before, run);
    var all := before + run + [after];
    assert all[..|all| - 1] == before + run;
    var open := Segmented(threshold, timing, before + run);
    assert open.segment == InSyllable(run[0].time);
    assert Segmented(threshold, timing, all) == Continue(open, threshold, timing, after);
    var step := SegmentStep(open.segment, threshold, timing, after);
    assert step.segment == Idle;
    assert Emitted(step.kept) == if Acceptable(timing, after.time - run[0].time)
      then [Syllable(run[0].time, after.time, after.time - run[0].time)] else [];
  }

  /** A loud last sample never closes a syllable: a run still sounding at the end is not recorded. */
  lemma SoundingRunIsNotRecorded(threshold: real, timing: Timing, samples: seq<Sample>, loud: Sample)
    requires loud.volume > threshold
    ensures Segmented(threshold, timing, samples + [loud]).syllables == Segmented(threshold, timing, samples).syllables
  {
    assert (samples + [loud])[..|samples|] == samples;
  }

  /** Timestamps strictly increase along the samples. */
  ghost predicate Increasing(samples: seq<Sample>)
  {
    forall i, j :: 0 <= i < j < |samples| ==> samples[i].time < samples[j].time
  }

  /** Every syllable ends before the next one starts. */
  ghost predicate Chronological(syllables: seq<Syllable>)
  {
    forall i, j :: 0 <= i < j < |syllables| ==> syllables[i].end < syllables[j].start
  }

  /**
   * With strictly increasing timestamps the kept syllables are in arrival
   * order and do not overlap: each starts before it ends and ends before
   * the next starts; an open syllable starts after all kept ones ended.
   */
  lemma {:induction false} SegmentedIsChronological(threshold: real, timing: Timing, samples: seq<Sample>)
    requires Increasing(samples)
    ensures var r := Segmented(threshold, timing, samples);
      && Chronological(r.syllables)
      && (forall i :: 0 <= i < |r.syllables| ==> r.syllables[i].start < r.syllables[i].end)
      && (forall i :: 0 <= i < |r.syllables| ==> r.syllables[i].end <= samples[|samples| - 1].time)
      && (r.segment.InSyllable? ==> r.segment.start <= samples[|samples| - 1].time)
      && (r.segment.InSyllable? ==> forall i :: 0 <= i < |r.syllables| ==> r.syllables[i].end < r.segment.start)
  {
    if samples != [] {
      var prefix := samples[..|samples| - 1];
      var last := samples[|samples| - 1];
      assert Increasing(prefix);
      SegmentedIsChronological(threshold, timing, prefix);
      if prefix != [] {
        assert prefix[|prefix| - 1].time < last.time;
      }
    }
  }

  lemma SuffixOfChronological(a: seq<Syllable>, b: seq<Syllable>)
    requires IsSuffix(a, b) && Chronological(b)
    ensures Chronological(a)
  {
    var offset := |b| - |a|;
    forall i, j | 0 <= i < j < |a|
      ensures a[i].end < a[j].start
    {
      assert a[i] == b[offset + i] && a[j] == b[offset + j];
    }
  }

  function Gap(first: Syllable, second: Syllable): real
  {
    second.start - first.end
  }

  /** The wake test: the last two syllables are separated by a positive gap of at most `maxGap`. */
  predicate TwoSyllablePattern(maxGap: real, history: seq<Syllable>): (found: bool)
    ensures |history| < 2 ==> !found
  {
    |history| >= 2 && 0.0 < Gap(history[|history| - 2], history[|history| - 1]) <= maxGap
  }

  /** On chronological syllables the gap is always positive, so only its upper bound decides. */
  lemma PatternOnChronological(maxGap: real, history: seq<Syllable>)
    requires Chronological(history)
    ensures TwoSyllablePattern(maxGap, history)
      <==> |history| >= 2 && Gap(history[|history| - 2], history[|history| - 1]) <= maxGap
  {
    if |history| >= 2 {
      assert history[|history| - 2].end < history[|history| - 1].start;
    }
  }

  /** The last `n` elements of `s` (all of them when there are fewer). */
  function Newest<T>(s: seq<T>, n: nat): (r: seq<T>)
    ensures |r| == if |s| <= n then |s| else n
  {
    if |s| <= n then s else s[|s| - n..]
  }

  ghost predicate IsSuffix<T>(a: seq<T>, b: seq<T>)
  {
    |a| <= |b| && a == b[|b| - |a|..]
  }

  lemma SuffixGrows<T>(a: seq<T>, b: seq<T>, x: T)
    requires IsSuffix(a, b)
    ensures IsSuffix(a + [x], b + [x])
    ensures IsSuffix((a + [x])[1..], b + [x])
  {
    var c := b + [x];
    assert a + [x] == c[|c| - |a| - 1..];
  }

  /** Keeping the newest `n` after an append is the same as keeping them of the already trimmed sequence. */
  lemma NewestAppend<T>(s: seq<T>, x: T, n: nat)
    ensures Newest(Newest(s, n) + [x], n) == Newest(s + [x], n)
  {
    if |s| > n && n > 0 {
      assert Newest(s, n) + [x] == (s + [x])[|s| - n..];
    }
  }

  /** The wake test only looks at the last two syllables, so trimming older ones never changes it. */
  lemma PatternOfNewest(maxGap: real, history: seq<Syllable>, n: nat)
    requires n >= 2
    ensures TwoSyllablePattern(maxGap, Newest(history, n)) == TwoSyllablePattern(maxGap, history)
  {
    var r := Newest(history, n);
    if |history| > n {
      assert r[|r| - 1] == history[|history| - 1];
      assert r[|r| - 2] == history[|history| - 2];
    }
  }
}
