/**
 * The current, incremental double-syllable wake detector
 * (voice/wake_up.py, class SimpleAudioWakeup).
 *
 * One sample at a time, the listening loop drives the segmenter; every
 * kept syllable joins a history of at most ten, and every syllable close
 * (kept or not) runs the wake test on the last two entries. A wake clears
 * the history. The calibration at start-up sets the detection threshold
 * from the mean background volume, never below the base threshold.
 */
module WakeUp {
  import opened Audio
  import opened Syllables

  const BaseThreshold: real := 800.0
  const SilenceThreshold: real := 400.0
  /** Syllables of 0.15 s to 0.7 s, at most 0.25 s apart. */
  const SyllableTiming: Timing := Timing(0.15, 0.7, 0.25)
  const HistoryCapacity: nat := 10
  const VolumeBarLength: nat := 50
  const VolumeMaxDisplay: real := 5000.0
  const CalibrationDuration: real := 3.0
  const SampleRate: nat := 44100
  const ChunkSize: nat := 1024
  /** Frames read during calibration: the whole part of 3.0 * 44100 / 1024, that is 129. */
  const SamplesNeeded: nat := (CalibrationDuration * SampleRate as real / ChunkSize as real).Floor

  /** The background level and the detection threshold derived from it. */
  datatype NoiseLevels = NoiseLevels(background: real, threshold: real)

  function Max(a: real, b: real): real
  {
    if a >= b then a else b
  }

  /**
   * The levels after calibration on the collected volumes: with none
   * collected nothing changes; otherwise the background is their mean and
   * the threshold is 2.5 times that, but never below the base threshold.
   */
  function Calibration(noise: seq<real>, current: NoiseLevels): (r: NoiseLevels)
    ensures noise == [] ==> r == current
    ensures noise != [] ==> r.background == Mean(noise)
    ensures noise != [] ==> r.threshold >= BaseThreshold && r.threshold >= r.background * 2.5
    ensures noise != [] ==> r.threshold == BaseThreshold || r.threshold == r.background * 2.5
  {
    if noise == [] then current
    else
      var background := Mean(noise);
      NoiseLevels(background, Max(background * 2.5, BaseThreshold))
  }

  /** Calibrating on a constant background volume `c` sets the background to `c`. */
  lemma CalibrationOfConstantNoise(noise: seq<real>, c: real, current: NoiseLevels)
    requires noise != []
    requires forall i :: 0 <= i < |noise| ==> noise[i] == c
    ensures Calibration(noise, current) == NoiseLevels(c, Max(c * 2.5, BaseThreshold))
  {
    MeanOfConstant(noise, c);
  }

  /** The calibrated background lies between the quietest and the loudest collected volume. */
  lemma CalibrationWithinNoise(noise: seq<real>, lo: real, hi: real, current: NoiseLevels)
    requires noise != []
    requires forall i :: 0 <= i < |noise| ==> lo <= noise[i] <= hi
    ensures lo <= Calibration(noise, current).background <= hi
  {
    MeanBetween(noise, lo, hi);
  }

  /** Adds a kept syllable to the history, evicting the oldest entry past the capacity. */
  function Remember(history: seq<Syllable>, syllable: Syllable): (r: seq<Syllable>)
    ensures |history| <= HistoryCapacity ==> r == Newest(history + [syllable], HistoryCapacity)
  {
    var appended := history + [syllable];
    if |appended| > HistoryCapacity then appended[1..] else appended
  }

  /** The detector's listening state: the segmenter and the history of kept syllables. */
  datatype Listener = Listener(segment: Segment, history: seq<Syllable>)

  /** The state after one sample, and whether that sample raised a wake. */
  datatype Heard = Heard(next: Listener, woke: bool)

  /**
   * What every listening state satisfies: at most ten syllables, each
   * within the duration bounds, and no pair at the end that the wake test
   * would accept (it would have woken and cleared the history).
   */
  ghost predicate ListenerInvariant(timing: Timing, l: Listener)
  {
    && |l.history| <= HistoryCapacity
    && !TwoSyllablePattern(timing.maxGap, l.history)
    && forall i :: 0 <= i < |l.history| ==> WellFormed(timing, l.history[i])
  }

  predicate Closes(l: Listener, threshold: real, sample: Sample)
  {
    l.segment.InSyllable? && sample.volume <= threshold
  }

  /** The history after a syllable close, before the wake test: with the kept syllable, if any. */
  function AfterClose(l: Listener, threshold: real, timing: Timing, sample: Sample): seq<Syllable>
  {
    var kept := SegmentStep(l.segment, threshold, timing, sample).kept;
    if kept.Some? then Remember(l.history, kept.value) else l.history
  }

  /** One iteration of the listening loop on the state, as a value. */
  function Listen(l: Listener, threshold: real, timing: Timing, sample: Sample): (r: Heard)
    ensures r.next.segment == SegmentStep(l.segment, threshold, timing, sample).segment
    ensures r.woke <==> Closes(l, threshold, sample) && TwoSyllablePattern(timing.maxGap, AfterClose(l, threshold, timing, sample))
    ensures r.woke ==> r.next.history == []
    ensures !r.woke ==> r.next.history == if Closes(l, threshold, sample) then AfterClose(l, threshold, timing, sample) else l.history
    ensures ListenerInvariant(timing, l) ==> ListenerInvariant(timing, r.next)
  {
    var segment := SegmentStep(l.segment, threshold, timing, sample).segment;
    if Closes(l, threshold, sample) then
      var history := AfterClose(l, threshold, timing, sample);
      if TwoSyllablePattern(timing.maxGap, history) then Heard(Listener(segment, []), true)
      else Heard(Listener(segment, history), false)
    else
      Heard(Listener(segment, l.history), false)
  }

  /**
   * In any reachable state, a sample wakes the detector exactly when it
   * closes a syllable that is kept and that starts at most `maxGap` (and
   * more than 0) after the previous kept syllable ended. A close whose
   * syllable is discarded never wakes, although the test runs.
   */
  lemma WakeOnlyOnKeptPair(l: Listener, threshold: real, timing: Timing, sample: Sample)
    requires ListenerInvariant(timing, l)
    ensures var step := SegmentStep(l.segment, threshold, timing, sample);
      Listen(l, threshold, timing, sample).woke
      <==> step.kept.Some? && |l.history| >= 1
           && 0.0 < Gap(l.history[|l.history| - 1], step.kept.value) <= timing.maxGap
  {
    var step := SegmentStep(l.segment, threshold, timing, sample);
    if step.kept.Some? {
      var r := Remember(l.history, step.kept.value);
      assert r == Newest(l.history + [step.kept.value], HistoryCapacity);
      if |l.history| >= 1 {
        assert r[|r| - 1] == step.kept.value;
        assert r[|r| - 2] == l.history[|l.history| - 1];
      }
    }
  }

  /** The listening loop run from a fresh detector over `samples`. */
  function Listening(threshold: real, timing: Timing, samples: seq<Sample>): (r: Heard)
    ensures ListenerInvariant(timing, r.next)
    ensures r.next.segment == Segmented(threshold, timing, samples).segment
    ensures IsSuffix(r.next.history, Segmented(threshold, timing, samples).syllables)
  {
    if samples == [] then Heard(Listener(Idle, []), false)
    else
      var before := Listening(threshold, timing, samples[..|samples| - 1]);
      ListenExtendsSuffix(before.next, threshold, timing, samples[..|samples| - 1], samples[|samples| - 1]);
      Listen(before.next, threshold, timing, samples[|samples| - 1])
  }

  lemma ListenExtendsSuffix(l: Listener, threshold: real, timing: Timing, samples: seq<Sample>, sample: Sample)
    requires l.segment == Segmented(threshold, timing, samples).segment
    requires IsSuffix(l.history, Segmented(threshold, timing, samples).syllables)
    ensures IsSuffix(Listen(l, threshold, timing, sample).next.history,
                     Segmented(threshold, timing, samples + [sample]).syllables)
  {
    var all := samples + [sample];
    var syllables := Segmented(threshold, timing, samples).syllables;
    var step := SegmentStep(l.segment, threshold, timing, sample);
    assert Segmented(threshold, timing, all).syllables == syllables + Emitted(step.kept) by {
      assert all[..|all| - 1] == samples;
    }
    var history := Listen(l, threshold, timing, sample).next.history;
    assert || history == []
           || (step.kept.None? && history == l.history)
           || (step.kept.Some? && history == Remember(l.history, step.kept.value));
    if step.kept.Some? {
      SuffixGrows(l.history, syllables, step.kept.value);
    }
  }

  /** No sample along `samples` raised a wake. */
  ghost predicate NeverWoke(threshold: real, timing: Timing, samples: seq<Sample>)
  {
    forall k :: 0 < k <= |samples| ==> !Listening(threshold, timing, samples[..k]).woke
  }

  /**
   * As long as no wake has happened, the history is exactly the ten most
   * recently kept syllables, oldest first.
   */
  lemma {:induction false} HistoryIsNewestSyllables(threshold: real, timing: Timing, samples: seq<Sample>)
    requires NeverWoke(threshold, timing, samples)
    ensures Listening(threshold, timing, samples).next.history
      == Newest(Segmented(threshold, timing, samples).syllables, HistoryCapacity)
  {
    if samples != [] {
      var prefix := samples[..|samples| - 1];
      NeverWokeBefore(threshold, timing, samples);
      HistoryIsNewestSyllables(threshold, timing, prefix);
      assert samples[..|samples|] == samples;
      HistoryStep(threshold, timing, samples);
    }
  }

  lemma NeverWokeBefore(threshold: real, timing: Timing, samples: seq<Sample>)
    requires samples != []
    requires NeverWoke(threshold, timing, samples)
    ensures NeverWoke(threshold, timing, samples[..|samples| - 1])
  {
    var prefix := samples[..|samples| - 1];
    forall k | 0 < k <= |prefix|
      ensures !Listening(threshold, timing, prefix[..k]).woke
    {
      assert prefix[..k] == samples[..k];
    }
  }

  /** A sample that does not wake keeps the history equal to the newest kept syllables. */
  lemma HistoryStep(threshold: real, timing: Timing, samples: seq<Sample>)
    requires samples != []
    requires var prefix := samples[..|samples| - 1];
      Listening(threshold, timing, prefix).next.history
      == Newest(Segmented(threshold, timing, prefix).syllables, HistoryCapacity)
    requires !Listening(threshold, timing, samples).woke
    ensures Listening(threshold, timing, samples).next.history
      == Newest(Segmented(threshold, timing, samples).syllables, HistoryCapacity)
  {
    var prefix := samples[..|samples| - 1];
    var sample := samples[|samples| - 1];
    var before := Listening(threshold, timing, prefix).next;
    var syllables := Segmented(threshold, timing, prefix).syllables;
    var step := SegmentStep(before.segment, threshold, timing, sample);
    assert Segmented(threshold, timing, samples).syllables == syllables + Emitted(step.kept);
    var heard := Listen(before, threshold, timing, sample);
    assert Listening(threshold, timing, samples) == heard;
    if step.kept.Some? {
      NewestAppend(syllables, step.kept.value, HistoryCapacity);
      assert heard.next.history == Remember(before.history, step.kept.value);
    } else {
      assert heard.next.history == before.history;
    }
  }

  /** With strictly increasing timestamps the history is in arrival order and never overlaps. */
  lemma HistoryIsChronological(threshold: real, timing: Timing, samples: seq<Sample>)
    requires Increasing(samples)
    ensures Chronological(Listening(threshold, timing, samples).next.history)
  {
    SegmentedIsChronological(threshold, timing, samples);
    SuffixOfChronological(Listening(threshold, timing, samples).next.history, Segmented(threshold, timing, samples).syllables);
  }

  /** The detector object: thresholds, segmenter fields and syllable history, updated in place. */
  class WakeDetector {
    var backgroundNoiseLevel: real
    var dynamicThreshold: real
    var lastVolume: real
    var inSyllable: bool
    var syllableStartTime: real
    var syllableEndTime: real
    var syllablesDetected: seq<Syllable>

    /** The listening state the fields represent. */
    function Current(): Listener
      reads this
    {
      Listener(if inSyllable then InSyllable(syllableStartTime) else Idle, syllablesDetected)
    }

    ghost predicate Valid()
      reads this
    {
      dynamicThreshold >= BaseThreshold && ListenerInvariant(SyllableTiming, Current())
    }

    constructor ()
      ensures Valid()
      ensures backgroundNoiseLevel == 0.0 && dynamicThreshold == BaseThreshold && lastVolume == 0.0
      ensures !inSyllable && syllableStartTime == 0.0 && syllableEndTime == 0.0
      ensures syllablesDetected == []
    {
      backgroundNoiseLevel := 0.0;
      dynamicThreshold := BaseThreshold;
      lastVolume := 0.0;
      inSyllable := false;
      syllableStartTime := 0.0;
      syllableEndTime := 0.0;
      syllablesDetected := [];
    }

    /**
     * Start-up calibration over the outcomes of the calibration reads.
     * Only the two levels change; the threshold stays at or above the base.
     */
    method Calibrate(outcomes: seq<ReadResult>)
      requires Valid()
      requires SamplesNeeded <= |outcomes|
      modifies this
      ensures Valid()
      ensures NoiseLevels(backgroundNoiseLevel, dynamicThreshold)
        == Calibration(CollectedNoise(outcomes, SamplesNeeded), old(NoiseLevels(backgroundNoiseLevel, dynamicThreshold)))
      ensures lastVolume == old(lastVolume) && inSyllable == old(inSyllable) && syllableStartTime == old(syllableStartTime)
      ensures syllableEndTime == old(syllableEndTime) && syllablesDetected == old(syllablesDetected)
    {
      var noiseSamples := CollectNoiseSamples(outcomes, SamplesNeeded);
      if |noiseSamples| > 0 {
        backgroundNoiseLevel := Mean(noiseSamples);
        dynamicThreshold := Max(backgroundNoiseLevel * 2.5, BaseThreshold);
      }
    }

    /** The response to a wake: the history is cleared and nothing else changes. */
    method OnWakeDetected()
      modifies this
      ensures syllablesDetected == []
      ensures backgroundNoiseLevel == old(backgroundNoiseLevel) && dynamicThreshold == old(dynamicThreshold)
      ensures lastVolume == old(lastVolume) && inSyllable == old(inSyllable) && syllableStartTime == old(syllableStartTime)
      ensures syllableEndTime == old(syllableEndTime)
    {
      syllablesDetected := [];
    }

    /** One iteration of the listening loop on a volume read at `time`; `woke` says whether a wake was raised. */
    method Step(volume: real, time: real) returns (woke: bool)
      requires Valid()
      modifies this
      ensures Valid()
      ensures Heard(Current(), woke) == Listen(old(Current()), dynamicThreshold, SyllableTiming, Sample(volume, time))
      ensures backgroundNoiseLevel == old(backgroundNoiseLevel) && dynamicThreshold == old(dynamicThreshold)
      ensures lastVolume == volume
      ensures syllableStartTime == if volume > dynamicThreshold && !old(inSyllable) then time else old(syllableStartTime)
      ensures syllableEndTime == if volume <= dynamicThreshold && old(inSyllable) then time else old(syllableEndTime)
    {
      ghost var before := Current();
      ghost var sample := Sample(volume, time);
      ghost var heard := Listen(before, dynamicThreshold, SyllableTiming, sample);
      lastVolume := volume;
      woke := false;
      if volume > dynamicThreshold {
        if !inSyllable {
          inSyllable := true;
          syllableStartTime := time;
        }
        assert Heard(Current(), woke) == heard;
      } else {
        if inSyllable {
          inSyllable := false;
          syllableEndTime := time;
          var syllableDuration := syllableEndTime - syllableStartTime;
          if SyllableTiming.minSyllable <= syllableDuration <= SyllableTiming.maxSyllable {
            syllablesDetected := syllablesDetected + [Syllable(syllableStartTime, syllableEndTime, syllableDuration)];
            if |syllablesDetected| > HistoryCapacity {
              syllablesDetected := syllablesDetected[1..];
            }
          }
          assert syllablesDetected == AfterClose(before, dynamicThreshold, SyllableTiming, sample);
          if TwoSyllablePattern(SyllableTiming.maxGap, syllablesDetected) {
            OnWakeDetected();
            woke := true;
          }
        }
        assert Heard(Current(), woke) == heard;
      }
    }
  }

  /**
   * From a fresh detector at the base threshold, a loud sample at 0 s
   * opens a syllable and a quiet one at 0.3 s closes and keeps it.
   */
  lemma FirstSyllableKept()
    ensures Listen(Listener(Idle, []), BaseThreshold, SyllableTiming, Sample(900.0, 0.0))
      == Heard(Listener(InSyllable(0.0), []), false)
    ensures Listen(Listener(InSyllable(0.0), []), BaseThreshold, SyllableTiming, Sample(100.0, 0.3))
      == Heard(Listener(Idle, [Syllable(0.0, 0.3, 0.3)]), false)
  {
  }

  /**
   * The double-syllable cue, continued: a second syllable of 0.3 s that
   * starts 0.2 s after the first ended raises a wake when it closes, and
   * the history is cleared.
   */
  lemma CloseSyllablesWake()
    ensures Listen(Listener(Idle, [Syllable(0.0, 0.3, 0.3)]), BaseThreshold, SyllableTiming, Sample(900.0, 0.5))
      == Heard(Listener(InSyllable(0.5), [Syllable(0.0, 0.3, 0.3)]), false)
    ensures Listen(Listener(InSyllable(0.5), [Syllable(0.0, 0.3, 0.3)]), BaseThreshold, SyllableTiming, Sample(100.0, 0.8))
      == Heard(Listener(Idle, []), true)
  {
    assert Remember([Syllable(0.0, 0.3, 0.3)], Syllable(0.5, 0.8, 0.3)) == [Syllable(0.0, 0.3, 0.3), Syllable(0.5, 0.8, 0.3)];
  }

  /** The same two syllables 0.4 s apart raise no wake, and both stay in the history. */
  lemma DistantSyllablesDoNotWake()
    ensures Listen(Listener(Idle, [Syllable(0.0, 0.3, 0.3)]), BaseThreshold, SyllableTiming, Sample(900.0, 0.7))
      == Heard(Listener(InSyllable(0.7), [Syllable(0.0, 0.3, 0.3)]), false)
    ensures Listen(Listener(InSyllable(0.7), [Syllable(0.0, 0.3, 0.3)]), BaseThreshold, SyllableTiming, Sample(100.0, 1.0))
      == Heard(Listener(Idle, [Syllable(0.0, 0.3, 0.3), Syllable(0.7, 1.0, 0.3)]), false)
  {
    assert Remember([Syllable(0.0, 0.3, 0.3)], Syllable(0.7, 1.0, 0.3)) == [Syllable(0.0, 0.3, 0.3), Syllable(0.7, 1.0, 0.3)];
  }

  /** The calibration reads 129 frames. */
  lemma CalibrationFrameCount()
    ensures SamplesNeeded == 129
  {
  }

  /** How the volume display classifies a volume. */
  datatype VolumeStatus = Quiet | Background | Detecting

  function Status(volume: real, threshold: real): (s: VolumeStatus)
    ensures s == Quiet <==> volume < SilenceThreshold
    ensures s == Detecting <==> SilenceThreshold <= volume && threshold <= volume
  {
    if volume < SilenceThreshold then Quiet
    else if volume < threshold then Background
    else Detecting
  }

  /** Every volume the segmenter treats as loud shows as detecting, for any calibrated threshold. */
  lemma LoudVolumeShowsDetecting(volume: real, threshold: real)
    requires threshold >= BaseThreshold
    requires volume > threshold
    ensures Status(volume, threshold) == Detecting
  {
  }

  function BarChar(s: VolumeStatus): char
  {
    match s
    case Quiet => ' '
    case Background => '\U{2591}'
    case Detecting => '\U{2588}'
  }

  /** Conversion of a real to an integer, dropping the fractional part toward zero. */
  function Truncate(x: real): int
  {
    if x >= 0.0 then x.Floor else -((-x).Floor)
  }

  /** `n` copies of `c`; none when `n` is not positive. */
  function Repeat(c: char, n: int): (r: seq<char>)
    ensures |r| == if n <= 0 then 0 else n
    ensures forall i :: 0 <= i < |r| ==> r[i] == c
  {
    if n <= 0 then [] else seq(n, _ => c)
  }

  /** Length of the filled part of the volume bar: the volume as a share of full scale, capped at 1. */
  function FilledLength(volume: real): (n: int)
    ensures volume >= 0.0 ==> 0 <= n <= VolumeBarLength
    ensures volume >= VolumeMaxDisplay ==> n == VolumeBarLength
  {
    var share := if 1.0 <= volume / VolumeMaxDisplay then 1.0 else volume / VolumeMaxDisplay;
    Truncate(share * VolumeBarLength as real)
  }

  /** The volume bar: the status character over the filled part, blanks after it. */
  function VolumeBar(volume: real, threshold: real): (bar: seq<char>)
    ensures volume >= 0.0 ==> |bar| == VolumeBarLength
    ensures volume >= 0.0 ==> forall i :: 0 <= i < |bar| ==>
      bar[i] == if i < FilledLength(volume) then BarChar(Status(volume, threshold)) else ' '
  {
    var n := FilledLength(volume);
    Repeat(BarChar(Status(volume, threshold)), n) + Repeat(' ', VolumeBarLength - n)
  }

  /** A louder volume never shows a shorter bar. */
  lemma FilledLengthMonotone(v: real, w: real)
    requires 0.0 <= v <= w
    ensures FilledLength(v) <= FilledLength(w)
  {
  }

  /** The calibration progress bar: `fill` over the done share of `length`, dashes after it. */
  function ProgressBar(iteration: nat, total: nat, length: nat): (bar: seq<char>)
    requires total > 0
    ensures iteration <= total ==> |bar| == length
    ensures forall i :: 0 <= i < |bar| ==> bar[i] == if i < length * iteration / total then '\U{2588}' else '-'
  {
    var filled := length * iteration / total;
    Repeat('\U{2588}', filled) + Repeat('-', length - filled)
  }

  /** The progress bar starts empty and is full when the last frame is read. */
  lemma ProgressBarEnds(total: nat, length: nat)
    requires total > 0
    ensures forall i :: 0 <= i < length ==> ProgressBar(0, total, length)[i] == '-'
    ensures forall i :: 0 <= i < length ==> ProgressBar(total, total, length)[i] == '\U{2588}'
  {
    MulDivCancel(length, total);
  }

  lemma MulDivCancel(a: nat, b: nat)
    requires b > 0
    ensures a * b / b == a
  {
    var q := a * b / b;
    var m := a * b % b;
    assert (q - a) * b == -m;
    MultipleBounds(q - a, b);
  }

  lemma MultipleBounds(k: int, b: nat)
    requires b > 0
    ensures k >= 1 ==> k * b >= b
    ensures k <= -1 ==> k * b <= -(b as int)
  {
  }
}
