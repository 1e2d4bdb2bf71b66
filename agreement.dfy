/**
 * How the two detectors relate. They segment with the same transitions
 * (voice/wake_up.py:252-269 and voice/wake_up_old.py:150-162) and apply
 * the same last-two gap test; the current one tests on every syllable
 * close, the legacy one rescans its window on every loud sample.
 */
module Agreement {
  import opened Syllables
  import WakeUp
  import WakeUpLegacy

  /**
   * Both calibrations compute the same background; the current threshold
   * is the legacy one raised to the base threshold when below it.
   */
  lemma CalibrationsDifferOnlyByFloor(noise: seq<real>, current: WakeUp.NoiseLevels, legacy: WakeUpLegacy.NoiseLevels)
    requires noise != []
    ensures WakeUp.Calibration(noise, current).background == WakeUpLegacy.LegacyCalibration(noise, legacy).background
    ensures WakeUp.Calibration(noise, current).threshold
      == WakeUp.Max(WakeUpLegacy.LegacyCalibration(noise, legacy).threshold, WakeUp.BaseThreshold)
  {
  }

  /**
   * With the same threshold and timing, and no earlier wake, the
   * incremental detector wakes on a sample exactly when the batch scan,
   * run over the same samples followed by the next loud one (the moment
   * the legacy loop runs its check), finds the double-syllable pattern.
   * The batch scan here is unbounded: it ignores the legacy window's
   * 100-sample cap and 10-sample minimum.
   */
  lemma BatchScanSeesTheIncrementalWake(threshold: real, timing: Timing, samples: seq<Sample>, loud: Sample)
    requires samples != []
    requires WakeUp.NeverWoke(threshold, timing, samples[..|samples| - 1])
    requires loud.volume > threshold
    ensures WakeUp.Listening(threshold, timing, samples).woke
      <==> TwoSyllablePattern(timing.maxGap, Segmented(threshold, timing, samples + [loud]).syllables)
  {
    var prefix := samples[..|samples| - 1];
    var last := samples[|samples| - 1];
    WakeUp.HistoryIsNewestSyllables(threshold, timing, prefix);
    SoundingRunIsNotRecorded(threshold, timing, samples, loud);
    var before := WakeUp.Listening(threshold, timing, prefix).next;
    var syllables := Segmented(threshold, timing, prefix).syllables;
    var step := SegmentStep(before.segment, threshold, timing, last);
    assert Segmented(threshold, timing, samples).syllables == syllables + Emitted(step.kept);
    assert WakeUp.Listening(threshold, timing, samples) == WakeUp.Listen(before, threshold, timing, last);
    PatternOfNewest(timing.maxGap, syllables, WakeUp.HistoryCapacity);
    if step.kept.Some? {
      NewestAppend(syllables, step.kept.value, WakeUp.HistoryCapacity);
      PatternOfNewest(timing.maxGap, syllables + [step.kept.value], WakeUp.HistoryCapacity);
    }
  }
}
