/**
 * The legacy, batch double-syllable wake detector
 * (voice/wake_up_old.py, class SimpleAudioWakeup).
 *
 * The listening loop keeps the last 100 volumes and their timestamps in
 * two lists. Whenever the current volume is above the threshold it rescans
 * the whole window: it rebuilds the active periods with the same two-state
 * machine as the current detector and tests the gap between the last two.
 * A wake empties both lists. Its calibration sets the threshold to 2.5
 * times the mean background volume, with no floor.
 */
module WakeUpLegacy {
  import opened Audio
  import opened Syllables

  const BaseThreshold: real := 1000.0
  /** Periods of 0.2 s to 0.8 s, at most 0.3 s apart. */
  const SyllableTiming: Timing := Timing(0.2, 0.8, 0.3)
  /** The window keeps at most this many samples. */
  const HistoryLimit: nat := 100
  /** Fewer samples than this in the window are never analysed. */
  const MinWindow: nat := 10
  const CalibrationDuration: real := 3.0
  const SampleRate: nat := 44100
  const ChunkSize: nat := 1024
  const SamplesNeeded: nat := (CalibrationDuration * SampleRate as real / ChunkSize as real).Floor

  /** The background level and the detection threshold derived from it. */
  datatype NoiseLevels = NoiseLevels(background: real, threshold: real)

  /**
   * The levels after calibration: with no volume collected nothing
   * changes; otherwise the background is their mean and the threshold
   * exactly 2.5 times it.
   */
  function LegacyCalibration(noise: seq<real>, current: NoiseLevels): (r: NoiseLevels)
    ensures noise == [] ==> r == current
    ensures noise != [] ==> r.background == Mean(noise) && r.threshold == r.background * 2.5
  {
    if noise == [] then current
    else
      var background := Mean(noise);
      NoiseLevels(background, background * 2.5)
  }

  /**
   * Unlike the current detector, the legacy threshold has no floor: a
   * silent calibration brings it to 0, far below the base threshold.
   */
  lemma SilentCalibrationZeroesThreshold(noise: seq<real>, current: NoiseLevels)
    requires noise != []
    requires forall i :: 0 <= i < |noise| ==> noise[i] == 0.0
    ensures LegacyCalibration(noise, current).threshold == 0.0 < BaseThreshold
  {
    MeanOfConstant(noise, 0.0);
  }

  /** Volumes paired with their timestamps, up to the shorter of the two lists. */
  function Zip(volumes: seq<real>, times: seq<real>): (samples: seq<Sample>)
    ensures |samples| == if |volumes| <= |times| then |volumes| else |times|
    ensures forall i :: 0 <= i < |samples| ==> samples[i] == Sample(volumes[i], times[i])
  {
    var n := if |volumes| <= |times| then |volumes| else |times|;
    seq(n, i requires 0 <= i < n => Sample(volumes[i], times[i]))
  }

  /** What the pattern check decides on a window, against a threshold. */
  predicate WindowPattern(threshold: real, volumes: seq<real>, times: seq<real>): (found: bool)
    ensures |volumes| < MinWindow ==> !found
  {
    |volumes| >= MinWindow
    && TwoSyllablePattern(SyllableTiming.maxGap, Segmented(threshold, SyllableTiming, Zip(volumes, times)).syllables)
  }

  /**
   * When the check runs, the newest sample is loud, so its run is still
   * open: the periods are exactly those of the window before it.
   */
  lemma CheckIgnoresSoundingRun(threshold: real, volumes: seq<real>, times: seq<real>, volume: real, time: real)
    requires |volumes| == |times|
    requires volume > threshold
    ensures Segmented(threshold, SyllableTiming, Zip(volumes + [volume], times + [time])).syllables
      == Segmented(threshold, SyllableTiming, Zip(volumes, times)).syllables
  {
    assert Zip(volumes + [volume], times + [time]) == Zip(volumes, times) + [Sample(volume, time)];
    SoundingRunIsNotRecorded(threshold, SyllableTiming, Zip(volumes, times), Sample(volume, time));
  }

  /** The scan's open period, `None` between periods, as a segmenter state. */
  function OpenPeriod(start: Option<real>): (segment: Segment)
    ensures segment.InSyllable? <==> start.Some?
  {
    if start.Some? then InSyllable(start.value) else Idle
  }

  /** The legacy detector object: only the two calibrated levels are fields. */
  class LegacyDetector {
    var backgroundNoiseLevel: real
    var dynamicThreshold: real

    constructor ()
      ensures backgroundNoiseLevel == 0.0 && dynamicThreshold == BaseThreshold
    {
      backgroundNoiseLevel := 0.0;
      dynamicThreshold := BaseThreshold;
    }

    /** Start-up calibration over the outcomes of the calibration reads. */
    method Calibrate(outcomes: seq<ReadResult>)
      requires SamplesNeeded <= |outcomes|
      modifies this
      ensures NoiseLevels(backgroundNoiseLevel, dynamicThreshold)
        == LegacyCalibration(CollectedNoise(outcomes, SamplesNeeded), old(NoiseLevels(backgroundNoiseLevel, dynamicThreshold)))
    {
      var noiseSamples := CollectNoiseSamples(outcomes, SamplesNeeded);
      if |noiseSamples| > 0 {
        backgroundNoiseLevel := Mean(noiseSamples);
        dynamicThreshold := backgroundNoiseLevel * 2.5;
      }
    }

    /**
     * The batch pattern check: rebuilds the active periods of the window
     * by scanning it once, then tests the gap between the last two.
     * The periods are exactly those the incremental segmenter keeps on the
     * same samples.
     */
    method DetectSyllablePattern(volumeHistory: seq<real>, timeHistory: seq<real>) returns (found: bool)
      ensures |volumeHistory| < MinWindow ==> !found
      ensures found == WindowPattern(dynamicThreshold, volumeHistory, timeHistory)
    {
      if |volumeHistory| < MinWindow {
        return false;
      }
      ghost var samples := Zip(volumeHistory, timeHistory);
      var n := if |volumeHistory| <= |timeHistory| then |volumeHistory| else |timeHistory|;
      var activePeriods: seq<Syllable> := [];
      var currentPeriodStart: Option<real> := None;
      ghost var state := Segmentation(Idle, []);
      var i := 0;
      while i < n
        invariant 0 <= i <= n
        invariant state == Segmented(dynamicThreshold, SyllableTiming, samples[..i])
        invariant state.syllables == activePeriods
        invariant state.segment == OpenPeriod(currentPeriodStart)
      {
        SegmentedPrefix(dynamicThreshold, SyllableTiming, samples, i);
        assert samples[i] == Sample(volumeHistory[i], timeHistory[i]);
        state := Continue(state, dynamicThreshold, SyllableTiming, samples[i]);
        currentPeriodStart, activePeriods := ScanSample(currentPeriodStart, activePeriods, volumeHistory[i], timeHistory[i]);
        i := i + 1;
      }
      assert samples[..n] == samples;
      found := false;
      if |activePeriods| >= 2 {
        var lastTwo := activePeriods[|activePeriods| - 2..];
        var gapDuration := lastTwo[1].start - lastTwo[0].end;
        found := 0.0 < gapDuration <= SyllableTiming.maxGap;
      }
    }

    /**
     * One sample of the scan: a loud volume opens a period (or continues
     * the open one); a quiet one closes the open period and keeps it when
     * its duration is within bounds. This is one segmenter transition.
     */
    method ScanSample(currentPeriodStart: Option<real>, activePeriods: seq<Syllable>, volume: real, timestamp: real)
      returns (nextStart: Option<real>, periods: seq<Syllable>)
      ensures Segmentation(OpenPeriod(nextStart), periods)
        == Continue(Segmentation(OpenPeriod(currentPeriodStart), activePeriods), dynamicThreshold, SyllableTiming, Sample(volume, timestamp))
    {
      nextStart, periods := currentPeriodStart, activePeriods;
      if volume > dynamicThreshold {
        if currentPeriodStart == None {
          nextStart := Some(timestamp);
        }
      } else {
        if currentPeriodStart.Some? {
          var periodDuration := timestamp - currentPeriodStart.value;
          if SyllableTiming.minSyllable <= periodDuration <= SyllableTiming.maxSyllable {
            periods := activePeriods + [Syllable(currentPeriodStart.value, timestamp, periodDuration)];
          }
          nextStart := None;
        }
      }
    }

    /**
     * One iteration of the listening loop. Both lists gain the new sample
     * and drop their oldest entry together past 100; the pattern check runs
     * only on a loud sample, and a wake empties both lists.
     */
    method ListenStep(volumeHistory: seq<real>, timeHistory: seq<real>, volume: real, time: real)
      returns (volumes: seq<real>, times: seq<real>, woke: bool)
      requires |volumeHistory| == |timeHistory| <= HistoryLimit
      ensures |volumes| == |times| <= HistoryLimit
      ensures woke <==> (volume > dynamicThreshold
        && WindowPattern(dynamicThreshold, Newest(volumeHistory + [volume], HistoryLimit), Newest(timeHistory + [time], HistoryLimit)))
      ensures woke ==> volumes == [] && times == []
      ensures !woke ==> (volumes == Newest(volumeHistory + [volume], HistoryLimit)
                      && times == Newest(timeHistory + [time], HistoryLimit))
    {
      volumes := volumeHistory + [volume];
      times := timeHistory + [time];
      if |volumes| > HistoryLimit {
        volumes := volumes[1..];
        times := times[1..];
      }
      woke := false;
      if volume > dynamicThreshold {
        woke := DetectSyllablePattern(volumes, times);
        if woke {
          volumes := [];
          times := [];
        }
      }
    }
  }
}
