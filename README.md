# Double-syllable wake detector, modelled in Dafny

This project models the audio wake detector of the robot's voice module. The detector listens for a two-syllable cue such as "你好" ("ni hao"). It reduces each audio frame to a loudness (the RMS volume) and cuts the stream of loud and quiet frames into syllables. It wakes when the last two syllables are separated by a short, positive gap. Before listening, it calibrates its detection threshold from the background noise.

The repository holds two versions of the detector, and both are modelled:

- `voice/wake_up.py` is the current, incremental detector. Each frame drives a two-state segmenter (idle, or inside a syllable). Every syllable whose duration is within bounds joins a history of at most ten. Every syllable close runs the gap test on the last two entries, and a wake clears the history. Its threshold is 2.5 times the mean background, never below the base threshold of 800.
- `voice/wake_up_old.py` is the legacy, batch detector. It keeps the last 100 volumes and timestamps in two lists. On every loud frame it rescans the whole window with the same segmenter and tests the gap between the last two periods it finds. A wake empties both lists. Its threshold is 2.5 times the mean background, with no floor.

Modules:

- `Audio` (`audio.dfy`) covers what both files share: the volume of a frame and the calibration read loop.
- `Syllables` (`syllables.dfy`) holds the segmenter as one transition (`SegmentStep`) and as a fold over samples (`Segmented`). It also holds the two-syllable gap test and the lemmas about runs, chronology and history suffixes.
- `WakeUp` (`wake_up.dfy`) models the current detector.
  - `Listen` is one loop iteration on values, and `Listening` is the loop from a fresh detector.
  - The class `WakeDetector` keeps the source's fields, and `WakeDetector.Step` updates them in place.
  - The module also has the volume bar and the progress bar.
- `WakeUpLegacy` (`wake_up_old.dfy`) models the legacy detector.
  - The class `LegacyDetector` holds the two calibrated levels.
  - `DetectSyllablePattern` is the scan loop, and `ListenStep` is one iteration of the listening loop over the lockstep window.
- `Agreement` (`agreement.dfy`) relates the two detectors.

Volumes and timestamps are exact `real` inputs. The code reads the clock (`time.time()`) and computes square roots and means in floating point. The model takes the timestamp as a parameter and the square root as a supplied value (see "Left out").

Where the code and the written design differ, the model follows the code:

- **Refractory period.** The design calls for a refractory period after a wake, during which no new wake may be raised. The code only sleeps for 2 s and clears the history (`voice/wake_up.py:163-166`), so a qualifying pair right after the sleep wakes again. The model has no refractory gate.
- **When the gap test runs.** The design runs the test on every newly appended syllable. The current code runs it on every syllable close, including closes whose syllable is rejected (`voice/wake_up.py:275-277`). On a rejected close the last two entries are unchanged and, by the invariant `ListenerInvariant`, do not match, so this never wakes (`WakeOnlyOnKeptPair`).
- **Calibration cancellation.** The design has calibration watch a cancellation signal. The code has none, and neither has the model.
- **Timestamps.** The design assumes monotonic timestamps. The code uses wall-clock time, so no lemma about a single step assumes increasing time. The chronology lemmas take it as a hypothesis (`Increasing`).

## Model

| member | source | states |
|---|---|---|
| Audio.CalculateVolume | voice/wake_up.py:65-72 | An empty frame has volume 0; otherwise the volume is the non-negative square root of the mean of the squared 16-bit samples (the same code is voice/wake_up_old.py:60-76) |
| Audio.SilentFrameHasNoVolume | voice/wake_up.py:70-72 | A frame of all-zero samples has volume 0 |
| Audio.ConstantFrameVolume | voice/wake_up.py:70-72 | A frame whose samples all equal `a` has volume \|a\| |
| Audio.MeanBetween | voice/wake_up.py:101 | The mean of the collected volumes lies between any lower and upper bound of them |
| Audio.CollectedNoise | voice/wake_up.py:86-98 | The calibration collects at most `samples_needed` volumes |
| Audio.CollectedNoiseIsPrefixBeforeError | voice/wake_up.py:86-98 | The collected volumes are those of the first reads, in order, all successful; collection stops early only at a failed read |
| Audio.CollectNoiseSamples | voice/wake_up.py:79-98 | The read loop collects exactly `CollectedNoise` (the same loop is voice/wake_up_old.py:88-106) |
| Syllables.SegmentStep | voice/wake_up.py:252-269 | A loud sample opens a syllable at its time or keeps the open one's start; a quiet sample closes an open syllable and keeps `(start, time, time - start)` iff the duration is within bounds; a quiet sample while idle changes nothing |
| Syllables.Segmented | voice/wake_up_old.py:147-162 | Every kept period has `duration == end - start` within bounds; there are at most half as many periods as samples; the scan ends inside a period iff the last sample is loud |
| Syllables.SegmentedPrefix | voice/wake_up_old.py:150-162 | Scanning one more sample continues the scan of the samples before it by one transition |
| Syllables.QuietSamplesKeepNothing | voice/wake_up_old.py:155-162 | Samples never above the threshold record no period and leave the scan idle |
| Syllables.LoudRunStaysOpen | voice/wake_up_old.py:151-154 | During a run of loud samples the period stays open at the run's first timestamp and nothing is recorded |
| Syllables.RunOfLoudSamples | voice/wake_up_old.py:150-162 | A loud run followed by a quiet sample records exactly one period, from the run's first timestamp to the quiet sample's, iff its duration is within bounds |
| Syllables.SoundingRunIsNotRecorded | voice/wake_up_old.py:150-162 | A run still loud at the end of the window is never recorded |
| Syllables.SegmentedIsChronological | voice/wake_up_old.py:150-162 | With increasing timestamps, each period ends after it starts, ends before the next one starts and no later than the last sample |
| Syllables.TwoSyllablePattern | voice/wake_up.py:129-150 | The gap test is false with fewer than two syllables; otherwise it is true iff `0 < last.start - secondToLast.end <= max_gap` |
| Syllables.PatternOnChronological | voice/wake_up.py:139-141 | On chronological syllables only the upper bound of the gap decides the test |
| Syllables.PatternOfNewest | voice/wake_up.py:136 | The test reads only the last two entries, so trimming older ones never changes it |
| WakeUp.Calibration | voice/wake_up.py:100-117 | With no volume collected both levels are unchanged; otherwise the background is the mean and the threshold is `max(background * 2.5, 800)`, never below the base threshold |
| WakeUp.CalibrationOfConstantNoise | voice/wake_up.py:100-102 | A constant background `c` calibrates to `(c, max(2.5 c, 800))` |
| WakeUp.CalibrationWithinNoise | voice/wake_up.py:100-102 | The calibrated background lies between the quietest and loudest collected volume |
| WakeUp.CalibrationFrameCount | voice/wake_up.py:80-81 | The calibration reads 129 frames |
| WakeUp.Remember | voice/wake_up.py:267-273 | Appending to a history of at most ten keeps the ten newest syllables, oldest evicted first |
| WakeUp.Listen | voice/wake_up.py:251-277 | One loop iteration: the segmenter moves by one transition; it wakes iff a syllable closes and the gap test holds on the updated history; a wake empties the history; otherwise the history is the updated one on a close and unchanged otherwise; the invariant (at most ten well-formed syllables, no pending pair) is preserved |
| WakeUp.WakeOnlyOnKeptPair | voice/wake_up.py:259-277 | In a reachable state a sample wakes iff it closes a kept syllable that starts more than 0 and at most `max_gap` after the previous one ended |
| WakeUp.Listening | voice/wake_up.py:236-277 | The loop from a fresh detector keeps the invariant, its segmenter state is the scan's, and its history is a suffix of the syllables kept so far |
| WakeUp.HistoryIsNewestSyllables | voice/wake_up.py:267-273 | Until the first wake, the history is exactly the ten most recently kept syllables in arrival order |
| WakeUp.HistoryIsChronological | voice/wake_up.py:267-273 | With increasing timestamps the history never overlaps and is in arrival order |
| WakeUp.FirstSyllableKept | voice/wake_up.py:252-269 | From a fresh detector, a loud sample at 0 s then a quiet one at 0.3 s keep the syllable (0, 0.3, 0.3) |
| WakeUp.CloseSyllablesWake | voice/wake_up.py:252-277 | A second 0.3 s syllable 0.2 s after the first wakes and clears the history |
| WakeUp.DistantSyllablesDoNotWake | voice/wake_up.py:252-277 | A second 0.3 s syllable 0.4 s after the first does not wake; both stay in the history |
| WakeUp.WakeDetector.constructor | voice/wake_up.py:35-60 | A fresh detector is idle, has an empty history, and its threshold is the base threshold 800 |
| WakeUp.WakeDetector.Calibrate | voice/wake_up.py:74-117 | The levels become `Calibration` of the collected volumes; the segmenter fields and the history are unchanged |
| WakeUp.WakeDetector.OnWakeDetected | voice/wake_up.py:152-166 | The history is cleared and no other field changes |
| WakeUp.WakeDetector.Step | voice/wake_up.py:239-277 | The fields after the loop body are exactly `Listen` of the fields before; the thresholds are unchanged; `last_volume`, the start time and the end time are set as the loop sets them; the invariant is kept |
| WakeUp.Status | voice/wake_up.py:183-191 | Quiet iff below the silence threshold 400; detecting iff at or above both the silence threshold and the detection threshold |
| WakeUp.LoudVolumeShowsDetecting | voice/wake_up.py:183-191 | Every volume the segmenter treats as loud shows as detecting |
| WakeUp.FilledLength | voice/wake_up.py:180 | The filled part of the volume bar is between 0 and 50, and full from the display maximum 5000 on |
| WakeUp.FilledLengthMonotone | voice/wake_up.py:180 | A louder volume never shows a shorter bar |
| WakeUp.VolumeBar | voice/wake_up.py:180-194 | The bar is always 50 characters: the status character over the filled part, blanks after it |
| WakeUp.ProgressBar | voice/wake_up.py:119-123 | For `iteration <= total` the bar has `length` characters: filled over the first `length * iteration // total`, dashes after |
| WakeUp.ProgressBarEnds | voice/wake_up.py:119-127 | The progress bar is all dashes at 0 and all filled at `total` |
| WakeUpLegacy.LegacyCalibration | voice/wake_up_old.py:108-130 | With no volume collected both levels are unchanged; otherwise the background is the mean and the threshold exactly 2.5 times it |
| WakeUpLegacy.SilentCalibrationZeroesThreshold | voice/wake_up_old.py:111-115 | With no floor, a silent calibration sets the threshold to 0, below the base threshold |
| WakeUpLegacy.Zip | voice/wake_up_old.py:150 | The samples pair volumes with timestamps position by position, up to the shorter list |
| WakeUpLegacy.WindowPattern | voice/wake_up_old.py:143-177 | A window of fewer than 10 samples never matches |
| WakeUpLegacy.CheckIgnoresSoundingRun | voice/wake_up_old.py:267-271 | When the check runs the newest sample is loud, so the periods are those of the window before it |
| WakeUpLegacy.LegacyDetector.constructor | voice/wake_up_old.py:42-55 | A fresh detector has background 0 and threshold 1000 |
| WakeUpLegacy.LegacyDetector.Calibrate | voice/wake_up_old.py:78-130 | The levels become `LegacyCalibration` of the collected volumes |
| WakeUpLegacy.LegacyDetector.ScanSample | voice/wake_up_old.py:151-162 | One scan step on the open-period start and the period list is exactly one segmenter transition |
| WakeUpLegacy.LegacyDetector.DetectSyllablePattern | voice/wake_up_old.py:132-177 | False for fewer than 10 samples; otherwise true iff the periods the segmenter keeps on the window number at least two and the last two pass the gap test |
| WakeUpLegacy.LegacyDetector.ListenStep | voice/wake_up_old.py:246-276 | Both lists gain the sample and drop their oldest entry together past 100, staying equal in length; the check runs only on a loud sample; it wakes iff the check matches on the new window; a wake empties both lists |
| Agreement.CalibrationsDifferOnlyByFloor | voice/wake_up.py:100-102 | Both versions compute the same background; the current threshold is the legacy one raised to the base threshold |
| Agreement.BatchScanSeesTheIncrementalWake | voice/wake_up_old.py:146-177 | Before any wake, the incremental detector wakes on a sample iff the batch scan of the same samples plus the next loud sample finds the pattern |

## Left out

- Audio device I/O is not modelled: opening, reading and closing the PyAudio stream, and the retry after a failed read in the listening loop (`voice/wake_up.py:218-295`, `voice/wake_up_old.py:220-294`). A read is an already computed volume, or a `ReadError` during calibration.
- Audio.CalculateVolume: the square root and the floating-point mean are not computed. The caller supplies the root, and the contract only requires it to be the exact non-negative square root. Floating-point rounding is not modelled.
- The decoding of the byte buffer into 16-bit samples (`np.frombuffer`) is not modelled. A frame is already a sequence of `int16` values.
- `time.time()` and `time.sleep` are not modelled. Timestamps are parameters, and the 2 s sleep after a wake changes no state.
- Terminal output is not modelled: the printed messages, the percentage text, clearing the line and the screen, the legacy status line every 50 checks, and the environment advice after calibration.
- The rate limit on the volume display (`visualization_update_rate`) is not modelled. The display is a pure function of the volume and the threshold and never changes detector state.
- `is_listening`, `start_listening`'s set-up and `stop_listening` are not modelled. They only start and stop the loop and the stream.
- The import check for `pyaudio` and the `audio_available` flag are not modelled. Without the library, neither detector runs.
- `min_activation_count` and the legacy `silence_threshold` are not modelled. They are declared but never used.
- WakeUpLegacy.LegacyDetector.ListenStep takes and returns the two lists as values. In the source they are local lists of the loop, so no other object can see them being updated in place.
- WakeUpLegacy.LegacyDetector.DetectSyllablePattern: the window is scanned up to the shorter of the two lists, as `zip` does. Only the volume list is compared with 10, as in the source.
- WakeUp.CalibrationFrameCount: computes `int(3.0 * 44100 / 1024)` in exact arithmetic, not floating point. Both give 129.
