/**
 * Loudness of one audio frame and the start-up noise calibration.
 *
 * Both detectors (voice/wake_up.py and voice/wake_up_old.py) compute the
 * volume of a frame and collect calibration samples with the same code;
 * the two differ only in how the threshold is derived from the mean, which
 * lives in their own modules.
 */
module Audio {

  /** One signed 16-bit PCM sample, as the capture stream delivers them. */
  newtype int16 = x: int | -0x8000 <= x < 0x8000

  function Square(x: int): (r: nat)
  {
    x * x
  }

  /** Sum of the squared samples of a frame, exact: the squares of 16-bit values never overflow here. */
  function SumOfSquares(frame: seq<int16>): (r: int)
    ensures r >= 0
  {
    if frame == [] then 0
    else SumOfSquares(frame[..|frame| - 1]) + Square(frame[|frame| - 1] as int)
  }

  /** Mean of the squared samples of a non-empty frame. */
  function MeanSquare(frame: seq<int16>): (r: real)
    requires frame != []
    ensures r >= 0.0
  {
    SumOfSquares(frame) as real / |frame| as real
  }

  /** `v` is the root-mean-square loudness of `frame`; an empty frame is silent. */
  ghost predicate IsRms(frame: seq<int16>, v: real)
  {
    if frame == [] then v == 0.0 else v >= 0.0 && v * v == MeanSquare(frame)
  }

  /**
   * The volume of one frame. The square root of the mean square is
   * computed by the numeric library; it is passed in as `root`, and only
   * needs to be the root when the frame is not empty.
   */
  function CalculateVolume(frame: seq<int16>, root: real): (v: real)
    requires frame != [] ==> root >= 0.0 && root * root == MeanSquare(frame)
    ensures IsRms(frame, v)
    ensures v >= 0.0
    ensures frame == [] ==> v == 0.0
  {
    if |frame| == 0 then 0.0 else root
  }

  /** A non-negative square root is unique. */
  lemma RootIsUnique(v: real, w: real)
    requires v >= 0.0 && w >= 0.0 && v * v == w * w
    ensures v == w
  {
    assert (v - w) * (v + w) == v * v - w * w == 0.0;
    if v + w != 0.0 {
      assert v - w == 0.0;
    }
  }

  lemma {:induction false} SumOfSquaresOfConstant(frame: seq<int16>, a: int16)
    requires forall i :: 0 <= i < |frame| ==> frame[i] == a
    ensures SumOfSquares(frame) == |frame| * Square(a as int)
  {
    if frame != [] {
      SumOfSquaresOfConstant(frame[..|frame| - 1], a);
    }
  }

  /** A frame of all-zero samples has volume 0. */
  lemma SilentFrameHasNoVolume(frame: seq<int16>, v: real)
    requires forall i :: 0 <= i < |frame| ==> frame[i] == 0
    requires IsRms(frame, v)
    ensures v == 0.0
  {
    if frame != [] {
      SumOfSquaresOfConstant(frame, 0);
      RootIsUnique(v, 0.0);
    }
  }

  /** A frame whose samples all equal `a` has volume |a|. */
  lemma ConstantFrameVolume(frame: seq<int16>, a: int16, v: real)
    requires frame != []
    requires forall i :: 0 <= i < |frame| ==> frame[i] == a
    requires IsRms(frame, v)
    ensures v == (if a < 0 then -(a as int) else a as int) as real
  {
    SumOfSquaresOfConstant(frame, a);
    var m: int := if a < 0 then -(a as int) else a as int;
    assert m * m == Square(a as int);
    MeanOfRepeated(|frame|, m * m);
    RealSquare(m);
    RootIsUnique(v, m as real);
  }

  lemma MeanOfRepeated(n: nat, k: int)
    requires n > 0
    ensures (n * k) as real / n as real == k as real
  {
  }

  lemma RealSquare(m: int)
    ensures (m as real) * (m as real) == (m * m) as real
  {
  }

  /** Sum of a sequence of volumes. */
  function Sum(s: seq<real>): real
  {
    if s == [] then 0.0 else Sum(s[..|s| - 1]) + s[|s| - 1]
  }

  /** Arithmetic mean, as the numeric library's `mean` computes it. */
  function Mean(s: seq<real>): real
    requires s != []
  {
    Sum(s) / |s| as real
  }

  lemma {:induction false} SumBetween(s: seq<real>, lo: real, hi: real)
    requires forall i :: 0 <= i < |s| ==> lo <= s[i] <= hi
    ensures |s| as real * lo <= Sum(s) <= |s| as real * hi
  {
    if s != [] {
      SumBetween(s[..|s| - 1], lo, hi);
    }
  }

  /** The mean lies between any lower and upper bound of the samples. */
  lemma MeanBetween(s: seq<real>, lo: real, hi: real)
    requires s != []
    requires forall i :: 0 <= i < |s| ==> lo <= s[i] <= hi
    ensures lo <= Mean(s) <= hi
  {
    SumBetween(s, lo, hi);
    var n := |s| as real;
    assert Mean(s) * n == Sum(s);
  }

  /** The mean of a constant sequence is that constant. */
  lemma MeanOfConstant(s: seq<real>, c: real)
    requires s != []
    requires forall i :: 0 <= i < |s| ==> s[i] == c
    ensures Mean(s) == c
  {
    MeanBetween(s, c, c);
  }

  /** Outcome of one read of the capture stream: a frame (already reduced to its volume) or an error. */
  datatype ReadResult = Frame(volume: real) | ReadError

  /**
   * The volumes collected by the calibration loop: one per read, for at
   * most `samplesNeeded` outcomes, stopping at the first read that fails.
   */
  function CollectedNoise(outcomes: seq<ReadResult>, samplesNeeded: nat): (noise: seq<real>)
    requires samplesNeeded <= |outcomes|
    ensures |noise| <= samplesNeeded
  {
    if samplesNeeded == 0 || outcomes[0] == ReadError then []
    else [outcomes[0].volume] + CollectedNoise(outcomes[1..], samplesNeeded - 1)
  }

  /**
   * The collected volumes are those of the first reads, in order, each of
   * which succeeded; collection ends early only at a failed read.
   */
  lemma {:induction false} CollectedNoiseIsPrefixBeforeError(outcomes: seq<ReadResult>, samplesNeeded: nat)
    requires samplesNeeded <= |outcomes|
    ensures var noise := CollectedNoise(outcomes, samplesNeeded);
      && (forall i :: 0 <= i < |noise| ==> outcomes[i] == Frame(noise[i]))
      && (|noise| < samplesNeeded ==> outcomes[|noise|] == ReadError)
  {
    if samplesNeeded > 0 && outcomes[0] != ReadError {
      CollectedNoiseIsPrefixBeforeError(outcomes[1..], samplesNeeded - 1);
    }
  }

  /** The calibration loop: outcomes up to `samplesNeeded` frames and stops at the first failed read. */
  method CollectNoiseSamples(outcomes: seq<ReadResult>, samplesNeeded: nat) returns (noiseSamples: seq<real>)
    requires samplesNeeded <= |outcomes|
    ensures noiseSamples == CollectedNoise(outcomes, samplesNeeded)
  {
    noiseSamples := [];
    var i := 0;
    while i < samplesNeeded
      invariant i == |noiseSamples| <= samplesNeeded
      invariant CollectedNoise(outcomes, samplesNeeded) == noiseSamples + CollectedNoise(outcomes[i..], samplesNeeded - i)
    {
      assert outcomes[i..][1..] == outcomes[i + 1..];
      assert CollectedNoise(outcomes[i..], samplesNeeded - i)
        == if outcomes[i] == ReadError then []
           else [outcomes[i].volume] + CollectedNoise(outcomes[i + 1..], samplesNeeded - i - 1);
      if outcomes[i] == ReadError {
        break;
      }
      noiseSamples := noiseSamples + [outcomes[i].volume];
      i := i + 1;
    }
  }
}
