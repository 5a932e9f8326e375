/**
 * The frames-per-second readout that both versions of the game draw in
 * `render()`. The value shown is resampled from the measured FPS once every
 * `frameRate / 4` frames (a quarter second at the frame-rate cap), clamped
 * to the cap, and held in between. The measured FPS is an input: it comes
 * from a wall clock.
 */
module FpsDisplay {

  /**
   * The divisor the source writes, `frameRate / 4` on `int`: C++ truncates
   * toward zero, so a cap strictly between -4 and 4 gives 0.
   */
  function WrittenPeriod(frameRate: int): (q: int)
    ensures q == 0 <==> -4 < frameRate < 4
    ensures frameRate >= 0 ==> 4 * q <= frameRate < 4 * q + 4
    ensures frameRate < 0 ==> 4 * q - 4 < frameRate <= 4 * q
  {
    if frameRate >= 0 then frameRate / 4 else -((-frameRate) / 4)
  }

  /**
   * Frames between two samples: a quarter of the cap, truncated toward zero
   * as the source computes it, and 1 where that quarter would be 0 (the
   * source then divides by zero).
   */
  function SamplePeriod(frameRate: int): (q: int)
    ensures q != 0
    ensures frameRate >= 4 ==> 1 <= q && 4 * q <= frameRate < 4 * q + 4
    ensures frameRate <= -4 ==> q <= -1 && 4 * q - 4 < frameRate <= 4 * q
    ensures -4 < frameRate < 4 ==> q == 1
  {
    if WrittenPeriod(frameRate) == 0 then 1 else WrittenPeriod(frameRate)
  }

  /**
   * Whether frame `frameCount` resamples the readout. For a count that is
   * not negative, C++'s `%` and Dafny's agree: both give the remainder in
   * `[0, |q|)`.
   */
  predicate IsSampleFrame(frameCount: nat, frameRate: int)
  {
    frameCount % SamplePeriod(frameRate) == 0
  }

  /**
   * The displayed FPS after the render of frame `frameCount`: on a sample
   * frame with the readout shown it is the measured `fps` capped at
   * `frameRate`; otherwise it keeps its value.
   */
  function NextDisplayedFps(displayed: int, fps: int, frameRate: int, showFps: bool, frameCount: nat): (r: int)
    ensures showFps && IsSampleFrame(frameCount, frameRate) ==>
      r <= fps && r <= frameRate && (r == fps || r == frameRate)
    ensures !(showFps && IsSampleFrame(frameCount, frameRate)) ==> r == displayed
  {
    if showFps && frameCount % SamplePeriod(frameRate) == 0 then
      if fps > frameRate then frameRate else fps
    else displayed
  }

  /** The displayed FPS after one render per measured value in `samples`, from frame `frameCount` on. */
  function RenderRun(displayed: int, frameCount: nat, samples: seq<int>, frameRate: int, showFps: bool): int
    decreases |samples|
  {
    if samples == [] then displayed
    else RenderRun(NextDisplayedFps(displayed, samples[0], frameRate, showFps, frameCount),
                   frameCount + 1, samples[1..], frameRate, showFps)
  }

  /** With the readout hidden, the displayed value never moves. */
  lemma {:induction false} HiddenReadoutFrozen(displayed: int, frameCount: nat, samples: seq<int>, frameRate: int)
    ensures RenderRun(displayed, frameCount, samples, frameRate, false) == displayed
    decreases |samples|
  {
    if samples != [] {
      HiddenReadoutFrozen(displayed, frameCount + 1, samples[1..], frameRate);
    }
  }

  /** A displayed value within the cap stays within it while the cap is unchanged. */
  lemma {:induction false} CapKept(displayed: int, frameCount: nat, samples: seq<int>, frameRate: int, showFps: bool)
    requires displayed <= frameRate
    ensures RenderRun(displayed, frameCount, samples, frameRate, showFps) <= frameRate
    decreases |samples|
  {
    if samples != [] {
      CapKept(NextDisplayedFps(displayed, samples[0], frameRate, showFps, frameCount),
              frameCount + 1, samples[1..], frameRate, showFps);
    }
  }

  lemma MulAtLeast(q: int, e: int)
    requires q >= 1 && e >= 1
    ensures q * e >= q
  {
    if e > 1 {
      MulAtLeast(q, e - 1);
      assert q * e == q * (e - 1) + q;
    }
  }

  /** Euclidean remainders by a positive divisor are unique. */
  lemma ModUnique(x: int, q: int, d: int, r: int)
    requires q >= 1 && 0 <= r < q && x == q * d + r
    ensures x % q == r
  {
    var d', r' := x / q, x % q;
    var e := d - d';
    assert q * e == r' - r;
    if e >= 1 {
      MulAtLeast(q, e);
    } else if e <= -1 {
      assert q * (-e) == -(q * e);
      MulAtLeast(q, -e);
    }
  }

  /** A multiple of `-q` is a multiple of `q`: Dafny's remainder depends only on the divisor's size. */
  lemma ModNegated(x: int, q: int)
    requires q >= 1 && x % q == 0
    ensures x % -q == 0
  {
    var d := x / q;
    assert x == (-q) * (-d);
    var d', r' := x / -q, x % -q;
    assert x == q * (-d') + r';
    ModUnique(x, q, -d', r');
  }

  /** Among any `q` consecutive frame numbers from `c` on, one is a multiple of `q`. */
  lemma NextMultiple(c: nat, q: int) returns (j: nat)
    requires q >= 1
    ensures j < q && (c + j) % q == 0
  {
    var k := c / q;
    if c % q == 0 {
      j := 0;
    } else {
      j := q - c % q;
      assert c + j == q * (k + 1);
      ModUnique(c + j, q, k + 1, 0);
    }
  }

  /** Once a sample frame lies within the run, the run ends within the cap. */
  lemma {:induction false} SampledInRun(displayed: int, frameCount: nat, samples: seq<int>, frameRate: int, j: nat)
    requires j < |samples| && IsSampleFrame(frameCount + j, frameRate)
    ensures RenderRun(displayed, frameCount, samples, frameRate, true) <= frameRate
    decreases j
  {
    var next := NextDisplayedFps(displayed, samples[0], frameRate, true, frameCount);
    if j == 0 {
      CapKept(next, frameCount + 1, samples[1..], frameRate, true);
    } else {
      SampledInRun(next, frameCount + 1, samples[1..], frameRate, j - 1);
    }
  }

  /**
   * With the readout shown, after a quarter second's worth of frames
   * (`|SamplePeriod(frameRate)|` renders, which is `frameRate / 4` for a cap
   * of 4 or more) the displayed FPS is within the cap, whatever it was
   * before and whatever was measured.
   */
  lemma CapReachedWithinQuarterSecond(displayed: int, frameCount: nat, samples: seq<int>, frameRate: int)
    requires var q := SamplePeriod(frameRate); |samples| >= if q < 0 then -q else q
    ensures RenderRun(displayed, frameCount, samples, frameRate, true) <= frameRate
  {
    var q := SamplePeriod(frameRate);
    if q > 0 {
      var j := NextMultiple(frameCount, q);
      SampledInRun(displayed, frameCount, samples, frameRate, j);
    } else {
      var j := NextMultiple(frameCount, -q);
      ModNegated(frameCount + j, -q);
      SampledInRun(displayed, frameCount, samples, frameRate, j);
    }
  }
}
