/**
 * The facing pass schedule of `CAM.slice` (src/mode/cam/slice.js:148-168):
 * the top offset `ztOff` above the part is cut in passes no deeper than the
 * roughing down-step, the first at `zMax + ztOff - zstep`, each next one
 * `zstep` lower, down to `zMax`. The ring geometry of each pass is foreign;
 * only the pass heights are modelled. `z -= zstep` is exact here.
 */
module CamFacing {
  import opened CamJob

  /** JavaScript's `x % 1` (the remainder takes the sign of `x`). */
  function JsFrac(x: real): real
  {
    if x >= 0.0 then x - x.Floor as real else x + (-x).Floor as real
  }

  lemma JsFracPositive(x: real)
    ensures JsFrac(x) > 0.0 <==> x > 0.0 && x != x.Floor as real
  {
  }

  /** `zstep` (slice.js:152-153) for a finite, positive roughing down-step. */
  function FacingStep(ztOff: real, roughDown: real): real
    requires roughDown > 0.0
  {
    var zdiv := ztOff / roughDown;
    if JsFrac(zdiv) > 0.0 then ztOff / (zdiv.Floor + 1) as real else roughDown
  }

  /** The offset actually used: slice.js:154-157 lifts a zero offset to one step when `camRoughTop` is set. */
  function FacingOffset(ztOff: real, roughDown: real, roughTop: bool): real
    requires roughDown > 0.0
  {
    if roughTop && ztOff == 0.0 then FacingStep(ztOff, roughDown) else ztOff
  }

  /** How many passes fit: the k-th pass (from 0) is at `zMax + off - (k+1)*step`. */
  function Passes(off: real, step: real): nat
    requires step > 0.0
  {
    if off / step >= 0.0 then (off / step).Floor else 0
  }

  /** The height of pass k (from 0). */
  function PassZ(zMax: real, off: real, step: real, k: nat): real
  {
    zMax + off - (k + 1) as real * step
  }

  /** The pass heights the facing loop emits, as a specification. */
  function FacingSchedule(zMax: real, off: real, step: real): (zs: seq<real>)
    requires step > 0.0
  {
    seq(Passes(off, step), (k: int) requires 0 <= k => PassZ(zMax, off, step, k))
  }

  /** The offset is a whole, non-negative number of down-steps. */
  predicate WholeSteps(ztOff: real, roughDown: real)
    requires roughDown > 0.0
  {
    var q := ztOff / roughDown;
    q >= 0.0 && q == q.Floor as real
  }

  /**
   * The step is positive and never exceeds the roughing down-step, and is it
   * exactly when the offset is a whole number of down-steps.
   */
  lemma FacingStepBounds(ztOff: real, roughDown: real)
    requires roughDown > 0.0
    ensures 0.0 < FacingStep(ztOff, roughDown) <= roughDown
    ensures WholeSteps(ztOff, roughDown) ==> FacingStep(ztOff, roughDown) == roughDown
  {
    var zdiv := ztOff / roughDown;
    if JsFrac(zdiv) > 0.0 {
      var n := (zdiv.Floor + 1) as real;
      assert zdiv > 0.0 && ztOff > 0.0;
      assert zdiv < n;
      assert zdiv * roughDown == ztOff;
      MulLess(zdiv, n, roughDown);
      DivLess(ztOff, n, roughDown);
    }
  }

  lemma MulLess(a: real, b: real, c: real)
    requires a < b && c > 0.0
    ensures a * c < b * c
  {
  }

  lemma DivLess(a: real, n: real, r: real)
    requires n > 0.0 && a < r * n
    ensures a / n < r
  {
  }

  lemma MulLe(a: real, b: real, c: real)
    requires a <= b && c > 0.0
    ensures a * c <= b * c
  {
  }

  lemma MulLeInv(a: real, b: real, c: real)
    requires a * c <= b * c && c > 0.0
    ensures a <= b
  {
  }

  lemma DivOf(a: real, b: real, c: real)
    requires c > 0.0 && a == b * c
    ensures a / c == b
  {
  }

  lemma PassZNext(zMax: real, off: real, step: real, k: nat)
    ensures PassZ(zMax, off, step, k + 1) == PassZ(zMax, off, step, k) - step
  {
  }

  /** Pass k lies at or above the part top exactly when k is below the pass count. */
  lemma PassFits(zMax: real, off: real, step: real, k: nat)
    requires step > 0.0
    ensures PassZ(zMax, off, step, k) >= zMax <==> k < Passes(off, step)
  {
    var q := off / step;
    var m := (k + 1) as real;
    assert q * step == off;
    if PassZ(zMax, off, step, k) >= zMax {
      assert m * step <= q * step;
      MulLeInv(m, q, step);
    }
    if k < Passes(off, step) {
      assert m <= q;
      MulLe(m, q, step);
    }
  }

  /** A positive offset is cut in a whole number of equal steps. */
  lemma FacingStepDivides(ztOff: real, roughDown: real)
    requires roughDown > 0.0 && ztOff > 0.0
    ensures Passes(ztOff, FacingStep(ztOff, roughDown)) as real * FacingStep(ztOff, roughDown) == ztOff
    ensures Passes(ztOff, FacingStep(ztOff, roughDown)) >= 1
  {
    var zdiv := ztOff / roughDown;
    FacingStepBounds(ztOff, roughDown);
    var step := FacingStep(ztOff, roughDown);
    if JsFrac(zdiv) > 0.0 {
      var n := zdiv.Floor + 1;
      assert step * n as real == ztOff;
      DivOf(ztOff, n as real, step);
    } else {
      assert zdiv == zdiv.Floor as real;
      assert step == roughDown;
      assert zdiv > 0.0;
      assert zdiv.Floor >= 1;
    }
  }

  /** No facing pass is below the part top. */
  lemma FacingAboveTop(zMax: real, off: real, step: real)
    requires step > 0.0
    ensures forall k :: 0 <= k < |FacingSchedule(zMax, off, step)| ==> FacingSchedule(zMax, off, step)[k] >= zMax
  {
    forall k: nat | k < Passes(off, step) ensures PassZ(zMax, off, step, k) >= zMax {
      PassFits(zMax, off, step, k);
    }
  }

  /** Consecutive facing passes are one step apart. */
  lemma FacingDescends(zMax: real, off: real, step: real)
    requires step > 0.0
    ensures forall k :: 0 < k < |FacingSchedule(zMax, off, step)| ==>
      FacingSchedule(zMax, off, step)[k] == FacingSchedule(zMax, off, step)[k - 1] - step
  {
    forall k: nat | 0 < k < Passes(off, step)
      ensures PassZ(zMax, off, step, k) == PassZ(zMax, off, step, k - 1) - step
    {
      PassZNext(zMax, off, step, k - 1);
    }
  }

  /**
   * With a positive offset the schedule is not empty, its first pass is one
   * step below the stock top and its last is exactly at the part top; with a
   * non-positive offset nothing is faced.
   */
  lemma FacingEnds(zMax: real, ztOff: real, roughDown: real, roughTop: bool)
    requires roughDown > 0.0
    ensures var off := FacingOffset(ztOff, roughDown, roughTop);
      var zs := FacingSchedule(zMax, off, FacingStep(off, roughDown));
      && (off > 0.0 ==> |zs| >= 1 && zs[0] == zMax + off - FacingStep(off, roughDown) && zs[|zs| - 1] == zMax)
      && (off <= 0.0 ==> zs == [])
  {
    var off := FacingOffset(ztOff, roughDown, roughTop);
    var step := FacingStep(off, roughDown);
    FacingStepBounds(off, roughDown);
    if off > 0.0 {
      FacingStepDivides(off, roughDown);
    } else {
      PassFits(zMax, off, step, 0);
    }
  }

  /**
   * The facing loop of slice.js:152-167. A disabled roughing down-step
   * (`Infinity`) makes the first height `-Infinity` in the source, so no pass
   * is emitted. A negative finite down-step passes the checks of `CAM.slice`
   * (`CamJob.NegativeRoughDownAccepted`) but makes `zstep` negative, so the
   * source's loop climbs and never ends; the model requires a positive one.
   */
  method FacingLevels(zMax: real, ztOff: real, roughDown: ExtReal, roughTop: bool) returns (zs: seq<real>)
    requires roughDown.Fin? ==> roughDown.v > 0.0
    ensures roughDown.Inf? ==> zs == []
    ensures roughDown.Fin? ==>
      var off := FacingOffset(ztOff, roughDown.v, roughTop);
      zs == FacingSchedule(zMax, off, FacingStep(off, roughDown.v))
  {
    if roughDown.Inf? {
      return [];
    }
    var rd := roughDown.v;
    var off := ztOff;
    var zstep := FacingStep(off, rd);
    if roughTop && off == 0.0 {
      off := zstep;
    }
    assert FacingStep(ztOff, rd) == FacingStep(off, rd) by {
      if roughTop && ztOff == 0.0 {
        assert rd / rd == 1.0 && (rd / rd).Floor == 1;
      }
    }
    FacingStepBounds(off, rd);
    zs := FacingLoop(zMax, off, zstep);
  }

  /** The `for` loop of slice.js:158 over pass heights, stepping by `zstep`. */
  method FacingLoop(zMax: real, off: real, zstep: real) returns (zs: seq<real>)
    requires zstep > 0.0
    ensures zs == FacingSchedule(zMax, off, zstep)
  {
    zs := [];
    var z := zMax + off - zstep;
    ghost var n := Passes(off, zstep);
    PassFits(zMax, off, zstep, 0);
    while z >= zMax
      invariant z == PassZ(zMax, off, zstep, |zs|)
      invariant |zs| <= n
      invariant forall k :: 0 <= k < |zs| ==> zs[k] == PassZ(zMax, off, zstep, k)
      invariant z >= zMax <==> |zs| < n
      decreases n - |zs|
    {
      PassZNext(zMax, off, zstep, |zs|);
      zs := zs + [z];
      z := z - zstep;
      PassFits(zMax, off, zstep, |zs|);
    }
  }
}
