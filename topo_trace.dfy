/**
 * The contour traces of the `Topo` constructor (src/mode/cam/topo.js): the
 * trace builder `push_point` / `end_poly` over the closure state
 * `newtrace`, `latent`, `lastP` and `sliceout` (137-180), and the X and Y
 * walks that probe the grid, raise tabs, break at the clip boundary and
 * emit one slice per walk line that produced traces (281-364).
 *
 * The slope angle `atan2(dz, dxy) * RAD2DEG` between the last and the new
 * point is the parameter `slope`; `isInPolygon` against the tab polygons
 * and against `clipTo` are the parameters `inTab` and `inClipTo`.
 */
module TopoTrace {
  import opened Geometry
  import opened Wrappers
  import TopoGrid

  // ---------------------------------------------------------------- builder

  /** The builder's state: the open trace, the held-back end of a flat run, the last point seen, the finished traces. */
  datatype TraceState = TraceState(newtrace: seq<Point>, latent: Option<Point>, lastP: Option<Point>, sliceout: seq<seq<Point>>)

  /** The open trace with the held-back latent point appended. */
  function Flushed(st: TraceState): (t: seq<Point>)
    ensures |t| == |st.newtrace| + (if st.latent.Some? then 1 else 0)
    ensures t[..|st.newtrace|] == st.newtrace
  {
    if st.latent.Some? then st.newtrace + [st.latent.value] else st.newtrace
  }

  /** `end_poly` (topo.js:167-180). */
  function Ended(st: TraceState): TraceState
  {
    var t := Flushed(st);
    TraceState([], None, None, if |t| > 1 then st.sliceout + [t] else st.sliceout)
  }

  /** `push_point` (topo.js:137-165): `slope(lastP, newP)` is the angle the curves-only test compares with maxangle. */
  function Pushed(st: TraceState, p: Point, curvesOnly: bool, maxangle: real, slope: (Point, Point) -> real): TraceState
  {
    if st.lastP.Some? && st.lastP.value.z == p.z then
      if curvesOnly then Ended(st).(lastP := Some(p))
      else st.(latent := Some(p), lastP := Some(p))
    else
      var t := Flushed(st);
      if curvesOnly && st.lastP.Some? && slope(st.lastP.value, p) > maxangle then
        st.(newtrace := t, latent := None, lastP := Some(p))
      else
        st.(newtrace := t + [p], latent := None, lastP := Some(p))
  }

  /** No three consecutive points of t have the same z. */
  ghost predicate NoThree(t: seq<Point>)
  {
    forall i :: 0 <= i < |t| - 2 ==> !(t[i].z == t[i + 1].z && t[i + 1].z == t[i + 2].z)
  }

  /** The trace's last two points differ in z. */
  predicate EndsOnChange(t: seq<Point>)
  {
    |t| >= 2 ==> t[|t| - 2].z != t[|t| - 1].z
  }

  /** Every finished trace has at least two points, and without curves-only no flat triple. */
  ghost predicate TracesOk(sliceout: seq<seq<Point>>, curvesOnly: bool)
  {
    forall k :: 0 <= k < |sliceout| ==> |sliceout[k]| >= 2 && (!curvesOnly ==> NoThree(sliceout[k]))
  }

  /** The invariant of the builder's state. */
  ghost predicate Inv(st: TraceState, curvesOnly: bool)
  {
    && TracesOk(st.sliceout, curvesOnly)
    && (curvesOnly ==> st.latent == None)
    && (!curvesOnly ==>
          && NoThree(st.newtrace) && EndsOnChange(st.newtrace)
          && (st.lastP == None ==> st.newtrace == [] && st.latent == None)
          && (st.lastP.Some? ==>
                && st.newtrace != []
                && (st.latent == None ==> st.newtrace[|st.newtrace| - 1] == st.lastP.value)
                && (st.latent.Some? ==> st.latent == st.lastP && st.newtrace[|st.newtrace| - 1].z == st.lastP.value.z)))
  }

  /** Appending keeps NoThree unless the trace already ends on a flat pair at the new point's z. */
  lemma NoThreeSnoc(t: seq<Point>, p: Point)
    requires NoThree(t)
    requires |t| >= 2 && t[|t| - 2].z == t[|t| - 1].z ==> p.z != t[|t| - 1].z
    ensures NoThree(t + [p])
  {
    var u := t + [p];
    forall i | 0 <= i < |u| - 2
      ensures !(u[i].z == u[i + 1].z && u[i + 1].z == u[i + 2].z)
    {
      if i + 2 < |t| {
        assert u[i] == t[i] && u[i + 1] == t[i + 1] && u[i + 2] == t[i + 2];
      }
    }
  }

  /**
   * `end_poly` flushes the latent point into the trace, keeps the trace only
   * when it has at least two points, and always leaves an empty trace with
   * no latent and no last point; it preserves the invariant.
   */
  lemma EndPolyShape(st: TraceState, curvesOnly: bool)
    requires Inv(st, curvesOnly)
    ensures var r := Ended(st);
      && r.newtrace == [] && r.latent == None && r.lastP == None
      && (|Flushed(st)| >= 2 ==> r.sliceout == st.sliceout + [Flushed(st)])
      && (|Flushed(st)| < 2 ==> r.sliceout == st.sliceout)
      && Inv(r, curvesOnly)
  {
    var t := Flushed(st);
    if !curvesOnly && st.latent.Some? {
      NoThreeSnoc(st.newtrace, st.latent.value);
    }
    if |t| > 1 {
      var out := st.sliceout + [t];
      forall k | 0 <= k < |out|
        ensures |out[k]| >= 2 && (!curvesOnly ==> NoThree(out[k]))
      {
        if k < |st.sliceout| {
          assert out[k] == st.sliceout[k];
        }
      }
    }
  }

  /** `push_point` preserves the invariant. */
  lemma PushPreserves(st: TraceState, p: Point, curvesOnly: bool, maxangle: real, slope: (Point, Point) -> real)
    requires Inv(st, curvesOnly)
    ensures Inv(Pushed(st, p, curvesOnly, maxangle, slope), curvesOnly)
  {
    EndPolyShape(st, curvesOnly);
    if !curvesOnly && !(st.lastP.Some? && st.lastP.value.z == p.z) {
      var t := Flushed(st);
      if st.latent.Some? {
        NoThreeSnoc(st.newtrace, st.latent.value);
        assert t[|t| - 1] == st.latent.value;
      }
      NoThreeSnoc(t, p);
      var u := t + [p];
      if |u| >= 2 {
        assert u[|u| - 2] == t[|t| - 1];
      }
    }
  }

  /**
   * Without curves-only, a point at the same z as the last one is held back
   * as latent and the open trace is untouched: a run of equal-z points keeps
   * only its first point (already in the trace) and its last (the latent).
   * The next point at another z flushes the latent before itself.
   */
  lemma FlatRun(st: TraceState, p: Point, maxangle: real, slope: (Point, Point) -> real)
    requires Inv(st, false)
    ensures st.lastP.Some? && st.lastP.value.z == p.z ==>
      var r := Pushed(st, p, false, maxangle, slope);
      r.newtrace == st.newtrace && r.latent == Some(p) && r.sliceout == st.sliceout
    ensures !(st.lastP.Some? && st.lastP.value.z == p.z) ==>
      Pushed(st, p, false, maxangle, slope).newtrace == Flushed(st) + [p]
  {
  }

  /**
   * In curves-only mode a point at the same z as the last one ends the
   * trace and is not added; a point whose slope from the last one exceeds
   * maxangle is dropped but becomes the last point.
   */
  lemma CurvesOnly(st: TraceState, p: Point, maxangle: real, slope: (Point, Point) -> real)
    requires Inv(st, true)
    ensures st.lastP.Some? && st.lastP.value.z == p.z ==>
      var r := Pushed(st, p, true, maxangle, slope);
      r.newtrace == [] && r.sliceout == Ended(st).sliceout && r.lastP == Some(p) && r.latent == None
    ensures st.lastP.Some? && st.lastP.value.z != p.z && slope(st.lastP.value, p) > maxangle ==>
      var r := Pushed(st, p, true, maxangle, slope);
      r.newtrace == st.newtrace && r.sliceout == st.sliceout && r.lastP == Some(p)
    ensures (st.lastP.None? || (st.lastP.value.z != p.z && slope(st.lastP.value, p) <= maxangle)) ==>
      var r := Pushed(st, p, true, maxangle, slope);
      r.newtrace == st.newtrace + [p] && r.sliceout == st.sliceout && r.lastP == Some(p)
  {
  }

  /** The state after pushing the points of ps, in order. */
  function PushAll(st: TraceState, ps: seq<Point>, curvesOnly: bool, maxangle: real, slope: (Point, Point) -> real): TraceState
  {
    if ps == [] then st
    else Pushed(PushAll(st, ps[..|ps| - 1], curvesOnly, maxangle, slope), ps[|ps| - 1], curvesOnly, maxangle, slope)
  }

  /** All points of ps are at height z. */
  predicate AtHeight(ps: seq<Point>, z: real)
  {
    forall i :: 0 <= i < |ps| ==> ps[i].z == z
  }

  /**
   * The state after a fresh builder takes a non-empty run of points at one
   * height: without curves-only, the first point is in the trace and, from
   * the second point on, the last is held back as latent; in curves-only
   * mode every point after the first ends the (one-point) trace, so the
   * trace is empty from then on. Nothing is finished either way.
   */
  lemma {:induction false} FlatRunState(ps: seq<Point>, z: real, curvesOnly: bool, maxangle: real, slope: (Point, Point) -> real)
    requires |ps| >= 1 && AtHeight(ps, z)
    ensures var r := PushAll(Fresh(), ps, curvesOnly, maxangle, slope);
      && r.sliceout == [] && r.lastP == Some(ps[|ps| - 1])
      && (!curvesOnly ==> r.newtrace == [ps[0]] && r.latent == (if |ps| >= 2 then Some(ps[|ps| - 1]) else None))
      && (curvesOnly ==> r.latent == None && r.newtrace == (if |ps| == 1 then [ps[0]] else []))
  {
    var init := ps[..|ps| - 1];
    if |ps| == 1 {
      assert init == [];
    } else {
      assert AtHeight(init, z) && init[0] == ps[0] && init[|init| - 1] == ps[|ps| - 2];
      FlatRunState(init, z, curvesOnly, maxangle, slope);
    }
  }

  /**
   * A run of points at one height, pushed into a fresh builder and ended,
   * gives exactly one trace of its first and last point without
   * curves-only (when the run has two points or more), and no trace at all
   * in curves-only mode.
   */
  lemma FlatRunMerged(ps: seq<Point>, z: real, curvesOnly: bool, maxangle: real, slope: (Point, Point) -> real)
    requires |ps| >= 1 && AtHeight(ps, z)
    ensures var out := Ended(PushAll(Fresh(), ps, curvesOnly, maxangle, slope)).sliceout;
      && (!curvesOnly ==> out == if |ps| >= 2 then [[ps[0], ps[|ps| - 1]]] else [])
      && (curvesOnly ==> out == [])
  {
    FlatRunState(ps, z, curvesOnly, maxangle, slope);
    var r := PushAll(Fresh(), ps, curvesOnly, maxangle, slope);
    if !curvesOnly && |ps| >= 2 {
      assert Flushed(r) == [ps[0], ps[|ps| - 1]];
      assert [] + [Flushed(r)] == [[ps[0], ps[|ps| - 1]]];
    }
  }

  /** Every point in the builder's state satisfies P. */
  ghost predicate AllPoints(st: TraceState, P: Point -> bool)
  {
    && (forall i :: 0 <= i < |st.newtrace| ==> P(st.newtrace[i]))
    && (st.latent.Some? ==> P(st.latent.value))
    && (forall k, i :: 0 <= k < |st.sliceout| && 0 <= i < |st.sliceout[k]| ==> P(st.sliceout[k][i]))
  }

  /** The builder never invents a point: if every pushed point satisfies P, so does every traced one. */
  lemma EndKeeps(st: TraceState, P: Point -> bool)
    requires AllPoints(st, P)
    ensures AllPoints(Ended(st), P)
  {
    var t := Flushed(st);
    assert forall i :: 0 <= i < |t| ==> P(t[i]);
    var out := st.sliceout + [t];
    assert forall k, i :: 0 <= k < |out| && 0 <= i < |out[k]| ==> P(out[k][i]);
  }

  lemma PushKeeps(st: TraceState, p: Point, curvesOnly: bool, maxangle: real, slope: (Point, Point) -> real, P: Point -> bool)
    requires AllPoints(st, P) && P(p)
    ensures AllPoints(Pushed(st, p, curvesOnly, maxangle, slope), P)
  {
    EndKeeps(st, P);
    var t := Flushed(st);
    assert forall i :: 0 <= i < |t| ==> P(t[i]);
    assert forall i :: 0 <= i < |t + [p]| ==> P((t + [p])[i]);
  }

  /**
   * The closure state of the `Topo` constructor, with the operations that
   * update it in place.
   */
  class TraceBuilder {
    var newtrace: seq<Point>
    var latent: Option<Point>
    var lastP: Option<Point>
    var sliceout: seq<seq<Point>>
    const curvesOnly: bool
    const maxangle: real
    const slope: (Point, Point) -> real

    function State(): TraceState
      reads this
    {
      TraceState(newtrace, latent, lastP, sliceout)
    }

    ghost predicate Valid()
      reads this
    {
      Inv(State(), curvesOnly)
    }

    constructor(curvesOnly: bool, maxangle: real, slope: (Point, Point) -> real)
      ensures Valid() && State() == TraceState([], None, None, [])
      ensures this.curvesOnly == curvesOnly && this.maxangle == maxangle && this.slope == slope
    {
      this.curvesOnly := curvesOnly;
      this.maxangle := maxangle;
      this.slope := slope;
      newtrace := [];
      latent := None;
      lastP := None;
      sliceout := [];
    }

    /** `end_poly()`. */
    method EndPoly()
      requires Valid()
      modifies this
      ensures Valid() && State() == Ended(old(State()))
    {
      EndPolyShape(State(), curvesOnly);
      if latent.Some? {
        newtrace := newtrace + [latent.value];
      }
      if |newtrace| > 0 {
        if |newtrace| > 1 {
          sliceout := sliceout + [newtrace];
        }
        newtrace := [];
      }
      latent := None;
      lastP := None;
    }

    /** `push_point(x, y, z)`. */
    method PushPoint(x: real, y: real, z: real)
      requires Valid()
      modifies this
      ensures Valid() && State() == Pushed(old(State()), Point(x, y, z), curvesOnly, maxangle, slope)
    {
      var newP := Point(x, y, z);
      PushPreserves(State(), newP, curvesOnly, maxangle, slope);
      if lastP.Some? && lastP.value.z == z {
        if curvesOnly {
          EndPoly();
        } else {
          latent := Some(newP);
        }
      } else {
        if latent.Some? {
          newtrace := newtrace + [latent.value];
          latent := None;
        }
        if curvesOnly && lastP.Some? {
          if slope(lastP.value, newP) > maxangle {
            lastP := Some(newP);
            return;
          }
        }
        newtrace := newtrace + [newP];
      }
      lastP := Some(newP);
    }

    /** The start of a walk line: `newtrace = newPolygon().setOpen(); sliceout = []`. */
    method StartLine()
      requires Valid() && lastP == None
      modifies this
      ensures Valid() && State() == TraceState([], None, None, [])
    {
      newtrace := [];
      sliceout := [];
    }
  }

  // ---------------------------------------------------------------- walks

  /** `Math.round`: the nearest integer, halves rounding up. */
  function Round(v: real): int
  {
    (v + 0.5).Floor
  }

  /** The test of a walk loop: `v <= end` or `v < end`. */
  predicate Fits(v: real, end: real, inclusive: bool)
  {
    if inclusive then v <= end else v < end
  }

  /** How many of the values v, v + step, v + 2*step, ... pass the loop test. */
  function Count(v: real, end: real, step: real, inclusive: bool): nat
    requires step > 0.0
  {
    var q := (end - v) / step;
    if inclusive then (if q < 0.0 then 0 else q.Floor + 1)
    else (if q <= 0.0 then 0 else -((-q).Floor))
  }

  lemma Cancel(a: real, b: real, s: real)
    requires s > 0.0 && a * s == b * s
    ensures a == b
  {
  }

  /** A value that passes the test leaves one fewer to come after one step; this bounds every walk loop. */
  lemma CountDown(v: real, end: real, step: real, inclusive: bool)
    requires step > 0.0
    ensures Fits(v, end, inclusive) <==> Count(v, end, step, inclusive) > 0
    ensures Fits(v, end, inclusive) ==> Count(v + step, end, step, inclusive) == Count(v, end, step, inclusive) - 1
  {
    var q := (end - v) / step;
    var q1 := (end - (v + step)) / step;
    assert q * step == end - v;
    assert q1 * step == end - v - step;
    Cancel(q1, q - 1.0, step);
    if q < 0.0 {
      assert (end - v) < 0.0 by { assert q * step < 0.0 * step; }
    } else if q == 0.0 {
      assert end - v == 0.0;
    } else {
      assert end - v > 0.0 by { assert q * step > 0.0 * step; }
    }
  }

  /** The settings and bounds both walks read. */
  datatype Walk = Walk(
    minX: real, maxX: real, minY: real, maxY: real,
    partOff: real, toolStep: real, resolution: real,
    stepsx: int, stepsy: int, gridDelta: int, zMin: real,
    profile: seq<TopoGrid.Offset>,
    tabsOn: bool, tabHeight: real, hasClip: bool)

  /** What the walks require: positive steps and a part of non-zero size on both axes. */
  predicate WalkOk(w: Walk)
  {
    w.toolStep > 0.0 && w.resolution > 0.0 && w.maxX > w.minX && w.maxY > w.minY
  }

  /** `Math.ceil`. */
  function Ceil(v: real): (c: int)
    ensures v <= c as real < v + 1.0
  {
    -((-v).Floor)
  }

  /**
   * What the `Topo` constructor reads (topo.js:21-66): the contour side and
   * tolerance, the tool's diameter and step-over, the part's bounding box,
   * z bottom, the tool profile and the tab settings. `hasClip` says whether
   * `clipTo` is set.
   */
  datatype TopoSettings = TopoSettings(
    inside: bool, resolution: real, toolDiameter: real, contourOver: real,
    minX: real, maxX: real, minY: real, maxY: real, minZ: real, zBottom: real,
    profile: seq<TopoGrid.Offset>, tabsOn: bool, tabsHeight: real, hasClip: bool)

  /** The values the constructor derives for the walks (topo.js:32-66). */
  function WalkOf(ts: TopoSettings): (w: Walk)
    requires ts.resolution > 0.0
    ensures w.minX == ts.minX && w.maxX == ts.maxX && w.minY == ts.minY && w.maxY == ts.maxY
    ensures w.resolution == ts.resolution && w.profile == ts.profile
    ensures w.tabsOn == ts.tabsOn && w.hasClip == ts.hasClip
    ensures (w.stepsx - 1) as real < (ts.maxX - ts.minX) / ts.resolution <= w.stepsx as real
    ensures (w.stepsy - 1) as real < (ts.maxY - ts.minY) / ts.resolution <= w.stepsy as real
    ensures w.zMin > ts.minZ && w.zMin > ts.zBottom
    ensures w.zMin == ts.minZ + 0.0001 || w.zMin == ts.zBottom + 0.0001
    ensures w.partOff == if ts.inside then 0.0 else ts.toolDiameter / 2.0 + ts.resolution
    ensures w.gridDelta as real <= w.partOff / ts.resolution < w.gridDelta as real + 1.0
    ensures ts.inside ==> w.gridDelta == 0
    ensures w.tabHeight == ts.tabsHeight + ts.zBottom
    ensures w.toolStep == ts.toolDiameter * ts.contourOver
  {
    var partOff := if ts.inside then 0.0 else ts.toolDiameter / 2.0 + ts.resolution;
    Walk(ts.minX, ts.maxX, ts.minY, ts.maxY,
         partOff, ts.toolDiameter * ts.contourOver, ts.resolution,
         Ceil((ts.maxX - ts.minX) / ts.resolution), Ceil((ts.maxY - ts.minY) / ts.resolution),
         (partOff / ts.resolution).Floor, Max(ts.minZ, ts.zBottom) + 0.0001,
         ts.profile, ts.tabsOn, ts.tabsHeight + ts.zBottom, ts.hasClip)
  }

  /**
   * A part of non-zero size, a positive tolerance and a tool with positive
   * diameter and step-over give walks that run: the grid has at least one
   * cell per axis, and outside the part the walks start at least one grid
   * cell beyond it.
   */
  lemma WalkOfOk(ts: TopoSettings)
    requires ts.resolution > 0.0 && ts.toolDiameter > 0.0 && ts.contourOver > 0.0
    requires ts.maxX > ts.minX && ts.maxY > ts.minY
    ensures WalkOk(WalkOf(ts))
    ensures WalkOf(ts).stepsx >= 1 && WalkOf(ts).stepsy >= 1
    ensures !ts.inside ==> WalkOf(ts).gridDelta >= 1
  {
    var w := WalkOf(ts);
    MulPos(ts.toolDiameter, ts.contourOver);
    DivPos(ts.maxX - ts.minX, ts.resolution);
    DivPos(ts.maxY - ts.minY, ts.resolution);
    if !ts.inside {
      DivAtLeastOne(w.partOff, ts.resolution);
    }
  }

  lemma MulPos(a: real, b: real)
    requires a > 0.0 && b > 0.0
    ensures a * b > 0.0
  {
  }

  lemma DivPos(a: real, b: real)
    requires a > 0.0 && b > 0.0
    ensures a / b > 0.0
  {
  }

  lemma DivAtLeastOne(a: real, b: real)
    requires a >= b > 0.0
    ensures a / b >= 1.0
  {
  }

  /**
   * A walk's settings with the tab and clip tests, the builder's, and
   * `probe`, the heights `toolAtZ` reads at grid points.
   */
  datatype Setup = Setup(w: Walk, inTab: (real, real) -> bool, inClipTo: (real, real) -> bool,
                         curvesOnly: bool, maxangle: real, slope: (Point, Point) -> real,
                         probe: (int, int) -> real)

  /** The probe is `toolAtZ` (topo.js:109-135) over the rastered grid. */
  ghost predicate Probes(su: Setup, grid: seq<real>)
  {
    forall x, y {:trigger TopoGrid.ToolZ(grid, su.w.stepsx, su.w.stepsy, su.w.profile, x, y, su.w.zMin)} ::
      su.probe(x, y) == TopoGrid.ToolZ(grid, su.w.stepsx, su.w.stepsy, su.w.profile, x, y, su.w.zMin)
  }

  /** `toolAtZ` over a grid, as a probe. */
  function ProbeOf(grid: seq<real>, w: Walk): (int, int) -> real
  {
    (x, y) => TopoGrid.ToolZ(grid, w.stepsx, w.stepsy, w.profile, x, y, w.zMin)
  }

  lemma ProbeOfProbes(su: Setup, grid: seq<real>)
    requires su.probe == ProbeOf(grid, su.w)
    ensures Probes(su, grid)
  {
  }

  /** The axis a walk line runs along: Y for the X contours, X for the Y contours. */
  datatype Axis = AlongY | AlongX

  function ModeOf(axis: Axis): CamMode
  {
    if axis == AlongY then CONTOUR_X else CONTOUR_Y
  }

  /** `toolAtZ` at a grid point, raised to the tab height inside a tab. */
  function Height(su: Setup, gx: int, gy: int, inTab: bool): (tv: real)
  {
    var w := su.w;
    var tv := su.probe(gx, gy);
    if w.tabsOn && tv < w.tabHeight && inTab then w.tabHeight else tv
  }

  /** The point probed at v on a walk line at `fixed` (grid indices g and gfixed). */
  function SamplePoint(su: Setup, axis: Axis, fixed: real, gfixed: int, v: real, g: int): Point
  {
    match axis
    case AlongY => Point(fixed, v, Height(su, gfixed, g, su.inTab(fixed, v)))
    case AlongX => Point(v, fixed, Height(su, g, gfixed, su.inTab(v, fixed)))
  }

  /** Whether the sample at v lies outside the clip region. */
  function Clipped(su: Setup, axis: Axis, fixed: real, v: real): bool
  {
    su.w.hasClip && !(if axis == AlongY then su.inClipTo(fixed, v) else su.inClipTo(v, fixed))
  }

  /** A walk step: outside the clip the trace ends, otherwise the probed point is pushed. */
  function Visit(st: TraceState, p: Point, clipped: bool, su: Setup): TraceState
  {
    if clipped then Ended(st) else Pushed(st, p, su.curvesOnly, su.maxangle, su.slope)
  }

  /** Where a walk line's samples start and end: `y < maxY + partOff` along Y, `x <= maxX + partOff` along X. */
  function LineStart(w: Walk, axis: Axis): real
  {
    if axis == AlongY then w.minY - w.partOff else w.minX - w.partOff
  }

  function LineEnd(w: Walk, axis: Axis): real
  {
    if axis == AlongY then w.maxY + w.partOff else w.maxX + w.partOff
  }

  function LineInclusive(axis: Axis): bool
  {
    axis == AlongX
  }

  /** The builder state after the samples of a walk line from v (grid index g) onwards. */
  function LineRun(st: TraceState, su: Setup, axis: Axis, fixed: real, gfixed: int, v: real, g: int): TraceState
    requires WalkOk(su.w)
    decreases Count(v, LineEnd(su.w, axis), su.w.resolution, LineInclusive(axis))
  {
    if !Fits(v, LineEnd(su.w, axis), LineInclusive(axis)) then st
    else
      CountDown(v, LineEnd(su.w, axis), su.w.resolution, LineInclusive(axis));
      LineRun(Visit(st, SamplePoint(su, axis, fixed, gfixed, v, g), Clipped(su, axis, fixed, v), su),
              su, axis, fixed, gfixed, v + su.w.resolution, g + 1)
  }

  /** The empty builder state a walk line starts from. */
  function Fresh(): TraceState
  {
    TraceState([], None, None, [])
  }

  /** What one walk line emits: its finished traces, as a slice at the line's grid index, if there are any. */
  function LineSlice(su: Setup, axis: Axis, fixed: real, gfixed: int): seq<Slice>
    requires WalkOk(su.w)
  {
    var st := Ended(LineRun(Fresh(), su, axis, fixed, gfixed, LineStart(su.w, axis), -su.w.gridDelta));
    if st.sliceout == [] then [] else [Slice(gfixed as real, ModeOf(axis), st.sliceout)]
  }

  /** The grid index `Math.round` gives the walk line at v. */
  function LineGrid(w: Walk, axis: Axis, v: real): int
    requires WalkOk(w)
  {
    if axis == AlongY then Round(((v - w.minX) / (w.maxX - w.minX)) * w.stepsx as real)
    else Round(((v - w.minY) / (w.maxY - w.minY)) * w.stepsy as real)
  }

  /** Where the walk lines start and end: `x <= maxX + partOff` for X contours, `y <= maxY + partOff` for Y. */
  function WalkStart(w: Walk, axis: Axis): real
  {
    if axis == AlongY then w.minX - w.partOff else w.minY - w.partOff
  }

  function WalkEnd(w: Walk, axis: Axis): real
  {
    if axis == AlongY then w.maxX + w.partOff else w.maxY + w.partOff
  }

  /** The slices of the walk lines from v onwards. */
  function WalkFrom(su: Setup, axis: Axis, v: real): seq<Slice>
    requires WalkOk(su.w)
    decreases Count(v, WalkEnd(su.w, axis), su.w.toolStep, true)
  {
    if v > WalkEnd(su.w, axis) then []
    else
      CountDown(v, WalkEnd(su.w, axis), su.w.toolStep, true);
      LineSlice(su, axis, v, LineGrid(su.w, axis, v)) + WalkFrom(su, axis, v + su.w.toolStep)
  }

  /** The slices of a run of walk lines, in order. */
  function Flatten(lines: seq<seq<Slice>>): seq<Slice>
  {
    if lines == [] then [] else Flatten(lines[..|lines| - 1]) + lines[|lines| - 1]
  }

  lemma FlattenSnoc(lines: seq<seq<Slice>>, line: seq<Slice>)
    ensures Flatten(lines + [line]) == Flatten(lines) + line
  {
    assert (lines + [line])[..|lines|] == lines;
  }

  lemma AppendEmpty<T>(done: seq<T>, rest: seq<T>)
    requires rest == []
    ensures done + rest == done
  {
  }

  /**
   * The walk has visited the lines at vs, one toolStep apart from the
   * walk's start and all within its end, each emitting the slices in
   * lines; the next line is at `next`.
   */
  ghost predicate Walked(su: Setup, axis: Axis, vs: seq<real>, lines: seq<seq<Slice>>, next: real)
    requires WalkOk(su.w)
  {
    if vs == [] then lines == [] && next == WalkStart(su.w, axis)
    else
      var n := |vs| - 1;
      && |lines| == |vs|
      && Walked(su, axis, vs[..n], lines[..n], vs[n])
      && vs[n] <= WalkEnd(su.w, axis)
      && next == vs[n] + su.w.toolStep
      && lines[n] == LineSlice(su, axis, vs[n], LineGrid(su.w, axis, vs[n]))
  }

  /** One more line of the walk. */
  lemma WalkedStep(su: Setup, axis: Axis, vs: seq<real>, lines: seq<seq<Slice>>, v: real, line: seq<Slice>)
    requires WalkOk(su.w) && Walked(su, axis, vs, lines, v) && v <= WalkEnd(su.w, axis)
    requires line == LineSlice(su, axis, v, LineGrid(su.w, axis, v))
    ensures Walked(su, axis, vs + [v], lines + [line], v + su.w.toolStep)
  {
    assert (vs + [v])[..|vs|] == vs && (lines + [line])[..|vs|] == lines;
    assert |lines| == |vs| by {
      if vs != [] { } else { }
    }
  }

  /** A walk line within the walk's end, then the lines after it. */
  lemma WalkFromStep(su: Setup, axis: Axis, v: real)
    requires WalkOk(su.w) && v <= WalkEnd(su.w, axis)
    ensures WalkFrom(su, axis, v) == LineSlice(su, axis, v, LineGrid(su.w, axis, v)) + WalkFrom(su, axis, v + su.w.toolStep)
  {
  }

  lemma Regroup<T>(a: seq<T>, b: seq<T>, c: seq<T>)
    ensures (a + b) + c == a + (b + c)
  {
  }

  /** What the walk emitted so far, then the lines from `next` on, is the whole walk. */
  lemma {:induction false} WalkedFrom(su: Setup, axis: Axis, vs: seq<real>, lines: seq<seq<Slice>>, next: real)
    requires WalkOk(su.w) && Walked(su, axis, vs, lines, next)
    ensures Flatten(lines) + WalkFrom(su, axis, next) == WalkFrom(su, axis, WalkStart(su.w, axis))
  {
    if vs == [] {
      assert [] + WalkFrom(su, axis, next) == WalkFrom(su, axis, next);
    } else {
      var n := |vs| - 1;
      WalkedFrom(su, axis, vs[..n], lines[..n], vs[n]);
      assert lines == lines[..n] + [lines[n]];
      FlattenSnoc(lines[..n], lines[n]);
      WalkFromStep(su, axis, vs[n]);
      Regroup(Flatten(lines[..n]), lines[n], WalkFrom(su, axis, next));
    }
  }

  /**
   * One sample of a walk line (the body of the inner loops, topo.js:293-311
   * and 337-350): probe the grid, raise to the tab height inside a tab,
   * end the trace outside the clip, otherwise push the point.
   */
  method WalkStep(b: TraceBuilder, data: array<real>, su: Setup, axis: Axis, fixed: real, gfixed: int, v: real, g: int)
    requires b.Valid() && su.curvesOnly == b.curvesOnly && su.maxangle == b.maxangle && su.slope == b.slope
    requires Probes(su, data[..])
    modifies b
    ensures b.Valid()
    ensures b.State() == Visit(old(b.State()), SamplePoint(su, axis, fixed, gfixed, v, g), Clipped(su, axis, fixed, v), su)
  {
    var w := su.w;
    var x, y, gx, gy := fixed, v, gfixed, g;
    if axis == AlongX {
      x, y, gx, gy := v, fixed, g, gfixed;
    }
    var tv := TopoGrid.ToolAtZ(data, w.stepsx, w.stepsy, w.profile, gx, gy, w.zMin);
    if w.tabsOn && tv < w.tabHeight && su.inTab(x, y) {
      tv := w.tabHeight;
    }
    if w.hasClip && !su.inClipTo(x, y) {
      b.EndPoly();
    } else {
      b.PushPoint(x, y, tv);
    }
  }

  /**
   * One walk line (topo.js:286-313 along Y for X contours, 330-352 along X
   * for Y contours): the grid index of the moving axis starts at -gridDelta
   * and advances by one per sample, in the clip-break branch too; the line
   * ends with `end_poly`.
   */
  method WalkLine(b: TraceBuilder, data: array<real>, su: Setup, axis: Axis, fixed: real, gfixed: int)
    requires WalkOk(su.w) && b.Valid() && b.lastP == None && Probes(su, data[..])
    requires su.curvesOnly == b.curvesOnly && su.maxangle == b.maxangle && su.slope == b.slope
    modifies b
    ensures b.Valid() && b.lastP == None
    ensures b.State() == Ended(LineRun(Fresh(), su, axis, fixed, gfixed, LineStart(su.w, axis), -su.w.gridDelta))
  {
    b.StartLine();
    var end, inclusive := LineEnd(su.w, axis), LineInclusive(axis);
    var v := LineStart(su.w, axis);
    var g := -su.w.gridDelta;
    while Fits(v, end, inclusive)
      invariant b.Valid() && data[..] == old(data[..])
      invariant LineRun(b.State(), su, axis, fixed, gfixed, v, g)
             == LineRun(Fresh(), su, axis, fixed, gfixed, LineStart(su.w, axis), -su.w.gridDelta)
      decreases Count(v, end, su.w.resolution, inclusive)
    {
      CountDown(v, end, su.w.resolution, inclusive);
      WalkStep(b, data, su, axis, fixed, gfixed, v, g);
      v := v + su.w.resolution;
      g := g + 1;
    }
    b.EndPoly();
  }

  /** One walk line and the slice it emits (topo.js:285-320 and 329-359). */
  method ContourLine(b: TraceBuilder, data: array<real>, su: Setup, axis: Axis, v: real) returns (emitted: seq<Slice>)
    requires WalkOk(su.w) && b.Valid() && b.lastP == None && Probes(su, data[..])
    requires su.curvesOnly == b.curvesOnly && su.maxangle == b.maxangle && su.slope == b.slope
    modifies b
    ensures b.Valid() && b.lastP == None
    ensures emitted == LineSlice(su, axis, v, LineGrid(su.w, axis, v))
  {
    var w := su.w;
    var grid := if axis == AlongY then Round(((v - w.minX) / (w.maxX - w.minX)) * w.stepsx as real)
                else Round(((v - w.minY) / (w.maxY - w.minY)) * w.stepsy as real);
    assert grid == LineGrid(w, axis, v);
    WalkLine(b, data, su, axis, v, grid);
    ghost var st := Ended(LineRun(Fresh(), su, axis, v, grid, LineStart(su.w, axis), -su.w.gridDelta));
    assert b.sliceout == st.sliceout;
    emitted := [];
    if b.sliceout != [] {
      emitted := [Slice(grid as real, if axis == AlongY then CONTOUR_X else CONTOUR_Y, b.sliceout)];
    }
    assert emitted == LineSlice(su, axis, v, grid);
  }

  /**
   * The X contour walk (topo.js:282-322, axis AlongY) or the Y contour walk
   * (topo.js:326-361, axis AlongX): one line per toolStep, each emitting a
   * slice only when it finished some trace.
   */
  method WalkContours(b: TraceBuilder, data: array<real>, su: Setup, axis: Axis) returns (slices: seq<Slice>)
    requires WalkOk(su.w) && b.Valid() && b.lastP == None && Probes(su, data[..])
    requires su.curvesOnly == b.curvesOnly && su.maxangle == b.maxangle && su.slope == b.slope
    modifies b
    ensures b.Valid() && b.lastP == None
    ensures slices == WalkFrom(su, axis, WalkStart(su.w, axis))
  {
    ghost var grid := data[..];
    ghost var vs: seq<real> := [];
    ghost var lines: seq<seq<Slice>> := [];
    var end := WalkEnd(su.w, axis);
    var v := WalkStart(su.w, axis);
    slices := [];
    while v <= end
      invariant b.Valid() && b.lastP == None && data[..] == grid
      invariant Walked(su, axis, vs, lines, v) && slices == Flatten(lines)
      decreases Count(v, end, su.w.toolStep, true)
    {
      CountDown(v, end, su.w.toolStep, true);
      var emitted := ContourLine(b, data, su, axis, v);
      WalkedStep(su, axis, vs, lines, v, emitted);
      FlattenSnoc(lines, emitted);
      vs, lines := vs + [v], lines + [emitted];
      slices := slices + emitted;
      v := v + su.w.toolStep;
    }
    WalkedFrom(su, axis, vs, lines, v);
    AppendEmpty(slices, WalkFrom(su, axis, v));
  }

  /** The slices of both contour walks, each run only when its setting is on. */
  function ContourSlices(su: Setup, contourX: bool, contourY: bool): seq<Slice>
    requires WalkOk(su.w)
  {
    (if contourX then WalkFrom(su, AlongY, WalkStart(su.w, AlongY)) else [])
    + (if contourY then WalkFrom(su, AlongX, WalkStart(su.w, AlongX)) else [])
  }

  /** The tail of `processSlices` (topo.js:281-364): the X walk when camContourXOn, then the Y walk when camContourYOn, sharing one builder. */
  method Contours(b: TraceBuilder, data: array<real>, su: Setup, contourX: bool, contourY: bool) returns (slices: seq<Slice>)
    requires WalkOk(su.w) && b.Valid() && b.lastP == None && Probes(su, data[..])
    requires su.curvesOnly == b.curvesOnly && su.maxangle == b.maxangle && su.slope == b.slope
    modifies b
    ensures b.Valid() && b.lastP == None
    ensures slices == ContourSlices(su, contourX, contourY)
  {
    slices := [];
    if contourX {
      slices := WalkContours(b, data, su, AlongY);
    }
    if contourY {
      var ys := WalkContours(b, data, su, AlongX);
      slices := slices + ys;
    }
  }

  /** An entry of `newslices`: an input slice, pushed as the filter visits it (topo.js:191), or a contour slice. */
  datatype Emitted<S> = Input(source: S) | Contour(contour: Slice)

  /**
   * What `processSlices` hands to `ondone` (topo.js:191, 364): every input
   * slice in its order, then the contour slices of both walks.
   */
  method ProcessOutput<S>(inputs: seq<S>, b: TraceBuilder, data: array<real>, su: Setup, contourX: bool, contourY: bool)
    returns (newslices: seq<Emitted<S>>)
    requires WalkOk(su.w) && b.Valid() && b.lastP == None && Probes(su, data[..])
    requires su.curvesOnly == b.curvesOnly && su.maxangle == b.maxangle && su.slope == b.slope
    modifies b
    ensures b.Valid() && b.lastP == None
    ensures var cs := ContourSlices(su, contourX, contourY);
      && |newslices| == |inputs| + |cs|
      && (forall i :: 0 <= i < |inputs| ==> newslices[i] == Input(inputs[i]))
      && (forall j :: 0 <= j < |cs| ==> newslices[|inputs| + j] == Contour(cs[j]))
  {
    newslices := PushInputs(inputs);
    var cs := Contours(b, data, su, contourX, contourY);
    newslices := PushContours(newslices, cs);
  }

  /** The pushes of topo.js:191, one per input slice. */
  method PushInputs<S>(inputs: seq<S>) returns (out: seq<Emitted<S>>)
    ensures |out| == |inputs| && forall i :: 0 <= i < |inputs| ==> out[i] == Input(inputs[i])
  {
    out := [];
    var i := 0;
    while i < |inputs|
      invariant 0 <= i <= |inputs| && |out| == i
      invariant forall k :: 0 <= k < i ==> out[k] == Input(inputs[k])
    {
      out := out + [Input(inputs[i])];
      i := i + 1;
    }
  }

  /** The pushes of topo.js:315 and 354, one per contour slice, behind what is already there. */
  method PushContours<S>(prefix: seq<Emitted<S>>, cs: seq<Slice>) returns (out: seq<Emitted<S>>)
    ensures |out| == |prefix| + |cs| && out[..|prefix|] == prefix
    ensures forall j :: 0 <= j < |cs| ==> out[|prefix| + j] == Contour(cs[j])
  {
    out := prefix;
    var j := 0;
    while j < |cs|
      invariant 0 <= j <= |cs| && |out| == |prefix| + j && out[..|prefix|] == prefix
      invariant forall k :: 0 <= k < j ==> out[|prefix| + k] == Contour(cs[k])
    {
      out := out + [Contour(cs[j])];
      j := j + 1;
    }
  }

  // ---------------------------------------------------------------- walk properties

  /** A traced point is at least at height 0, and at least at the tab height inside a tab when tabs are on. */
  ghost predicate Raised(p: Point, su: Setup)
  {
    p.z >= 0.0 && (su.w.tabsOn && su.inTab(p.x, p.y) ==> p.z >= su.w.tabHeight)
  }

  /** A point of a walk line at `fixed`: raised, and on the line. */
  ghost predicate Probed(p: Point, su: Setup, axis: Axis, fixed: real)
  {
    Raised(p, su) && (if axis == AlongY then p.x == fixed else p.y == fixed)
  }

  /** The probe never reads below 0. */
  ghost predicate ProbeRaised(su: Setup)
  {
    forall x, y :: su.probe(x, y) >= 0.0
  }

  /** `toolAtZ` never reads below 0, so neither does a probe that is toolAtZ over some grid. */
  lemma ProbesRaised(su: Setup, grid: seq<real>)
    requires Probes(su, grid)
    ensures ProbeRaised(su)
  {
    forall x, y ensures su.probe(x, y) >= 0.0 {
      TopoGrid.ToolZBounds(grid, su.w.stepsx, su.w.stepsy, su.w.profile, x, y, su.w.zMin);
    }
  }

  /** The heights a walk pushes: at least 0, and at least tabHeight inside a tab when tabs are on. */
  lemma HeightBounds(su: Setup, gx: int, gy: int, inTab: bool)
    requires ProbeRaised(su)
    ensures Height(su, gx, gy, inTab) >= 0.0
    ensures su.w.tabsOn && inTab ==> Height(su, gx, gy, inTab) >= su.w.tabHeight
  {
    assert su.probe(gx, gy) >= 0.0;
  }

  lemma SampleProbed(su: Setup, axis: Axis, fixed: real, gfixed: int, v: real, g: int)
    requires ProbeRaised(su)
    ensures Probed(SamplePoint(su, axis, fixed, gfixed, v, g), su, axis, fixed)
  {
    match axis
    case AlongY => HeightBounds(su, gfixed, g, su.inTab(fixed, v));
    case AlongX => HeightBounds(su, g, gfixed, su.inTab(v, fixed));
  }

  /** A walk line keeps the builder's invariant and only traces points it probed. */
  lemma {:induction false} LineRunKeeps(st: TraceState, su: Setup, axis: Axis, fixed: real, gfixed: int, v: real, g: int)
    requires WalkOk(su.w) && ProbeRaised(su) && Inv(st, su.curvesOnly) && AllPoints(st, p => Probed(p, su, axis, fixed))
    ensures var r := LineRun(st, su, axis, fixed, gfixed, v, g);
      Inv(r, su.curvesOnly) && AllPoints(r, p => Probed(p, su, axis, fixed))
    decreases Count(v, LineEnd(su.w, axis), su.w.resolution, LineInclusive(axis))
  {
    if Fits(v, LineEnd(su.w, axis), LineInclusive(axis)) {
      CountDown(v, LineEnd(su.w, axis), su.w.resolution, LineInclusive(axis));
      var P := p => Probed(p, su, axis, fixed);
      var p := SamplePoint(su, axis, fixed, gfixed, v, g);
      SampleProbed(su, axis, fixed, gfixed, v, g);
      EndPolyShape(st, su.curvesOnly);
      EndKeeps(st, P);
      PushPreserves(st, p, su.curvesOnly, su.maxangle, su.slope);
      PushKeeps(st, p, su.curvesOnly, su.maxangle, su.slope, P);
      LineRunKeeps(Visit(st, p, Clipped(su, axis, fixed, v), su), su, axis, fixed, gfixed, v + su.w.resolution, g + 1);
    }
  }

  /** A well-formed contour slice: the walk's mode, some traces, each of two points or more, every point raised. */
  ghost predicate GoodSlice(s: Slice, su: Setup, axis: Axis)
  {
    && s.mode == ModeOf(axis) && |s.lines| > 0 && TracesOk(s.lines, su.curvesOnly)
    && forall k, i :: 0 <= k < |s.lines| && 0 <= i < |s.lines[k]| ==> Raised(s.lines[k][i], su)
  }

  /**
   * A walk line emits at most one slice, at its grid index; its traces have
   * at least two points (no three consecutive at one z unless curves-only),
   * lie on the line and are raised.
   */
  lemma LineSliceShape(su: Setup, axis: Axis, fixed: real, gfixed: int)
    requires WalkOk(su.w) && ProbeRaised(su)
    ensures var ss := LineSlice(su, axis, fixed, gfixed);
      && |ss| <= 1
      && forall j :: 0 <= j < |ss| ==>
           && ss[j].z == gfixed as real && GoodSlice(ss[j], su, axis)
           && forall k, i :: 0 <= k < |ss[j].lines| && 0 <= i < |ss[j].lines[k]| ==> Probed(ss[j].lines[k][i], su, axis, fixed)
  {
    var P := p => Probed(p, su, axis, fixed);
    var r := LineRun(Fresh(), su, axis, fixed, gfixed, LineStart(su.w, axis), -su.w.gridDelta);
    LineRunKeeps(Fresh(), su, axis, fixed, gfixed, LineStart(su.w, axis), -su.w.gridDelta);
    EndPolyShape(r, su.curvesOnly);
    EndKeeps(r, P);
  }

  /** Every slice of ss is well formed. */
  ghost predicate AllGood(ss: seq<Slice>, su: Setup, axis: Axis)
  {
    forall j :: 0 <= j < |ss| ==> GoodSlice(ss[j], su, axis)
  }

  lemma GoodAppend(a: seq<Slice>, b: seq<Slice>, su: Setup, axis: Axis)
    requires AllGood(a, su, axis) && AllGood(b, su, axis)
    ensures AllGood(a + b, su, axis)
  {
    forall j | 0 <= j < |a + b|
      ensures GoodSlice((a + b)[j], su, axis)
    {
      if j < |a| {
        assert (a + b)[j] == a[j];
      } else {
        assert (a + b)[j] == b[j - |a|];
      }
    }
  }

  /** Every slice of a contour walk is well formed. */
  lemma {:induction false} WalkShape(su: Setup, axis: Axis, v: real)
    requires WalkOk(su.w) && ProbeRaised(su)
    ensures AllGood(WalkFrom(su, axis, v), su, axis)
    decreases Count(v, WalkEnd(su.w, axis), su.w.toolStep, true)
  {
    if v <= WalkEnd(su.w, axis) {
      CountDown(v, WalkEnd(su.w, axis), su.w.toolStep, true);
      var head := LineSlice(su, axis, v, LineGrid(su.w, axis, v));
      var tail := WalkFrom(su, axis, v + su.w.toolStep);
      assert WalkFrom(su, axis, v) == head + tail;
      LineSliceShape(su, axis, v, LineGrid(su.w, axis, v));
      WalkShape(su, axis, v + su.w.toolStep);
      GoodAppend(head, tail, su, axis);
    }
  }

  /** Every slice the contour walks emit is a well-formed contour slice of its walk's mode. */
  lemma ContourSlicesShape(su: Setup, grid: seq<real>, contourX: bool, contourY: bool)
    requires WalkOk(su.w) && Probes(su, grid)
    ensures var ss := ContourSlices(su, contourX, contourY);
      forall j :: 0 <= j < |ss| ==>
        && |ss[j].lines| > 0 && (ss[j].mode == CONTOUR_X || ss[j].mode == CONTOUR_Y)
        && (forall k :: 0 <= k < |ss[j].lines| ==> |ss[j].lines[k]| >= 2)
        && (forall k, i :: 0 <= k < |ss[j].lines| && 0 <= i < |ss[j].lines[k]| ==> ss[j].lines[k][i].z >= 0.0)
  {
    ProbesRaised(su, grid);
    var xs := if contourX then WalkFrom(su, AlongY, WalkStart(su.w, AlongY)) else [];
    var ys := if contourY then WalkFrom(su, AlongX, WalkStart(su.w, AlongX)) else [];
    if contourX { WalkShape(su, AlongY, WalkStart(su.w, AlongY)); }
    if contourY { WalkShape(su, AlongX, WalkStart(su.w, AlongX)); }
    var ss := xs + ys;
    forall j | 0 <= j < |ss|
      ensures |ss[j].lines| > 0 && (ss[j].mode == CONTOUR_X || ss[j].mode == CONTOUR_Y)
      ensures forall k :: 0 <= k < |ss[j].lines| ==> |ss[j].lines[k]| >= 2
      ensures forall k, i :: 0 <= k < |ss[j].lines| && 0 <= i < |ss[j].lines[k]| ==> ss[j].lines[k][i].z >= 0.0
    {
      if j < |xs| {
        assert ss[j] == xs[j] && GoodSlice(xs[j], su, AlongY);
      } else {
        assert ss[j] == ys[j - |xs|] && GoodSlice(ys[j - |xs|], su, AlongX);
      }
    }
  }
}
