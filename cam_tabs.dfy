/**
 * Cutout tabs (`addCutoutTabs` and `CAM.createTabLines`,
 * src/mode/cam/slice.js:536-621).
 *
 * A trace is a value of the type parameter `T`; the polygon operations the
 * source calls on it (`setClockwise`, `bounds.center`, `intersections(..).pop()`,
 * `emitSegment`) are the fields of `TraceOps`, and the point projection
 * `center.projectOnSlope(newSlopeFromAngle(angle), dist)` is `project`.
 */
module CamTabs {
  import opened Geometry
  import opened Wrappers

  /** One tab: two parallel cut lines c1-o1 and c2-o2 straddling the tab's center line. */
  datatype TabLine = TabLine(c1: Point, o1: Point, c2: Point, o2: Point)

  /** The foreign polygon operations used on each trace. */
  datatype TraceOps<!T> = TraceOps(
    clockwise: T -> T,                         // trace.setClockwise()
    center: (T, real) -> Point,                // trace.bounds.center(z)
    lastHit: (T, Point, Point) -> Option<Point>, // trace.intersections(p, q).pop()
    segment: (T, Point, Point) -> T)           // trace.emitSegment(p, q)

  /** The angle of the k-th tab: the first at `tabAngle`, the others turning by 360/tabCount each. */
  function TabAngle(tabAngle: real, tabCount: int, k: nat): real
    requires tabCount > 0
  {
    tabAngle - k as real * (360.0 / tabCount as real)
  }

  /** The cut lines of a tab at `angle`, offset either side by half the tab width plus the tool. */
  function TabLineAt(center: Point, toolDiam: real, tabWidth: real, angle: real,
                     project: (Point, real, real) -> Point): (t: TabLine)
  {
    var offset := (tabWidth + toolDiam) / 2.0;
    var c1 := project(center, angle + 90.0, offset);
    var c2 := project(center, angle + 90.0, -offset);
    TabLine(c1, project(c1, angle, 10000.0), c2, project(c2, angle, 10000.0))
  }

  /** The tab lines `createTabLines` produces: one per tab, none when tabCount <= 0. */
  function TabLines(center: Point, toolDiam: real, tabWidth: real, tabCount: int, tabAngle: real,
                    project: (Point, real, real) -> Point): seq<TabLine>
  {
    if tabCount <= 0 then []
    else
      seq(tabCount, (k: int) requires 0 <= k =>
        TabLineAt(center, toolDiam, tabWidth, TabAngle(tabAngle, tabCount, k), project))
  }

  /** The tabs are evenly spaced and together turn one full circle. */
  lemma TabAnglesFullTurn(tabAngle: real, tabCount: int, k: nat)
    requires tabCount > 0
    ensures TabAngle(tabAngle, tabCount, k) - TabAngle(tabAngle, tabCount, k + 1) == 360.0 / tabCount as real
    ensures TabAngle(tabAngle, tabCount, tabCount) == tabAngle - 360.0
  {
  }

  /**
   * `CAM.createTabLines` (slice.js:603-621): counts tabCount down to zero,
   * turning the angle back by 360/tabCount after each tab.
   */
  method CreateTabLines(center: Point, toolDiam: real, tabWidth: real, tabCount: int, tabAngle: real,
                        project: (Point, real, real) -> Point) returns (lines: seq<TabLine>)
    ensures |lines| == if tabCount > 0 then tabCount else 0
    ensures lines == TabLines(center, toolDiam, tabWidth, tabCount, tabAngle, project)
  {
    var angleInc := if tabCount == 0 then 0.0 else 360.0 / tabCount as real;
    var offset := (tabWidth + toolDiam) / 2.0;
    var count := tabCount;
    var angle := tabAngle;
    lines := [];
    while count > 0
      invariant count <= tabCount || (tabCount <= 0 && count == tabCount)
      invariant tabCount > 0 ==>
        (0 <= count && |lines| == tabCount - count && angle == TabAngle(tabAngle, tabCount, |lines|))
      invariant tabCount <= 0 ==> lines == []
      invariant forall k :: 0 <= k < |lines| ==>
        lines[k] == TabLineAt(center, toolDiam, tabWidth, TabAngle(tabAngle, tabCount, k), project)
    {
      var c1 := project(center, angle + 90.0, offset);
      var c2 := project(center, angle + 90.0, -offset);
      var o1 := project(c1, angle, 10000.0);
      var o2 := project(c2, angle, 10000.0);
      angle := angle - angleInc;
      lines := lines + [TabLine(c1, o1, c2, o2)];
      count := count - 1;
    }
  }

  /** The hit pairs along a trace: both ends of each tab whose two cut lines hit it, in tab order. */
  function TabPoints<T>(trace: T, lines: seq<TabLine>, ops: TraceOps<T>): (ints: seq<Point>)
  {
    if lines == [] then []
    else
      var t := lines[|lines| - 1];
      var h1, h2 := ops.lastHit(trace, t.c1, t.o1), ops.lastHit(trace, t.c2, t.o2);
      TabPoints(trace, lines[..|lines| - 1], ops) + (if h1.Some? && h2.Some? then [h1.value, h2.value] else [])
  }

  /** Hits come in pairs: a tab contributes its two ends or nothing. */
  lemma {:induction false} TabPointsPaired<T>(trace: T, lines: seq<TabLine>, ops: TraceOps<T>)
    ensures |TabPoints(trace, lines, ops)| % 2 == 0
    ensures |TabPoints(trace, lines, ops)| <= 2 * |lines|
  {
    if lines != [] {
      TabPointsPaired(trace, lines[..|lines| - 1], ops);
    }
  }

  /** `ints.push(ints.shift())`: the first hit moves to the end. */
  function Rotate(ints: seq<Point>): (r: seq<Point>)
    requires ints != []
  {
    ints[1..] + [ints[0]]
  }

  /**
   * After the rotation, pair k runs from the second end of tab k to the
   * first end of the next tab (cyclically), so the segments between them
   * leave every tab's gap uncut.
   */
  lemma RotatedPairs(ints: seq<Point>, k: nat)
    requires |ints| % 2 == 0 && 2 * k < |ints|
    ensures Rotate(ints)[2 * k] == ints[2 * k + 1]
    ensures Rotate(ints)[2 * k + 1] == ints[(2 * k + 2) % |ints|]
  {
    EvenStep(k, |ints|);
    ModCases(2 * k + 2, |ints|);
  }

  lemma EvenStep(k: nat, n: nat)
    requires n % 2 == 0 && 2 * k < n
    ensures 2 * k + 2 <= n
  {
  }

  lemma ModCases(a: int, n: int)
    requires 0 < a <= n
    ensures a % n == (if a == n then 0 else a)
  {
  }

  /** The segments emitted from consecutive pairs of the (rotated) hits. */
  function Segments<T>(trace: T, pts: seq<Point>, ops: TraceOps<T>): (segs: seq<T>)
    requires |pts| % 2 == 0
  {
    seq(|pts| / 2, (k: int) requires 0 <= k < |pts| / 2 => ops.segment(trace, pts[2 * k], pts[2 * k + 1]))
  }

  /** The tab settings `addCutoutTabs` is called with. */
  datatype TabParams = TabParams(z: real, toolDiam: real, tabWidth: real, tabCount: int, tabAngle: real)

  /** The hits on a trace once it is made clockwise, around its bounds' center. */
  function Hits<T>(trace: T, tp: TabParams, project: (Point, real, real) -> Point, ops: TraceOps<T>): (ints: seq<Point>)
  {
    var t := ops.clockwise(trace);
    TabPoints(t, TabLines(ops.center(t, tp.z), tp.toolDiam, tp.tabWidth, tp.tabCount, tp.tabAngle, project), ops)
  }

  /** What one trace becomes: itself made clockwise when no tab hits it, else its segments between the tabs. */
  function CutTrace<T>(trace: T, tp: TabParams, project: (Point, real, real) -> Point, ops: TraceOps<T>): seq<T>
  {
    var t := ops.clockwise(trace);
    var ints := Hits(trace, tp, project, ops);
    TabPointsPaired(t, TabLines(ops.center(t, tp.z), tp.toolDiam, tp.tabWidth, tp.tabCount, tp.tabAngle, project), ops);
    if ints == [] then [t] else Segments(t, Rotate(ints), ops)
  }

  /** The new traces for all the given traces, in order. */
  function CutAll<T>(polys: seq<T>, tp: TabParams, project: (Point, real, real) -> Point, ops: TraceOps<T>): seq<T>
  {
    if polys == [] then []
    else
      CutAll(polys[..|polys| - 1], tp, project, ops) + CutTrace(polys[|polys| - 1], tp, project, ops)
  }

  /** The number of traces no tab hits. */
  function CountNoTabs<T>(polys: seq<T>, tp: TabParams, project: (Point, real, real) -> Point, ops: TraceOps<T>): nat
  {
    if polys == [] then 0
    else
      CountNoTabs(polys[..|polys| - 1], tp, project, ops) + (if Hits(polys[|polys| - 1], tp, project, ops) == [] then 1 else 0)
  }

  /**
   * A trace always yields something: the trace itself, made clockwise, when
   * no tab hits it; otherwise one segment per tab that hit it, segment k
   * running from the second end of tab k to the first end of the next tab
   * that hit.
   */
  lemma CutTraceShape<T>(trace: T, tp: TabParams, project: (Point, real, real) -> Point, ops: TraceOps<T>)
    ensures var cut, ints := CutTrace(trace, tp, project, ops), Hits(trace, tp, project, ops);
      && 1 <= |cut|
      && (ints == [] ==> cut == [ops.clockwise(trace)])
      && (ints != [] ==>
            tp.tabCount > 0 && 2 * |cut| == |ints| && |cut| <= tp.tabCount
            && forall k :: 0 <= k < |cut| ==>
                 cut[k] == ops.segment(ops.clockwise(trace), ints[2 * k + 1], ints[(2 * k + 2) % |ints|]))
  {
    var t := ops.clockwise(trace);
    var lines := TabLines(ops.center(t, tp.z), tp.toolDiam, tp.tabWidth, tp.tabCount, tp.tabAngle, project);
    TabPointsPaired(t, lines, ops);
    var ints := Hits(trace, tp, project, ops);
    if ints != [] {
      forall k | 0 <= k < |ints| / 2
        ensures Rotate(ints)[2 * k] == ints[2 * k + 1] && Rotate(ints)[2 * k + 1] == ints[(2 * k + 2) % |ints|]
      {
        RotatedPairs(ints, k);
      }
    }
  }

  /**
   * There are at least as many new traces as old ones and at most one per
   * tab per trace: every trace without tabs passes through, every other one
   * becomes one segment per tab that hit it.
   */
  lemma {:induction false} CutAllCount<T>(polys: seq<T>, tp: TabParams, project: (Point, real, real) -> Point, ops: TraceOps<T>)
    ensures CountNoTabs(polys, tp, project, ops) <= |polys|
    ensures |polys| <= |CutAll(polys, tp, project, ops)|
    ensures tp.tabCount > 0 ==> |CutAll(polys, tp, project, ops)| <= tp.tabCount * |polys|
  {
    if polys != [] {
      var init := polys[..|polys| - 1];
      var last := polys[|polys| - 1];
      CutAllCount(init, tp, project, ops);
      CutTraceShape(last, tp, project, ops);
      var before, cut := CutAll(init, tp, project, ops), CutTrace(last, tp, project, ops);
      assert CutAll(polys, tp, project, ops) == before + cut;
      if tp.tabCount > 0 {
        MulSucc(tp.tabCount, |init|);
      }
    }
  }

  lemma MulSucc(a: int, n: nat)
    ensures a * (n + 1) == a * n + a
  {
  }

  /** The hits of one trace (slice.js:548-558). */
  method CollectHits<T>(t: T, lines: seq<TabLine>, ops: TraceOps<T>) returns (ints: seq<Point>)
    ensures ints == TabPoints(t, lines, ops)
  {
    ints := [];
    var i := 0;
    while i < |lines|
      invariant 0 <= i <= |lines|
      invariant ints == TabPoints(t, lines[..i], ops)
    {
      assert lines[..i + 1][..i] == lines[..i];
      var tab := lines[i];
      var int1 := ops.lastHit(t, tab.c1, tab.o1);
      var int2 := ops.lastHit(t, tab.c2, tab.o2);
      if int1.Some? && int2.Some? {
        ints := ints + [int1.value, int2.value];
      }
      i := i + 1;
    }
    assert lines[..i] == lines;
  }

  /** The rotation and the segment loop (slice.js:561-574). */
  method EmitSegments<T>(t: T, ints: seq<Point>, ops: TraceOps<T>) returns (segs: seq<T>)
    requires ints != [] && |ints| % 2 == 0
    ensures segs == Segments(t, Rotate(ints), ops)
  {
    var pts := ints[1..] + [ints[0]];
    segs := [];
    var i := 0;
    while i < |pts|
      invariant 0 <= i <= |pts| && i % 2 == 0 && |segs| == i / 2
      invariant forall k :: 0 <= k < |segs| ==> segs[k] == ops.segment(t, pts[2 * k], pts[2 * k + 1])
    {
      segs := segs + [ops.segment(t, pts[i], pts[i + 1])];
      i := i + 2;
    }
  }

  /** One pass of the trace loop (slice.js:544-585): the new traces and whether no tab hit. */
  method CutOne<T>(poly: T, tp: TabParams, project: (Point, real, real) -> Point, ops: TraceOps<T>)
    returns (segs: seq<T>, untabbed: bool)
    ensures segs == CutTrace(poly, tp, project, ops)
    ensures untabbed <==> Hits(poly, tp, project, ops) == []
  {
    var trace := ops.clockwise(poly);
    var center := ops.center(trace, tp.z);
    var lines := CreateTabLines(center, tp.toolDiam, tp.tabWidth, tp.tabCount, tp.tabAngle, project);
    var ints := CollectHits(trace, lines, ops);
    if |ints| > 0 {
      TabPointsPaired(trace, lines, ops);
      segs := EmitSegments(trace, ints, ops);
      untabbed := false;
    } else {
      segs := [trace];
      untabbed := true;
    }
  }

  /**
   * `addCutoutTabs` (slice.js:536-601): no traces come back as they are;
   * otherwise each trace is made clockwise and either cut into the
   * segments between its tabs or, when no tab hits it, kept whole and
   * counted in `notabs`. The overlap elimination is switched off in the
   * source (`if (false)`), so every segment is kept.
   */
  method AddCutoutTabs<T>(polys: seq<T>, tp: TabParams, project: (Point, real, real) -> Point, ops: TraceOps<T>)
    returns (nutrace: seq<T>, notabs: nat)
    ensures polys == [] ==> nutrace == polys && notabs == 0
    ensures nutrace == CutAll(polys, tp, project, ops)
    ensures notabs == CountNoTabs(polys, tp, project, ops)
  {
    if |polys| == 0 {
      return polys, 0;
    }
    nutrace := [];
    notabs := 0;
    var i := 0;
    while i < |polys|
      invariant 0 <= i <= |polys|
      invariant nutrace == CutAll(polys[..i], tp, project, ops)
      invariant notabs == CountNoTabs(polys[..i], tp, project, ops)
    {
      assert polys[..i + 1][..i] == polys[..i];
      var segs, untabbed := CutOne(polys[i], tp, project, ops);
      nutrace := nutrace + segs;
      if untabbed {
        notabs := notabs + 1;
      }
      i := i + 1;
    }
    assert polys[..i] == polys;
  }
}
