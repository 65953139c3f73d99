/**
 * The topography grid of the `Topo` constructor (src/mode/cam/topo.js):
 * the hidden-line filter over each slice's segments (196-218), the raster
 * that max-updates the flat grid `data` indexed `gridx * stepsy + gridy`
 * (229-267), and the tool probe `toolAtZ` (109-135).
 *
 * `data` is a `Float32Array`: a read outside it gives `undefined` (so
 * `data[i] || 0` is 0) and a write outside it is dropped. Both are modelled;
 * the rounding of stored values to 32 bits is not (values are exact reals).
 */
module TopoGrid {
  import opened Geometry

  /** A slice line `{p1, p2}`. */
  datatype Seg = Seg(p1: Point, p2: Point)

  // ---------------------------------------------------------------- filter

  /** The segment with its endpoints sorted by y. */
  function Ordered(l: Seg): (r: Seg)
    ensures r.p1.y <= r.p2.y
    ensures (r.p1, r.p2) == (l.p1, l.p2) || (r.p1, r.p2) == (l.p2, l.p1)
  {
    if l.p1.y > l.p2.y then Seg(l.p2, l.p1) else l
  }

  /** Ordered segment a lies wholly below ordered segment b, within b's y-span. */
  predicate Under(a: Seg, b: Seg)
  {
    Max(a.p1.z, a.p2.z) < Min(b.p1.z, b.p2.z) && a.p1.y >= b.p1.y && a.p2.y <= b.p2.y
  }

  /** Segment i is hidden by a segment that is neither itself nor a neighbour in the list. */
  predicate Hidden(lines: seq<Seg>, i: int)
    requires 0 <= i < |lines|
  {
    exists j :: 0 <= j < |lines| && !(i - 1 <= j <= i + 1) && Under(Ordered(lines[i]), Ordered(lines[j]))
  }

  /** Segment i survives the filter: not vertical in y, not wholly below zMin, not hidden. */
  predicate Kept(lines: seq<Seg>, i: int, zMin: real)
    requires 0 <= i < |lines|
  {
    && lines[i].p1.y != lines[i].p2.y
    && !(lines[i].p1.z < zMin && lines[i].p2.z < zMin)
    && !Hidden(lines, i)
  }

  /** The `points` of a slice: the kept segments among the first n, as y-sorted endpoint pairs. */
  function KeptPoints(lines: seq<Seg>, zMin: real, n: nat): seq<Point>
    requires n <= |lines|
  {
    if n == 0 then []
    else
      var s := Ordered(lines[n - 1]);
      KeptPoints(lines, zMin, n - 1) + (if Kept(lines, n - 1, zMin) then [s.p1, s.p2] else [])
  }

  /** Pair k of pts, as a segment. */
  function Pair(pts: seq<Point>, k: int): Seg
    requires 0 <= k < |pts| / 2
  {
    Seg(pts[2 * k], pts[2 * k + 1])
  }

  /** Segment i is kept and, y-sorted, is s. */
  predicate KeptAs(lines: seq<Seg>, i: int, zMin: real, s: Seg)
  {
    0 <= i < |lines| && Kept(lines, i, zMin) && Ordered(lines[i]) == s
  }

  /** s is, y-sorted, one of the kept segments among the first n. */
  predicate KeptAmong(lines: seq<Seg>, n: int, zMin: real, s: Seg)
  {
    exists i :: 0 <= i < n && KeptAs(lines, i, zMin, s)
  }

  lemma {:induction false} KeptPointsEven(lines: seq<Seg>, zMin: real, n: nat)
    requires n <= |lines|
    ensures |KeptPoints(lines, zMin, n)| % 2 == 0
    ensures |KeptPoints(lines, zMin, n)| <= 2 * n
  {
    if n > 0 {
      KeptPointsEven(lines, zMin, n - 1);
    }
  }

  lemma {:induction false} KeptPointsSoundAt(lines: seq<Seg>, zMin: real, n: nat, k: nat)
    requires n <= |lines|
    requires |KeptPoints(lines, zMin, n)| % 2 == 0 && k < |KeptPoints(lines, zMin, n)| / 2
    ensures KeptAmong(lines, n, zMin, Pair(KeptPoints(lines, zMin, n), k))
  {
    var prev, pts := KeptPoints(lines, zMin, n - 1), KeptPoints(lines, zMin, n);
    KeptPointsEven(lines, zMin, n - 1);
    if k < |prev| / 2 {
      KeptPointsSoundAt(lines, zMin, n - 1, k);
      var i :| 0 <= i < n - 1 && KeptAs(lines, i, zMin, Pair(prev, k));
      assert KeptAs(lines, i, zMin, Pair(pts, k));
    } else {
      assert KeptAs(lines, n - 1, zMin, Pair(pts, k));
    }
  }

  /**
   * Every pair in the filter's output is a kept segment, y-sorted: its
   * endpoints differ in y and one of them is at or above zMin.
   */
  lemma KeptPointsSound(lines: seq<Seg>, zMin: real, n: nat)
    requires n <= |lines|
    ensures |KeptPoints(lines, zMin, n)| % 2 == 0
    ensures forall k :: 0 <= k < |KeptPoints(lines, zMin, n)| / 2 ==>
      KeptAmong(lines, n, zMin, Pair(KeptPoints(lines, zMin, n), k))
  {
    KeptPointsEven(lines, zMin, n);
    forall k | 0 <= k < |KeptPoints(lines, zMin, n)| / 2
      ensures KeptAmong(lines, n, zMin, Pair(KeptPoints(lines, zMin, n), k))
    {
      KeptPointsSoundAt(lines, zMin, n, k);
    }
  }

  /** Every kept segment appears in the filter's output as a y-sorted pair. */
  lemma {:induction false} KeptPointsComplete(lines: seq<Seg>, zMin: real, n: nat)
    requires n <= |lines|
    ensures var pts := KeptPoints(lines, zMin, n);
      |pts| % 2 == 0
      && forall i :: 0 <= i < n && Kept(lines, i, zMin) ==>
           exists k :: 0 <= k < |pts| / 2 && Pair(pts, k) == Ordered(lines[i])
  {
    KeptPointsEven(lines, zMin, n);
    if n > 0 {
      KeptPointsComplete(lines, zMin, n - 1);
      KeptPointsEven(lines, zMin, n - 1);
      var prev, pts := KeptPoints(lines, zMin, n - 1), KeptPoints(lines, zMin, n);
      forall i | 0 <= i < n && Kept(lines, i, zMin)
        ensures exists k :: 0 <= k < |pts| / 2 && Pair(pts, k) == Ordered(lines[i])
      {
        if i < n - 1 {
          var k :| 0 <= k < |prev| / 2 && Pair(prev, k) == Ordered(lines[i]);
          assert Pair(pts, k) == Ordered(lines[i]);
        } else {
          assert Pair(pts, |prev| / 2) == Ordered(lines[i]);
        }
      }
    }
  }

  /** A kept segment's sorted pair rises strictly in y and reaches zMin. */
  lemma KeptPair(lines: seq<Seg>, i: int, zMin: real)
    requires 0 <= i < |lines| && Kept(lines, i, zMin)
    ensures Ordered(lines[i]).p1.y < Ordered(lines[i]).p2.y
    ensures Ordered(lines[i]).p1.z >= zMin || Ordered(lines[i]).p2.z >= zMin
  {
  }

  /** The inner scan of the filter (topo.js:205-215): does some non-adjacent segment hide segment i? */
  method Covered(lines: seq<Seg>, i: nat) returns (covered: bool)
    requires i < |lines|
    ensures covered <==> Hidden(lines, i)
  {
    var s1 := Ordered(lines[i]);
    covered := false;
    var j := 0;
    while j < |lines|
      invariant 0 <= j <= |lines|
      invariant forall m :: 0 <= m < j && !(i - 1 <= m <= i + 1) ==> !Under(s1, Ordered(lines[m]))
    {
      if !(j >= i - 1 && j <= i + 1) {
        var p3, p4 := lines[j].p1, lines[j].p2;
        if p3.y > p4.y {
          p3, p4 := p4, p3;
        }
        if Max(s1.p1.z, s1.p2.z) < Min(p3.z, p4.z) && s1.p1.y >= p3.y && s1.p2.y <= p4.y {
          assert Under(s1, Ordered(lines[j]));
          covered := true;
          return;
        }
      }
      j := j + 1;
    }
  }

  /** The filter of topo.js:196-218 over one slice's lines. */
  method FilterLines(lines: seq<Seg>, zMin: real) returns (points: seq<Point>)
    ensures points == KeptPoints(lines, zMin, |lines|)
  {
    points := [];
    var i := 0;
    while i < |lines|
      invariant 0 <= i <= |lines|
      invariant points == KeptPoints(lines, zMin, i)
    {
      var p1, p2 := lines[i].p1, lines[i].p2;
      if p1.y != p2.y && !(p1.z < zMin && p2.z < zMin) {
        if p1.y > p2.y {
          p1, p2 := p2, p1;
        }
        var covered := Covered(lines, i);
        if !covered {
          points := points + [p1, p2];
        }
      }
      i := i + 1;
    }
  }

  // ---------------------------------------------------------------- raster

  /** The height of the segment p1-p2 at grid y, by linear interpolation in y. */
  function Interp(p1: Point, p2: Point, y: real): real
    requires p1.y != p2.y
  {
    p1.z - (p1.z - p2.z) * ((p1.y - y) / (p1.y - p2.y))
  }

  /** The segment p1-p2 spans grid y. */
  predicate Spans(p1: Point, p2: Point, y: real)
  {
    p1.y <= y && p2.y >= y
  }

  /**
   * One pair's update of the cell value (topo.js:237-254). A spanning
   * segment with p1.y == p2.y gives 0/0, which is NaN, and NaN > gv is false.
   */
  function Step(gv: real, p1: Point, p2: Point, y: real, zMin: real): real
  {
    var crossz := p1.z > gv || p2.z > gv;
    if crossz && Spans(p1, p2, y) && p1.y != p2.y && Interp(p1, p2, y) > gv then Max(Interp(p1, p2, y), zMin)
    else gv
  }

  /** The cell value after the first n pairs of `pts`. */
  function CellFold(gv: real, pts: seq<Point>, y: real, zMin: real, n: nat): real
    requires 2 * n <= |pts|
  {
    if n == 0 then gv else Step(CellFold(gv, pts, y, zMin, n - 1), pts[2 * n - 2], pts[2 * n - 1], y, zMin)
  }

  lemma MulUnit(a: real, t: real)
    requires 0.0 <= t <= 1.0 && a >= 0.0
    ensures 0.0 <= a * t <= a
  {
  }

  lemma DivUnit(a: real, b: real)
    requires 0.0 <= a <= b && b > 0.0
    ensures 0.0 <= a / b <= 1.0
  {
  }

  lemma DivNeg(a: real, b: real)
    requires b != 0.0
    ensures (-a) / (-b) == a / b
  {
    assert (-a) / (-b) * (-b) == -a;
  }

  /** The interpolated height lies between the endpoints' heights. */
  lemma InterpBetween(p1: Point, p2: Point, y: real)
    requires Spans(p1, p2, y) && p1.y != p2.y
    ensures Min(p1.z, p2.z) <= Interp(p1, p2, y) <= Max(p1.z, p2.z)
  {
    var pct := (p1.y - y) / (p1.y - p2.y);
    DivNeg(y - p1.y, p2.y - p1.y);
    DivUnit(y - p1.y, p2.y - p1.y);
    if p1.z >= p2.z {
      MulUnit(p1.z - p2.z, pct);
    } else {
      MulUnit(p2.z - p1.z, pct);
      assert (p1.z - p2.z) * pct == -((p2.z - p1.z) * pct);
    }
  }

  /** A step never lowers the value, and what it writes is at least zMin. */
  lemma StepBounds(gv: real, p1: Point, p2: Point, y: real, zMin: real)
    ensures Step(gv, p1, p2, y, zMin) >= gv
    ensures Step(gv, p1, p2, y, zMin) == gv || Step(gv, p1, p2, y, zMin) >= zMin
    ensures Spans(p1, p2, y) && p1.y != p2.y ==> Step(gv, p1, p2, y, zMin) >= Interp(p1, p2, y)
    ensures var r := Step(gv, p1, p2, y, zMin);
      r == gv || r == zMin || (p1.y != p2.y && r == Interp(p1, p2, y))
    // a cell changes only under a non-horizontal pair spanning its y, with an endpoint and the crossing above the old value
    ensures Step(gv, p1, p2, y, zMin) != gv ==>
      && Spans(p1, p2, y) && p1.y != p2.y && (p1.z > gv || p2.z > gv) && Interp(p1, p2, y) > gv
      && Step(gv, p1, p2, y, zMin) == Max(Interp(p1, p2, y), zMin)
  {
    if Spans(p1, p2, y) && p1.y != p2.y {
      InterpBetween(p1, p2, y);
    }
  }

  /**
   * The raster's promise for one cell: it never decreases, anything written
   * is at least zMin, the result is at least the interpolated height of
   * every pair spanning the cell's y, and it is the old value, zMin or one
   * of those heights.
   */
  lemma {:induction false} CellFoldBounds(gv: real, pts: seq<Point>, y: real, zMin: real, n: nat)
    requires 2 * n <= |pts|
    ensures CellFold(gv, pts, y, zMin, n) >= gv
    ensures CellFold(gv, pts, y, zMin, n) == gv || CellFold(gv, pts, y, zMin, n) >= zMin
    ensures forall k :: 0 <= k < n && Spans(pts[2 * k], pts[2 * k + 1], y) && pts[2 * k].y != pts[2 * k + 1].y ==>
      CellFold(gv, pts, y, zMin, n) >= Interp(pts[2 * k], pts[2 * k + 1], y)
    ensures var r := CellFold(gv, pts, y, zMin, n);
      r == gv || r == zMin
      || exists k :: 0 <= k < n && pts[2 * k].y != pts[2 * k + 1].y && r == Interp(pts[2 * k], pts[2 * k + 1], y)
  {
    if n > 0 {
      CellFoldBounds(gv, pts, y, zMin, n - 1);
      var prev := CellFold(gv, pts, y, zMin, n - 1);
      StepBounds(prev, pts[2 * n - 2], pts[2 * n - 1], y, zMin);
      var r := CellFold(gv, pts, y, zMin, n);
      if r != prev && r != zMin {
        assert r == Interp(pts[2 * (n - 1)], pts[2 * (n - 1) + 1], y);
      }
    }
  }

  /** The source's arithmetic for `nz` computes the pair's step. */
  lemma StepComputed(gv: real, p1: Point, p2: Point, y: real, zMin: real, nz: real)
    requires p1.y != p2.y && nz == p1.z - (p1.z - p2.z) * ((p1.y - y) / (p1.y - p2.y))
    ensures Step(gv, p1, p2, y, zMin)
      == if (p1.z > gv || p2.z > gv) && p1.y <= y && p2.y >= y && nz > gv then Max(nz, zMin) else gv
  {
  }

  /**
   * The pair loop for one grid cell (topo.js:234-256): the running value
   * starts at `data[gridi] || 0` and each improvement is written back,
   * dropped when gridi is outside the array.
   */
  method RasterCell(data: array<real>, gridi: nat, pts: seq<Point>, y: real, zMin: real) returns (gv: real)
    requires |pts| % 2 == 0
    modifies data
    ensures gv == CellFold(if gridi < data.Length then old(data[gridi]) else 0.0, pts, y, zMin, |pts| / 2)
    ensures gridi < data.Length ==> data[gridi] == gv
    ensures forall k :: 0 <= k < data.Length && k != gridi ==> data[k] == old(data[k])
  {
    gv := if gridi < data.Length then data[gridi] else 0.0;
    ghost var gv0 := gv;
    var i := 0;
    while i < |pts|
      invariant 0 <= i <= |pts| && i % 2 == 0
      invariant gv == CellFold(gv0, pts, y, zMin, i / 2)
      invariant gridi < data.Length ==> data[gridi] == gv
      invariant forall k :: 0 <= k < data.Length && k != gridi ==> data[k] == old(data[k])
    {
      var p1, p2 := pts[i], pts[i + 1];
      var crossz := p1.z > gv || p2.z > gv;
      var spansy := p1.y <= y && p2.y >= y;
      if crossz && spansy && p1.y != p2.y {
        var dy, dz := p1.y - p2.y, p1.z - p2.z;
        var pct := (p1.y - y) / dy;
        var nz := p1.z - dz * pct;
        StepComputed(gv, p1, p2, y, zMin, nz);
        if nz > gv {
          gv := Max(nz, zMin);
          if gridi < data.Length {
            data[gridi] := gv;
          }
        }
      }
      assert 2 * (i / 2 + 1) - 2 == i;
      i := i + 2;
    }
  }

  /** The number of rows the y loop visits: it stops at maxY or after stepsy rows. */
  function Rows(minY: real, maxY: real, res: real, stepsy: int, g: nat): (r: nat)
    ensures g <= r
    ensures g < stepsy ==> r <= stepsy
    decreases stepsy - g
  {
    if g < stepsy && minY + g as real * res < maxY then Rows(minY, maxY, res, stepsy, g + 1) else g
  }

  /** Every visited row lies below maxY. */
  lemma {:induction false} RowsBelow(minY: real, maxY: real, res: real, stepsy: int, g: nat, h: nat)
    requires g <= h < Rows(minY, maxY, res, stepsy, g)
    ensures h < stepsy && minY + h as real * res < maxY
    decreases stepsy - g
  {
    if h > g {
      RowsBelow(minY, maxY, res, stepsy, g + 1, h);
    }
  }

  lemma NextRow(minY: real, res: real, g: nat)
    ensures minY + (g + 1) as real * res == minY + g as real * res + res
  {
  }

  lemma MulMono(d: int, s: int)
    requires s > 0
    ensures d >= 1 ==> d * s >= s
    ensures d <= -1 ==> d * s <= -s
  {
  }

  lemma DivModOf(q: int, r: int, s: int)
    requires s > 0 && q >= 0 && 0 <= r < s
    ensures (q * s + r) / s == q && (q * s + r) % s == r
  {
    var a := q * s + r;
    var q', r' := a / s, a % s;
    assert a == q' * s + r' && 0 <= r' < s;
    assert (q - q') * s == r' - r;
    MulMono(q - q', s);
  }

  /** The cell of grid index idx is in column gx and among its first rows rows. */
  predicate InColumn(idx: int, gx: int, rows: int, stepsy: int)
  {
    stepsy > 0 && idx / stepsy == gx && idx % stepsy < rows
  }

  /** Visiting row gy of column gx adds exactly the cell gx * stepsy + gy. */
  lemma ColumnNext(idx: int, gx: nat, gy: nat, stepsy: int)
    requires 0 <= idx && gy < stepsy
    ensures InColumn(idx, gx, gy + 1, stepsy) <==> InColumn(idx, gx, gy, stepsy) || idx == gx * stepsy + gy
    ensures idx == gx * stepsy + gy ==> !InColumn(idx, gx, gy, stepsy) && idx % stepsy == gy
  {
    DivModOf(gx, gy, stepsy);
    assert idx == (idx / stepsy) * stepsy + idx % stepsy;
  }

  /** The value a column's raster leaves at idx, once its first g rows are done. */
  function ColumnValue(v: real, idx: int, gx: int, g: int, stepsy: int, pts: seq<Point>,
                       minY: real, res: real, zMin: real): real
    requires |pts| % 2 == 0
  {
    if InColumn(idx, gx, g, stepsy) then CellFold(v, pts, minY + (idx % stepsy) as real * res, zMin, |pts| / 2) else v
  }

  lemma ColumnValueIn(v: real, idx: int, gx: int, g: int, stepsy: int, pts: seq<Point>,
                      minY: real, res: real, zMin: real)
    requires |pts| % 2 == 0 && InColumn(idx, gx, g, stepsy)
    ensures ColumnValue(v, idx, gx, g, stepsy, pts, minY, res, zMin)
      == CellFold(v, pts, minY + (idx % stepsy) as real * res, zMin, |pts| / 2)
  {
  }

  /**
   * One slice's raster column (topo.js:230-259): row gy's cell is
   * `gridx * stepsy + gy` at y = minY + gy * res, while y < maxY and gy < stepsy.
   */
  method RasterColumn(data: array<real>, gridx: nat, stepsy: int, pts: seq<Point>,
                      minY: real, maxY: real, res: real, zMin: real)
    requires |pts| % 2 == 0
    modifies data
    ensures forall idx :: 0 <= idx < data.Length ==>
      data[idx] == ColumnValue(old(data[idx]), idx, gridx, Rows(minY, maxY, res, stepsy, 0), stepsy, pts, minY, res, zMin)
  {
    ghost var rows := Rows(minY, maxY, res, stepsy, 0);
    ghost var orig := data[..];
    var gridy := 0;
    var y := minY;
    while y < maxY && gridy < stepsy
      invariant 0 <= gridy <= rows && y == minY + gridy as real * res
      invariant Rows(minY, maxY, res, stepsy, gridy) == rows
      invariant forall idx :: 0 <= idx < data.Length ==>
        data[idx] == ColumnValue(orig[idx], idx, gridx, gridy, stepsy, pts, minY, res, zMin)
      decreases stepsy - gridy
    {
      ColumnVisit(data, gridx, gridy, stepsy, pts, minY, res, y, zMin, orig);
      NextRow(minY, res, gridy);
      gridy := gridy + 1;
      y := y + res;
    }
  }

  /** The body of the row loop: rasterize cell gridx * stepsy + gridy, the column's next row. */
  method ColumnVisit(data: array<real>, gridx: nat, gridy: nat, stepsy: int, pts: seq<Point>,
                     minY: real, res: real, y: real, zMin: real, ghost orig: seq<real>)
    requires |pts| % 2 == 0 && gridy < stepsy && y == minY + gridy as real * res && |orig| == data.Length
    requires forall idx :: 0 <= idx < data.Length ==>
      data[idx] == ColumnValue(orig[idx], idx, gridx, gridy, stepsy, pts, minY, res, zMin)
    modifies data
    ensures forall idx :: 0 <= idx < data.Length ==>
      data[idx] == ColumnValue(orig[idx], idx, gridx, gridy + 1, stepsy, pts, minY, res, zMin)
  {
    var gridi := gridx * stepsy + gridy;
    var gv := RasterCell(data, gridi, pts, y, zMin);
    forall idx | 0 <= idx < data.Length
      ensures data[idx] == ColumnValue(orig[idx], idx, gridx, gridy + 1, stepsy, pts, minY, res, zMin)
    {
      ColumnNext(idx, gridx, gridy, stepsy);
      if idx == gridi {
        assert old(data[idx]) == orig[idx];
        assert idx % stepsy == gridy;
        assert data[idx] == CellFold(orig[idx], pts, y, zMin, |pts| / 2);
        assert InColumn(idx, gridx, gridy + 1, stepsy);
        assert minY + (idx % stepsy) as real * res == y;
        ColumnValueIn(orig[idx], idx, gridx, gridy + 1, stepsy, pts, minY, res, zMin);
        assert ColumnValue(orig[idx], idx, gridx, gridy + 1, stepsy, pts, minY, res, zMin) == CellFold(orig[idx], pts, y, zMin, |pts| / 2);
      } else {
        assert data[idx] == old(data[idx]);
        assert InColumn(idx, gridx, gridy + 1, stepsy) == InColumn(idx, gridx, gridy, stepsy);
        assert old(data[idx]) == ColumnValue(orig[idx], idx, gridx, gridy, stepsy, pts, minY, res, zMin);
      }
    }
  }

  /** The raster's value for grid index idx: the cell fold of its column's slice at its row's y, or the old value. */
  function RasterAt(v: real, idx: int, slices: seq<seq<Point>>, stepsy: int,
                    minY: real, maxY: real, res: real, zMin: real): real
    requires forall j :: 0 <= j < |slices| ==> |slices[j]| % 2 == 0
  {
    var rows := Rows(minY, maxY, res, stepsy, 0);
    if stepsy > 0 && 0 <= idx / stepsy < |slices| && idx % stepsy < rows
    then CellFold(v, slices[idx / stepsy], minY + (idx % stepsy) as real * res, zMin, |slices[idx / stepsy]| / 2)
    else v
  }

  /**
   * A cell after the raster is never below what it was, is its old value or
   * at least zMin, and is at least every height interpolated from its slice.
   */
  lemma RasterAtBounds(v: real, idx: int, slices: seq<seq<Point>>, stepsy: int,
                       minY: real, maxY: real, res: real, zMin: real)
    requires forall j :: 0 <= j < |slices| ==> |slices[j]| % 2 == 0
    ensures RasterAt(v, idx, slices, stepsy, minY, maxY, res, zMin) >= v
    ensures var r := RasterAt(v, idx, slices, stepsy, minY, maxY, res, zMin);
      r == v || r >= zMin
    ensures stepsy > 0 && 0 <= idx / stepsy < |slices| && idx % stepsy < Rows(minY, maxY, res, stepsy, 0) ==>
      var pts, y := slices[idx / stepsy], minY + (idx % stepsy) as real * res;
      forall k :: 0 <= k < |pts| / 2 && Spans(pts[2 * k], pts[2 * k + 1], y) && pts[2 * k].y != pts[2 * k + 1].y ==>
        RasterAt(v, idx, slices, stepsy, minY, maxY, res, zMin) >= Interp(pts[2 * k], pts[2 * k + 1], y)
  {
    if stepsy > 0 && 0 <= idx / stepsy < |slices| && idx % stepsy < Rows(minY, maxY, res, stepsy, 0) {
      var pts, y := slices[idx / stepsy], minY + (idx % stepsy) as real * res;
      CellFoldBounds(v, pts, y, zMin, |pts| / 2);
      RasterAtIn(v, idx, slices, stepsy, minY, maxY, res, zMin);
    }
  }

  /** Inside the rastered columns and rows, a cell's raster is its fold. */
  lemma RasterAtIn(v: real, idx: int, slices: seq<seq<Point>>, stepsy: int,
                   minY: real, maxY: real, res: real, zMin: real)
    requires forall j :: 0 <= j < |slices| ==> |slices[j]| % 2 == 0
    requires stepsy > 0 && 0 <= idx / stepsy < |slices| && idx % stepsy < Rows(minY, maxY, res, stepsy, 0)
    ensures RasterAt(v, idx, slices, stepsy, minY, maxY, res, zMin)
      == CellFold(v, slices[idx / stepsy], minY + (idx % stepsy) as real * res, zMin, |slices[idx / stepsy]| / 2)
  {
  }

  /** Rastering column gx on top of the first gx columns gives the first gx + 1. */
  lemma RasterAtNext(v: real, idx: int, slices: seq<seq<Point>>, gx: nat, stepsy: int,
                     minY: real, maxY: real, res: real, zMin: real)
    requires forall j :: 0 <= j < |slices| ==> |slices[j]| % 2 == 0
    requires gx < |slices| && idx >= 0
    ensures RasterAt(v, idx, slices[..gx + 1], stepsy, minY, maxY, res, zMin)
      == ColumnValue(RasterAt(v, idx, slices[..gx], stepsy, minY, maxY, res, zMin), idx, gx,
                     Rows(minY, maxY, res, stepsy, 0), stepsy, slices[gx], minY, res, zMin)
  {
    if stepsy > 0 {
      assert idx / stepsy >= 0;
      if idx / stepsy == gx {
        assert slices[..gx + 1][gx] == slices[gx];
      } else if idx / stepsy < gx {
        assert slices[..gx + 1][idx / stepsy] == slices[..gx][idx / stepsy];
      }
    }
  }

  /** The raster loop over all slices (topo.js:228-260); gridx counts the slices from 0. */
  method Raster(data: array<real>, slices: seq<seq<Point>>, stepsy: int,
                minY: real, maxY: real, res: real, zMin: real)
    requires forall j :: 0 <= j < |slices| ==> |slices[j]| % 2 == 0
    modifies data
    ensures forall idx :: 0 <= idx < data.Length ==>
      data[idx] == RasterAt(old(data[idx]), idx, slices, stepsy, minY, maxY, res, zMin)
  {
    var gridx := 0;
    while gridx < |slices|
      invariant 0 <= gridx <= |slices|
      invariant forall idx :: 0 <= idx < data.Length ==>
        data[idx] == RasterAt(old(data[idx]), idx, slices[..gridx], stepsy, minY, maxY, res, zMin)
    {
      ghost var before := data[..];
      RasterColumn(data, gridx, stepsy, slices[gridx], minY, maxY, res, zMin);
      forall idx | 0 <= idx < data.Length
        ensures data[idx] == RasterAt(old(data[idx]), idx, slices[..gridx + 1], stepsy, minY, maxY, res, zMin)
      {
        RasterAtNext(old(data[idx]), idx, slices, gridx, stepsy, minY, maxY, res, zMin);
      }
      gridx := gridx + 1;
    }
    assert slices[..gridx] == slices;
    forall idx | 0 <= idx < data.Length
      ensures data[idx] == RasterAt(old(data[idx]), idx, slices, stepsy, minY, maxY, res, zMin)
    {
      assert data[idx] == RasterAt(old(data[idx]), idx, slices[..gridx], stepsy, minY, maxY, res, zMin);
    }
  }

  /**
   * `processSlices`' first two phases (topo.js:190-260): every slice's lines
   * are filtered to their kept pairs, then rastered into the grid.
   */
  method ProcessSlices(data: array<real>, lines: seq<seq<Seg>>, stepsy: int,
                       minY: real, maxY: real, res: real, zMin: real) returns (points: seq<seq<Point>>)
    modifies data
    ensures |points| == |lines|
    ensures forall j :: 0 <= j < |lines| ==> points[j] == KeptPoints(lines[j], zMin, |lines[j]|)
    ensures forall j :: 0 <= j < |points| ==> |points[j]| % 2 == 0
    ensures forall idx :: 0 <= idx < data.Length ==>
      data[idx] == RasterAt(old(data[idx]), idx, points, stepsy, minY, maxY, res, zMin)
  {
    points := [];
    var j := 0;
    while j < |lines|
      invariant 0 <= j <= |lines| && |points| == j
      invariant forall m :: 0 <= m < j ==> points[m] == KeptPoints(lines[m], zMin, |lines[m]|)
      invariant forall m :: 0 <= m < j ==> |points[m]| % 2 == 0
      invariant unchanged(data)
    {
      var pts := FilterLines(lines[j], zMin);
      KeptPointsEven(lines[j], zMin, |lines[j]|);
      points := points + [pts];
      j := j + 1;
    }
    Raster(data, points, stepsy, minY, maxY, res, zMin);
  }

  /** A raster started from the zero grid leaves every cell empty (0) or at least zMin. */
  lemma RasterFromZero(idx: int, slices: seq<seq<Point>>, stepsy: int,
                       minY: real, maxY: real, res: real, zMin: real)
    requires forall j :: 0 <= j < |slices| ==> |slices[j]| % 2 == 0
    ensures var r := RasterAt(0.0, idx, slices, stepsy, minY, maxY, res, zMin);
      r == 0.0 || r >= zMin
  {
    RasterAtBounds(0.0, idx, slices, stepsy, minY, maxY, res, zMin);
  }

  /**
   * The grid of the `Topo` constructor (topo.js:49 and 190-260): a new
   * `Float32Array` of stepsx * stepsy zeros, filtered slices rastered into
   * it. Every cell ends at its raster value, and so is empty or at least zMin.
   */
  method BuildGrid(lines: seq<seq<Seg>>, stepsx: nat, stepsy: nat,
                   minY: real, maxY: real, res: real, zMin: real) returns (data: array<real>, points: seq<seq<Point>>)
    ensures fresh(data) && data.Length == stepsx * stepsy
    ensures |points| == |lines| && forall j :: 0 <= j < |lines| ==> points[j] == KeptPoints(lines[j], zMin, |lines[j]|)
    ensures forall j :: 0 <= j < |points| ==> |points[j]| % 2 == 0
    ensures forall idx :: 0 <= idx < data.Length ==>
      data[idx] == RasterAt(0.0, idx, points, stepsy, minY, maxY, res, zMin)
    ensures forall idx :: 0 <= idx < data.Length ==> data[idx] == 0.0 || data[idx] >= zMin
  {
    data := new real[stepsx * stepsy](_ => 0.0);
    points := ProcessSlices(data, lines, stepsy, minY, maxY, res, zMin);
    forall idx | 0 <= idx < data.Length
      ensures data[idx] == 0.0 || data[idx] >= zMin
    {
      RasterFromZero(idx, points, stepsy, minY, maxY, res, zMin);
    }
  }

  // ---------------------------------------------------------------- toolAtZ

  /** One tool profile sample: grid offsets and a z offset (`generateProfile` triples). */
  datatype Offset = Offset(dx: int, dy: int, dz: real)

  /** `gv` of toolAtZ: zMin off the grid or on an empty (0) cell, else the cell's value. */
  function GridValue(grid: seq<real>, sx: int, sy: int, tx: int, ty: int, zMin: real): real
  {
    if tx < 0 || tx > sx - 1 || ty < 0 || ty > sy - 1 then zMin
    else
      var i := tx * sy + ty;
      if 0 <= i < |grid| && grid[i] != 0.0 then grid[i] else zMin
  }

  /** The running max `mz` over the first n profile samples, from -1. */
  function ProfileMax(grid: seq<real>, sx: int, sy: int, profile: seq<Offset>, x: int, y: int, zMin: real, n: nat): real
    requires n <= |profile|
  {
    if n == 0 then -1.0
    else
      var o := profile[n - 1];
      Max(o.dz + GridValue(grid, sx, sy, o.dx + x, o.dy + y, zMin), ProfileMax(grid, sx, sy, profile, x, y, zMin, n - 1))
  }

  /** What toolAtZ returns: the running max over the whole profile, at least 0. */
  function ToolZ(grid: seq<real>, sx: int, sy: int, profile: seq<Offset>, x: int, y: int, zMin: real): real
  {
    Max(ProfileMax(grid, sx, sy, profile, x, y, zMin, |profile|), 0.0)
  }

  lemma {:induction false} ProfileMaxBounds(grid: seq<real>, sx: int, sy: int, profile: seq<Offset>, x: int, y: int, zMin: real, n: nat)
    requires n <= |profile|
    ensures forall k :: 0 <= k < n ==>
      ProfileMax(grid, sx, sy, profile, x, y, zMin, n)
        >= profile[k].dz + GridValue(grid, sx, sy, profile[k].dx + x, profile[k].dy + y, zMin)
    ensures var m := ProfileMax(grid, sx, sy, profile, x, y, zMin, n);
      m == -1.0 || exists k :: 0 <= k < n && m == profile[k].dz + GridValue(grid, sx, sy, profile[k].dx + x, profile[k].dy + y, zMin)
  {
    if n > 0 {
      ProfileMaxBounds(grid, sx, sy, profile, x, y, zMin, n - 1);
    }
  }

  /**
   * The tool touches down at the highest profile sample: the height is at
   * least 0 and at least tz + gv for every sample, and is 0 or attained by
   * one of them.
   */
  lemma ToolZBounds(grid: seq<real>, sx: int, sy: int, profile: seq<Offset>, x: int, y: int, zMin: real)
    ensures ToolZ(grid, sx, sy, profile, x, y, zMin) >= 0.0
    ensures forall k :: 0 <= k < |profile| ==>
      ToolZ(grid, sx, sy, profile, x, y, zMin)
        >= profile[k].dz + GridValue(grid, sx, sy, profile[k].dx + x, profile[k].dy + y, zMin)
    ensures var r := ToolZ(grid, sx, sy, profile, x, y, zMin);
      r == 0.0 || exists k :: 0 <= k < |profile| && r == profile[k].dz + GridValue(grid, sx, sy, profile[k].dx + x, profile[k].dy + y, zMin)
  {
    ProfileMaxBounds(grid, sx, sy, profile, x, y, zMin, |profile|);
  }

  /**
   * On a grid of stepsx * stepsy cells every on-grid sample indexes the
   * grid, and reads zMin exactly when its cell is empty; an off-grid sample
   * reads zMin.
   */
  lemma GridValueFallback(grid: seq<real>, sx: int, sy: int, tx: int, ty: int, zMin: real)
    requires |grid| == sx * sy
    ensures tx < 0 || tx > sx - 1 || ty < 0 || ty > sy - 1 ==> GridValue(grid, sx, sy, tx, ty, zMin) == zMin
    ensures 0 <= tx < sx && 0 <= ty < sy ==>
      0 <= tx * sy + ty < |grid|
      && GridValue(grid, sx, sy, tx, ty, zMin) == if grid[tx * sy + ty] == 0.0 then zMin else grid[tx * sy + ty]
  {
    if 0 <= tx < sx && 0 <= ty < sy {
      assert tx * sy + ty < (tx + 1) * sy;
      assert (tx + 1) * sy <= sx * sy;
    }
  }

  /** On a grid whose cells are empty or at least zMin, every sample reads at least zMin. */
  lemma GridValueFloor(grid: seq<real>, sx: int, sy: int, tx: int, ty: int, zMin: real)
    requires forall i :: 0 <= i < |grid| ==> grid[i] == 0.0 || grid[i] >= zMin
    ensures GridValue(grid, sx, sy, tx, ty, zMin) >= zMin
  {
  }

  /**
   * On such a grid the tool never touches down below its own profile
   * resting on the floor: the height is at least dz + zMin for every sample.
   */
  lemma ToolZFloor(grid: seq<real>, sx: int, sy: int, profile: seq<Offset>, x: int, y: int, zMin: real)
    requires forall i :: 0 <= i < |grid| ==> grid[i] == 0.0 || grid[i] >= zMin
    ensures forall k :: 0 <= k < |profile| ==> ToolZ(grid, sx, sy, profile, x, y, zMin) >= profile[k].dz + zMin
  {
    ToolZBounds(grid, sx, sy, profile, x, y, zMin);
    forall k | 0 <= k < |profile|
      ensures ToolZ(grid, sx, sy, profile, x, y, zMin) >= profile[k].dz + zMin
    {
      GridValueFloor(grid, sx, sy, profile[k].dx + x, profile[k].dy + y, zMin);
    }
  }

  /** A flat-ended tool: one sample at offset (0, 0), depth 0. */
  const FlatProfile: seq<Offset> := [Offset(0, 0, 0.0)]

  /** A flat-ended tool reads the grid where it stands, clamped at 0. */
  lemma FlatTool(grid: seq<real>, sx: int, sy: int, x: int, y: int, zMin: real)
    ensures ToolZ(grid, sx, sy, FlatProfile, x, y, zMin) == Max(GridValue(grid, sx, sy, x, y, zMin), 0.0)
  {
    var gv := GridValue(grid, sx, sy, x, y, zMin);
    assert FlatProfile[0].dx + x == x && FlatProfile[0].dy + y == y && FlatProfile[0].dz == 0.0;
    assert FlatProfile[..0] == [];
    assert ProfileMax(grid, sx, sy, FlatProfile, x, y, zMin, 0) == -1.0;
    assert ProfileMax(grid, sx, sy, FlatProfile, x, y, zMin, 1) == Max(0.0 + gv, -1.0);
  }

  /**
   * A flat plane: when every cell holds the same non-zero height h >= 0, a
   * flat-ended tool touches down exactly at h on every cell of the grid.
   */
  lemma FlatToolOnPlane(grid: seq<real>, sx: int, sy: int, x: int, y: int, zMin: real, h: real)
    requires |grid| == sx * sy && 0 <= x < sx && 0 <= y < sy
    requires h != 0.0 && h >= 0.0 && forall i :: 0 <= i < |grid| ==> grid[i] == h
    ensures ToolZ(grid, sx, sy, FlatProfile, x, y, zMin) == h
  {
    FlatTool(grid, sx, sy, x, y, zMin);
    GridValueFallback(grid, sx, sy, x, y, zMin);
  }

  /** `toolAtZ(x, y)` (topo.js:109-135): the loop with the running max `mz`. */
  method ToolAtZ(data: array<real>, sx: int, sy: int, profile: seq<Offset>, x: int, y: int, zMin: real) returns (r: real)
    ensures r == ToolZ(data[..], sx, sy, profile, x, y, zMin)
  {
    var mz := -1.0;
    var i := 0;
    while i < |profile|
      invariant 0 <= i <= |profile|
      invariant mz == ProfileMax(data[..], sx, sy, profile, x, y, zMin, i)
    {
      var tx := profile[i].dx + x;
      var ty := profile[i].dy + y;
      var tz := profile[i].dz;
      var gv;
      if tx < 0 || tx > sx - 1 || ty < 0 || ty > sy - 1 {
        gv := zMin;
      } else {
        var gi := tx * sy + ty;
        gv := if gi < data.Length && data[gi] != 0.0 then data[gi] else zMin;
      }
      mz := Max(tz + gv, mz);
      i := i + 1;
    }
    r := Max(mz, 0.0);
  }
}
