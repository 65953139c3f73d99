/**
 * Drilling (`sliceDrill`, src/mode/cam/slice.js:443-493) and drill
 * registration (`sliceDrillReg`, slice.js:495-533).
 *
 * The polygon measures are foreign: each inner polygon comes with its
 * circularity, its area and its circle center already computed (`Hole`),
 * and the polygon center used to finalise a cluster (`drill.center(true)`)
 * is the parameter `center`.
 */
module CamDrill {
  import opened Geometry

  /** `Math.PI` as a real. */
  const PI: real := 3.141592653589793

  /** An inner polygon of a slice, with the foreign measures the drill test uses. */
  datatype Hole = Hole(circularity: real, area: real, center: Point)

  /** A hole is drillable: nearly circular, with an area within 5% of the tool's (slice.js:448-449, 456). */
  predicate Drillable(h: Hole, toolDiam: real)
  {
    var area := (toolDiam / 2.0) * (toolDiam / 2.0) * PI;
    h.circularity >= 0.985 && Abs(h.area - area) <= area * 0.05
  }

  /** `a.distTo2D(b) <= d`, without the square root: exact for every d. */
  predicate Near(a: Point, b: Point, d: real)
  {
    d >= 0.0 && (a.x - b.x) * (a.x - b.x) + (a.y - b.y) * (a.y - b.y) <= d * d
  }

  /** The drill candidates: the centers of the drillable holes, slice by slice, in order. */
  function Candidates(slices: seq<seq<Hole>>, toolDiam: real): seq<Point>
  {
    if slices == [] then []
    else Candidates(slices[..|slices| - 1], toolDiam) + Matching(slices[|slices| - 1], toolDiam)
  }

  function Matching(holes: seq<Hole>, toolDiam: real): seq<Point>
  {
    if holes == [] then []
    else
      var h := holes[|holes| - 1];
      Matching(holes[..|holes| - 1], toolDiam) + (if Drillable(h, toolDiam) then [h.center] else [])
  }

  ghost predicate NonEmptyClusters(drills: seq<seq<Point>>)
  {
    forall i :: 0 <= i < |drills| ==> drills[i] != []
  }

  /** The first cluster whose last-added center is near c, or |drills| when there is none. */
  function FirstNear(drills: seq<seq<Point>>, c: Point, diff: real, from: nat): (r: nat)
    requires NonEmptyClusters(drills) && from <= |drills|
    ensures from <= r <= |drills|
    ensures r < |drills| ==> Near(drills[r][|drills[r]| - 1], c, diff)
    ensures forall j :: from <= j < r ==> !Near(drills[j][|drills[j]| - 1], c, diff)
    decreases |drills| - from
  {
    if from == |drills| then from
    else if Near(drills[from][|drills[from]| - 1], c, diff) then from
    else FirstNear(drills, c, diff, from + 1)
  }

  /** One candidate joins the first near cluster, or starts a new one. */
  function Join(drills: seq<seq<Point>>, c: Point, diff: real): (r: seq<seq<Point>>)
    requires NonEmptyClusters(drills)
    ensures NonEmptyClusters(r)
  {
    var i := FirstNear(drills, c, diff, 0);
    if i < |drills| then drills[i := drills[i] + [c]] else drills + [[c]]
  }

  /** The clusters built from the candidates, in order. */
  function Clusters(cands: seq<Point>, diff: real): (r: seq<seq<Point>>)
    ensures NonEmptyClusters(r)
  {
    if cands == [] then [] else Join(Clusters(cands[..|cands| - 1], diff), cands[|cands| - 1], diff)
  }

  function Flatten(d: seq<seq<Point>>): seq<Point>
  {
    if d == [] then [] else d[0] + Flatten(d[1..])
  }

  lemma {:induction false} FlattenUpdate(d: seq<seq<Point>>, i: nat, x: seq<Point>)
    requires i < |d|
    ensures multiset(Flatten(d[i := x])) + multiset(d[i]) == multiset(Flatten(d)) + multiset(x)
  {
    if i > 0 {
      var d1 := d[1..];
      assert d[i := x][1..] == d1[i - 1 := x];
      assert d1[i - 1] == d[i];
      FlattenUpdate(d1, i - 1, x);
      assert Flatten(d[i := x]) == d[0] + Flatten(d1[i - 1 := x]);
      assert multiset(Flatten(d[i := x])) == multiset(d[0]) + multiset(Flatten(d1[i - 1 := x]));
      assert multiset(Flatten(d)) == multiset(d[0]) + multiset(Flatten(d1));
      calc {
        multiset(Flatten(d[i := x])) + multiset(d[i]);
        multiset(d[0]) + (multiset(Flatten(d1[i - 1 := x])) + multiset(d1[i - 1]));
        multiset(d[0]) + (multiset(Flatten(d1)) + multiset(x));
        multiset(Flatten(d)) + multiset(x);
      }
    } else {
      assert d[i := x][1..] == d[1..];
    }
  }

  lemma {:induction false} FlattenAppend(d: seq<seq<Point>>, x: seq<Point>)
    ensures Flatten(d + [x]) == Flatten(d) + x
  {
    if d == [] {
      assert [x][1..] == [];
    } else {
      assert (d + [x])[1..] == d[1..] + [x];
      FlattenAppend(d[1..], x);
    }
  }

  lemma AddToCluster(d: seq<seq<Point>>, i: nat, c: Point)
    requires i < |d|
    ensures multiset(Flatten(d[i := d[i] + [c]])) == multiset(Flatten(d)) + multiset{c}
  {
    var x := d[i] + [c];
    FlattenUpdate(d, i, x);
    var after, before := multiset(Flatten(d[i := x])), multiset(Flatten(d));
    calc {
      after;
      (after + multiset(d[i])) - multiset(d[i]);
      (before + multiset(x)) - multiset(d[i]);
      { assert multiset(x) == multiset(d[i]) + multiset{c}; }
      (before + multiset{c} + multiset(d[i])) - multiset(d[i]);
      before + multiset{c};
    }
  }

  lemma NewCluster(d: seq<seq<Point>>, c: Point)
    ensures multiset(Flatten(d + [[c]])) == multiset(Flatten(d)) + multiset{c}
  {
    FlattenAppend(d, [c]);
  }

  /** Joining adds the candidate to exactly one cluster and creates at most one. */
  lemma JoinPartition(d: seq<seq<Point>>, c: Point, diff: real)
    requires NonEmptyClusters(d)
    ensures multiset(Flatten(Join(d, c, diff))) == multiset(Flatten(d)) + multiset{c}
    ensures |Join(d, c, diff)| <= |d| + 1
  {
    var i := FirstNear(d, c, diff, 0);
    if i < |d| {
      AddToCluster(d, i, c);
    } else {
      NewCluster(d, c);
    }
  }

  /**
   * Every candidate lands in exactly one cluster (the clusters' points are a
   * permutation of the candidates), and there are no more clusters than candidates.
   */
  lemma {:induction false} ClustersPartition(cands: seq<Point>, diff: real)
    ensures multiset(Flatten(Clusters(cands, diff))) == multiset(cands)
    ensures |Clusters(cands, diff)| <= |cands|
  {
    if cands != [] {
      var init := cands[..|cands| - 1];
      ClustersPartition(init, diff);
      JoinPartition(Clusters(init, diff), cands[|cands| - 1], diff);
      assert cands == init + [cands[|cands| - 1]];
    }
  }

  /**
   * The merge of one center (slice.js:463-473): the first cluster whose
   * last-added center is near takes it, else it starts a new cluster.
   * The source's forEach returns early once `merged` is set.
   */
  method MergeCenter(drills: seq<seq<Point>>, center: Point, centerDiff: real) returns (r: seq<seq<Point>>)
    requires NonEmptyClusters(drills)
    ensures r == Join(drills, center, centerDiff)
  {
    r := drills;
    var merged := false;
    var k := 0;
    while k < |r| && !merged
      invariant 0 <= k <= |drills| == |r|
      invariant !merged ==> r == drills && FirstNear(drills, center, centerDiff, k) == FirstNear(drills, center, centerDiff, 0)
      invariant merged ==>
        (k > 0 && FirstNear(drills, center, centerDiff, 0) == k - 1 && r == drills[k - 1 := drills[k - 1] + [center]])
    {
      if Near(r[k][|r[k]| - 1], center, centerDiff) {
        merged := true;
        r := r[k := r[k] + [center]];
      }
      k := k + 1;
    }
    if !merged {
      r := r + [[center]];
    }
  }

  lemma CandidatesSnoc(slices: seq<seq<Hole>>, s: nat, toolDiam: real)
    requires s < |slices|
    ensures Candidates(slices[..s + 1], toolDiam) == Candidates(slices[..s], toolDiam) + Matching(slices[s], toolDiam)
  {
    assert slices[..s + 1][..s] == slices[..s];
  }

  lemma MatchingSnoc(holes: seq<Hole>, h: nat, toolDiam: real)
    requires h < |holes|
    ensures Matching(holes[..h + 1], toolDiam)
      == Matching(holes[..h], toolDiam) + (if Drillable(holes[h], toolDiam) then [holes[h].center] else [])
  {
    assert holes[..h + 1][..h] == holes[..h];
  }

  /** Pre- and post-state of one candidate being clustered. */
  lemma ClustersSnoc(prefix: seq<Point>, c: Point, diff: real)
    ensures Clusters(prefix + [c], diff) == Join(Clusters(prefix, diff), c, diff)
  {
    assert (prefix + [c])[..|prefix|] == prefix;
  }

  /**
   * The clustering loops of slice.js:453-476: each drillable hole's center
   * joins the first cluster whose last-added center is within a tenth of the
   * tool diameter, or starts a new cluster. (The `closest` bookkeeping is
   * never read and is left out.)
   */
  method ClusterHoles(slices: seq<seq<Hole>>, toolDiam: real) returns (drills: seq<seq<Point>>)
    ensures drills == Clusters(Candidates(slices, toolDiam), toolDiam * 0.1)
  {
    var centerDiff := toolDiam * 0.1;
    drills := [];
    var s := 0;
    while s < |slices|
      invariant 0 <= s <= |slices|
      invariant drills == Clusters(Candidates(slices[..s], toolDiam), centerDiff)
    {
      drills := ClusterSlice(drills, Candidates(slices[..s], toolDiam), slices[s], toolDiam, centerDiff);
      CandidatesSnoc(slices, s, toolDiam);
      s := s + 1;
    }
    assert slices[..s] == slices;
  }

  /** The inner loop of slice.js:455-475, over the inner polygons of one slice. */
  method ClusterSlice(drills: seq<seq<Point>>, ghost before: seq<Point>, inner: seq<Hole>, toolDiam: real, centerDiff: real)
    returns (r: seq<seq<Point>>)
    requires drills == Clusters(before, centerDiff)
    ensures r == Clusters(before + Matching(inner, toolDiam), centerDiff)
  {
    r := drills;
    var h := 0;
    assert before + Matching(inner[..0], toolDiam) == before;
    while h < |inner|
      invariant 0 <= h <= |inner|
      invariant r == Clusters(before + Matching(inner[..h], toolDiam), centerDiff)
    {
      var poly := inner[h];
      MatchingSnoc(inner, h, toolDiam);
      if Drillable(poly, toolDiam) {
        ClustersSnoc(before + Matching(inner[..h], toolDiam), poly.center, centerDiff);
        assert before + Matching(inner[..h + 1], toolDiam) == before + Matching(inner[..h], toolDiam) + [poly.center];
        r := MergeCenter(r, poly.center, centerDiff);
      } else {
        assert before + Matching(inner[..h + 1], toolDiam) == before + Matching(inner[..h], toolDiam);
      }
      h := h + 1;
    }
    assert inner[..h] == inner;
  }

  /**
   * `sliceDrill` (slice.js:444-493): one DRILL slice per cluster, in creation
   * order; every point of a cluster is moved to the cluster center's x and y
   * and keeps its z.
   */
  method SliceDrill(slices: seq<seq<Hole>>, toolDiam: real, center: seq<Point> -> Point) returns (out: seq<Slice>)
    ensures var d := Clusters(Candidates(slices, toolDiam), toolDiam * 0.1);
      && |out| == |d|
      && forall i :: 0 <= i < |out| ==>
        && out[i].mode == DRILL && out[i].z == 0.0 && |out[i].lines| == 1
        && |out[i].lines[0]| == |d[i]|
        && forall k :: 0 <= k < |d[i]| ==>
             out[i].lines[0][k] == Point(center(d[i]).x, center(d[i]).y, d[i][k].z)
  {
    var drills := ClusterHoles(slices, toolDiam);
    out := [];
    var i := 0;
    while i < |drills|
      invariant 0 <= i <= |drills| && |out| == i
      invariant forall j :: 0 <= j < i ==>
        && out[j].mode == DRILL && out[j].z == 0.0 && |out[j].lines| == 1
        && |out[j].lines[0]| == |drills[j]|
        && forall k :: 0 <= k < |drills[j]| ==>
             out[j].lines[0][k] == Point(center(drills[j]).x, center(drills[j]).y, drills[j][k].z)
    {
      var drill := drills[i];
      var c := center(drill);
      var moved: seq<Point> := [];
      var k := 0;
      while k < |drill|
        invariant 0 <= k <= |drill| && |moved| == k
        invariant forall m :: 0 <= m < k ==> moved[m] == Point(c.x, c.y, drill[m].z)
      {
        moved := moved + [Point(c.x, c.y, drill[k].z)];
        k := k + 1;
      }
      out := out + [Slice(0.0, DRILL, [moved])];
      i := i + 1;
    }
  }

  /** The stock dimensions (`settings.stock`). */
  datatype Stock = Stock(x: real, y: real, z: real)

  /** One vertical plunge: from the part top down through the stock and the through-cut margin. */
  function Plunge(x: real, y: real, top: real, stockZ: real, zThru: real): seq<Point>
  {
    [Point(x, y, top), Point(x, y, top - stockZ - zThru)]
  }

  /**
   * `sliceDrillReg` (slice.js:496-533): "x axis" gives two plunges at the
   * part's middle y, outside the part on x by a quarter of the spare stock;
   * "y axis" is the same with the axes swapped; any other value adds no slice.
   */
  function SliceDrillReg(reg: string, stock: Stock, minP: Point, maxP: Point, zThru: real): (out: seq<Slice>)
    ensures reg != "x axis" && reg != "y axis" ==> out == []
    ensures reg == "x axis" || reg == "y axis" ==> |out| == 1 && out[0].mode == DRILL && |out[0].lines| == 2
    ensures reg == "x axis" ==>
      var dx := (stock.x - (maxP.x - minP.x)) / 4.0;
      var my := (maxP.y + minP.y) / 2.0;
      out[0].lines == [Plunge(minP.x - dx, my, maxP.z, stock.z, zThru), Plunge(maxP.x + dx, my, maxP.z, stock.z, zThru)]
    ensures reg == "y axis" ==>
      var dy := (stock.y - (maxP.y - minP.y)) / 4.0;
      var mx := (maxP.x + minP.x) / 2.0;
      out[0].lines == [Plunge(mx, minP.y - dy, maxP.z, stock.z, zThru), Plunge(mx, maxP.y + dy, maxP.z, stock.z, zThru)]
  {
    var mx := (maxP.x + minP.x) / 2.0;
    var my := (maxP.y + minP.y) / 2.0;
    var dx := (stock.x - (maxP.x - minP.x)) / 4.0;
    var dy := (stock.y - (maxP.y - minP.y)) / 4.0;
    var points :=
      if reg == "x axis" then [Point(minP.x - dx, my, 0.0), Point(maxP.x + dx, my, 0.0)]
      else if reg == "y axis" then [Point(mx, minP.y - dy, 0.0), Point(mx, maxP.y + dy, 0.0)]
      else [];
    if |points| > 0 then
      [Slice(0.0, DRILL, seq(|points|, i requires 0 <= i < |points| => Plunge(points[i].x, points[i].y, maxP.z, stock.z, zThru)))]
    else []
  }

  /**
   * When the stock is at least as wide as the part, the registration
   * plunges lie on or outside the part's extent, straddle its middle, and
   * each one is vertical; with a non-negative stock depth and margin it goes down.
   */
  lemma DrillRegOutsidePart(reg: string, stock: Stock, minP: Point, maxP: Point, zThru: real)
    requires reg == "x axis" || reg == "y axis"
    requires stock.x >= maxP.x - minP.x && stock.y >= maxP.y - minP.y
    ensures var out := SliceDrillReg(reg, stock, minP, maxP, zThru);
      var p1, p2 := out[0].lines[0], out[0].lines[1];
      && (reg == "x axis" ==> p1[0].x <= minP.x && p2[0].x >= maxP.x && p1[0].y == p2[0].y == (minP.y + maxP.y) / 2.0)
      && (reg == "y axis" ==> p1[0].y <= minP.y && p2[0].y >= maxP.y && p1[0].x == p2[0].x == (minP.x + maxP.x) / 2.0)
      && p1[0].x == p1[1].x && p1[0].y == p1[1].y && p2[0].x == p2[1].x && p2[0].y == p2[1].y
      && p1[0].z == p2[0].z == maxP.z
      && (stock.z + zThru >= 0.0 ==> p1[1].z <= p1[0].z)
  {
  }
}
