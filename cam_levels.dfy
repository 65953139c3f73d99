/**
 * The Z-level schedules of roughing and outlining in `CAM.slice`
 * (src/mode/cam/slice.js:175-223 and 312-334).
 *
 * `slicer.interval` and the slicer's flat map `zFlat` are foreign: their
 * results are inputs here (`indices`, and the flat heights `flatKeys`,
 * already parsed; the source's `.round(4)` / `.round(5)` are not modelled).
 * The per-level shadow union is a foreign polygon call, passed in as `union`.
 */
module CamLevels {
  import opened Wrappers

  /** Non-increasing: the order `sort((a, b) => b - a)` produces. */
  ghost predicate Descending(s: seq<real>)
  {
    forall i, j :: 0 <= i < j < |s| ==> s[i] >= s[j]
  }

  /** Insert into a descending list, after any equal values. */
  function Insert(x: real, s: seq<real>): (r: seq<real>)
    ensures multiset(r) == multiset(s) + multiset{x}
    ensures Descending(s) ==> Descending(r)
  {
    if s == [] then [x]
    else if x > s[0] then [x] + s
    else
      var t := Insert(x, s[1..]);
      assert s == [s[0]] + s[1..];
      InsertBelowHead(x, s, t);
      ConsDescending(s, t);
      [s[0]] + t
  }

  /** What is inserted after the head of a descending list stays below the head. */
  lemma InsertBelowHead(x: real, s: seq<real>, t: seq<real>)
    requires s != [] && x <= s[0] && multiset(t) == multiset(s[1..]) + multiset{x}
    ensures Descending(s) ==> forall y :: y in t ==> y <= s[0]
  {
    if Descending(s) {
      forall y | y in t ensures y <= s[0] {
        assert y in multiset(t);
        if y != x {
          assert y in multiset(s[1..]);
          var k :| 0 <= k < |s[1..]| && s[1..][k] == y;
          assert s[k + 1] == y;
        }
      }
    }
  }

  lemma ConsDescending(s: seq<real>, t: seq<real>)
    requires s != []
    requires Descending(s) ==> Descending(t) && forall y :: y in t ==> y <= s[0]
    ensures Descending(s) ==> Descending([s[0]] + t)
  {
    if Descending(s) {
      var r := [s[0]] + t;
      forall i, j | 0 <= i < j < |r| ensures r[i] >= r[j] {
        if i == 0 {
          assert r[j] == t[j - 1] && t[j - 1] in t;
        } else {
          assert r[i] == t[i - 1] && r[j] == t[j - 1];
        }
      }
    }
  }

  /** The descending sort of slice.js:188, 207 and 317. */
  function SortDesc(s: seq<real>): (r: seq<real>)
    ensures Descending(r)
    ensures multiset(r) == multiset(s)
  {
    if s == [] then []
    else
      assert s == [s[0]] + s[1..];
      Insert(s[0], SortDesc(s[1..]))
  }

  /** The flats kept in snap mode (slice.js:180-182). */
  function FlatsAtLeast(keys: seq<real>, zBottom: real): (r: seq<real>)
    ensures forall v :: v in r <==> v in keys && v >= zBottom
    ensures |r| <= |keys|
  {
    if keys == [] then []
    else (if keys[0] >= zBottom then [keys[0]] else []) + FlatsAtLeast(keys[1..], zBottom)
  }

  /** `indices` after the push loop of slice.js:183-187. */
  function AddMissing(indices: seq<real>, flats: seq<real>): seq<real>
  {
    if flats == [] then indices
    else
      var p := AddMissing(indices, flats[..|flats| - 1]);
      var v := flats[|flats| - 1];
      if v in p then p else p + [v]
  }

  /**
   * The push loop keeps the scheduled levels as they are, adds every flat,
   * and adds a flat only if it is not already present.
   */
  lemma {:induction false} AddMissingShape(indices: seq<real>, flats: seq<real>)
    ensures var r := AddMissing(indices, flats);
      && |r| >= |indices| && r[..|indices|] == indices
      && (forall v :: v in r <==> v in indices || v in flats)
      && (forall k :: |indices| <= k < |r| ==> r[k] !in r[..k] && r[k] in flats)
  {
    if flats != [] {
      var p := AddMissing(indices, flats[..|flats| - 1]);
      AddMissingShape(indices, flats[..|flats| - 1]);
      var v := flats[|flats| - 1];
      assert flats == flats[..|flats| - 1] + [v];
      if v !in p {
        var r := p + [v];
        assert r[..|p|] == p;
        assert r[..|indices|] == p[..|indices|];
      }
    }
  }

  /** The push loop of slice.js:183-187. */
  method PushFlats(indices: seq<real>, flats: seq<real>) returns (r: seq<real>)
    ensures r == AddMissing(indices, flats)
  {
    r := indices;
    var i := 0;
    while i < |flats|
      invariant 0 <= i <= |flats|
      invariant r == AddMissing(indices, flats[..i])
    {
      assert flats[..i + 1][..i] == flats[..i];
      if flats[i] !in r {
        r := r + [flats[i]];
      }
      i := i + 1;
    }
    assert flats[..i] == flats;
  }

  /** Whether slice.js:197 moves the level at position i. */
  predicate Moves(s: seq<real>, flats: seq<real>, i: int)
  {
    0 < i < |s| - 1 && s[i] !in flats && s[i + 1] in flats
  }

  /** The level at position i after the midpoint pass, computed from the sorted list. */
  function MidpointAt(s: seq<real>, flats: seq<real>, i: int): real
    requires 0 <= i < |s|
  {
    if Moves(s, flats, i) then s[i + 1] + (s[i - 1] - s[i + 1]) / 2.0 else s[i]
  }

  function Midpoints(s: seq<real>, flats: seq<real>): (r: seq<real>)
  {
    seq(|s|, i requires 0 <= i < |s| => MidpointAt(s, flats, i))
  }

  /**
   * The midpoint pass keeps the length and both ends, moves exactly the
   * non-flat levels followed by a flat, each to the midpoint of its
   * neighbours, and keeps a descending list descending.
   */
  lemma MidpointsShape(s: seq<real>, flats: seq<real>)
    ensures var m := Midpoints(s, flats);
      && |m| == |s|
      && (|s| > 0 ==> m[0] == s[0] && m[|s| - 1] == s[|s| - 1])
      && (forall i :: 0 <= i < |s| && m[i] != s[i] ==> Moves(s, flats, i))
      && (forall i :: 0 <= i < |s| && Moves(s, flats, i) ==> m[i] == s[i + 1] + (s[i - 1] - s[i + 1]) / 2.0)
      && (Descending(s) ==> Descending(m))
  {
    var m := Midpoints(s, flats);
    if Descending(s) {
      forall i, j | 0 <= i < j < |s| ensures m[i] >= m[j] {
        // a moved level lies between its neighbours, and a level after a moved one is a flat that stays
        assert Moves(s, flats, i) ==> s[i + 1] <= m[i] <= s[i - 1];
        assert Moves(s, flats, j) ==> s[j + 1] <= m[j] <= s[j - 1];
        if j == i + 1 {
          assert Moves(s, flats, i) ==> !Moves(s, flats, j);
        }
      }
    }
  }

  /**
   * The in-place midpoint loop of slice.js:193-201. Each iteration reads
   * `indices[i-1]` after the previous iteration may have written it; a level
   * that was moved is never the predecessor of one that moves (its successor
   * is a flat), so the result equals the pass computed from the sorted list.
   */
  method MidpointPass(a: array<real>, flats: seq<real>)
    modifies a
    ensures a[..] == Midpoints(old(a[..]), flats)
  {
    ghost var s := a[..];
    var i := 1;
    while i < a.Length - 1
      invariant 1 <= i && (a.Length >= 2 ==> i <= a.Length - 1)
      invariant forall k :: 0 <= k < i && k < a.Length ==> a[k] == MidpointAt(s, flats, k)
      invariant forall k :: i <= k < a.Length ==> a[k] == s[k]
    {
      var prev, curr, next := a[i - 1], a[i], a[i + 1];
      if curr !in flats && next in flats {
        assert !Moves(s, flats, i - 1);
        a[i] := next + (prev - next) / 2.0;
      }
      i := i + 1;
    }
  }

  /** The flats injected to complete the shadow when they are not snapped to (slice.js:204-206, 314-316). */
  function Injected(keys: seq<real>, indices: seq<real>): (r: seq<real>)
    ensures forall v :: v in r ==> v > 0.0 && v !in indices && v + 0.01 in keys
    ensures forall k :: k in keys && k - 0.01 > 0.0 && k - 0.01 !in indices ==> k - 0.01 in r
    ensures |r| <= |keys|
  {
    if keys == [] then []
    else
      var v := keys[0] - 0.01;
      assert keys == [keys[0]] + keys[1..];
      (if v > 0.0 && v !in indices then [v] else []) + Injected(keys[1..], indices)
  }

  /** A level schedule and the levels the per-level callback skips (the source's outer `flats`). */
  datatype Schedule = Schedule(levels: seq<real>, skip: seq<real>)

  /**
   * The roughing schedule of slice.js:175-208. In snap mode the inner
   * `let flats` shadows the outer one, so the skip list stays empty.
   */
  method RoughSchedule(indices: seq<real>, flatKeys: seq<real>, zBottom: real, snap: bool) returns (sch: Schedule)
    ensures snap ==>
      var flats := FlatsAtLeast(flatKeys, zBottom);
      var sorted := SortDesc(AddMissing(indices, flats));
      && sch.levels == Midpoints(sorted, flats) && sch.skip == []
      && Descending(sch.levels)
      && (forall v :: v in sorted <==> v in indices || (v in flatKeys && v >= zBottom))
    ensures !snap ==> sch == OutlineSchedule(indices, flatKeys)
  {
    if snap {
      var flats := FlatsAtLeast(flatKeys, zBottom);
      var pushed := PushFlats(indices, flats);
      AddMissingShape(indices, flats);
      var sorted := SortDesc(pushed);
      assert forall v :: v in sorted <==> v in multiset(pushed);
      var a := new real[|sorted|](i requires 0 <= i < |sorted| => sorted[i]);
      assert a[..] == sorted;
      MidpointPass(a, flats);
      MidpointsShape(sorted, flats);
      sch := Schedule(a[..], []);
    } else {
      sch := OutlineSchedule(indices, flatKeys);
    }
  }

  /**
   * The schedule with flats injected (slice.js:203-207, and for outlining
   * 312-317): every injected level is positive and new, the merged list is
   * descending and holds exactly the scheduled and injected levels.
   */
  function OutlineSchedule(indices: seq<real>, flatKeys: seq<real>): (sch: Schedule)
    ensures sch.skip == Injected(flatKeys, indices)
    ensures Descending(sch.levels)
    ensures multiset(sch.levels) == multiset(indices) + multiset(sch.skip)
    ensures forall v :: v in sch.skip ==> v > 0.0 && v !in indices
  {
    var flats := Injected(flatKeys, indices);
    Schedule(SortDesc(indices + flats), flats)
  }

  /** A recorded level: its height and the shadow snapshot stored with it. */
  datatype Level<S> = Level(z: real, shadow: S)

  /** The running shadow after the first n levels. */
  function ShadowUpTo<S>(tops: seq<S>, n: nat, union: (S, S) -> S, empty: S): S
    requires n <= |tops|
  {
    if n == 0 then empty else union(ShadowUpTo(tops, n - 1, union, empty), tops[n - 1])
  }

  /** The levels the per-level callback records, each with the shadow accumulated down to it. */
  function Recorded<S>(levels: seq<real>, tops: seq<S>, skip: seq<real>, n: nat, union: (S, S) -> S, empty: S): seq<Level<S>>
    requires n <= |levels| == |tops|
  {
    if n == 0 then []
    else
      Recorded(levels, tops, skip, n - 1, union, empty)
        + (if levels[n - 1] in skip then [] else [Level(levels[n - 1], ShadowUpTo(tops, n, union, empty))])
  }

  /**
   * The per-level callback of slice.js:210-223 (and 319-334): union the
   * level's tops into the running shadow, then record the level with a
   * snapshot of the shadow unless it is an injected flat.
   */
  method RecordLevels<S>(levels: seq<real>, tops: seq<S>, skip: seq<real>, union: (S, S) -> S, empty: S)
    returns (recorded: seq<Level<S>>, shadow: S)
    requires |levels| == |tops|
    ensures recorded == Recorded(levels, tops, skip, |levels|, union, empty)
    ensures shadow == ShadowUpTo(tops, |tops|, union, empty)
  {
    recorded := [];
    shadow := empty;
    var i := 0;
    while i < |levels|
      invariant 0 <= i <= |levels|
      invariant shadow == ShadowUpTo(tops, i, union, empty)
      invariant recorded == Recorded(levels, tops, skip, i, union, empty)
    {
      shadow := union(shadow, tops[i]);
      if levels[i] !in skip {
        recorded := recorded + [Level(levels[i], shadow)];
      }
      i := i + 1;
    }
  }

  /** The positions below n of the levels that are not skipped, in increasing order. */
  function KeptIdx(levels: seq<real>, skip: seq<real>, n: nat): (ix: seq<nat>)
    requires n <= |levels|
    ensures |ix| <= n && forall k :: 0 <= k < |ix| ==> ix[k] < n
  {
    if n == 0 then []
    else KeptIdx(levels, skip, n - 1) + (if levels[n - 1] in skip then [] else [n - 1])
  }

  /** No kept position is skipped, and the kept positions increase. */
  lemma {:induction false} KeptIdxSound(levels: seq<real>, skip: seq<real>, n: nat)
    requires n <= |levels|
    ensures forall k :: 0 <= k < |KeptIdx(levels, skip, n)| ==> levels[KeptIdx(levels, skip, n)[k]] !in skip
    ensures forall k, l :: 0 <= k < l < |KeptIdx(levels, skip, n)| ==> KeptIdx(levels, skip, n)[k] < KeptIdx(levels, skip, n)[l]
  {
    if n > 0 {
      KeptIdxSound(levels, skip, n - 1);
      var ix0, ix := KeptIdx(levels, skip, n - 1), KeptIdx(levels, skip, n);
      if levels[n - 1] !in skip {
        assert ix == ix0 + [n - 1];
        forall k, l | 0 <= k < l < |ix| ensures ix[k] < ix[l] {
          if l == |ix0| {
            assert ix[k] == ix0[k] < n - 1;
          } else {
            assert ix[k] == ix0[k] && ix[l] == ix0[l];
          }
        }
        forall k | 0 <= k < |ix| ensures levels[ix[k]] !in skip {
          if k < |ix0| {
            assert ix[k] == ix0[k];
          }
        }
      } else {
        assert ix == ix0;
      }
    }
  }

  /** Every position below n that is not skipped is kept. */
  lemma {:induction false} KeptIdxComplete(levels: seq<real>, skip: seq<real>, n: nat)
    requires n <= |levels|
    ensures forall j :: 0 <= j < n && levels[j] !in skip ==> j in KeptIdx(levels, skip, n)
  {
    if n > 0 {
      KeptIdxComplete(levels, skip, n - 1);
      var ix0, ix := KeptIdx(levels, skip, n - 1), KeptIdx(levels, skip, n);
      if levels[n - 1] !in skip {
        assert ix == ix0 + [n - 1];
        assert n - 1 in ix;
      }
    }
  }

  /**
   * The recorded levels are exactly the levels that are not injected flats,
   * in schedule order, each with the shadow of all tops down to it; with
   * nothing to skip (snap mode) that is every level.
   */
  lemma {:induction false} RecordedLevels<S>(levels: seq<real>, tops: seq<S>, skip: seq<real>, n: nat, union: (S, S) -> S, empty: S)
    requires n <= |levels| == |tops|
    ensures var r, ix := Recorded(levels, tops, skip, n, union, empty), KeptIdx(levels, skip, n);
      && |r| == |ix|
      && (forall k :: 0 <= k < |r| ==> r[k] == Level(levels[ix[k]], ShadowUpTo(tops, ix[k] + 1, union, empty)))
      && (forall k :: 0 <= k < |r| ==> r[k].z !in skip && r[k].z in levels[..n])
      && |r| <= n
      && (skip == [] ==> |r| == n && forall k :: 0 <= k < n ==> r[k] == Level(levels[k], ShadowUpTo(tops, k + 1, union, empty)))
  {
    RecordedAt(levels, tops, skip, n, union, empty);
    KeptIdxSound(levels, skip, n);
    var r, ix := Recorded(levels, tops, skip, n, union, empty), KeptIdx(levels, skip, n);
    forall k | 0 <= k < |r| ensures r[k].z in levels[..n] {
      assert r[k].z == levels[..n][ix[k]];
    }
    if skip == [] {
      KeptAll(levels, n);
    }
  }

  /** Record k is the level at the k-th kept position, with the shadow down to it. */
  lemma {:induction false} RecordedAt<S>(levels: seq<real>, tops: seq<S>, skip: seq<real>, n: nat, union: (S, S) -> S, empty: S)
    requires n <= |levels| == |tops|
    ensures var r, ix := Recorded(levels, tops, skip, n, union, empty), KeptIdx(levels, skip, n);
      |r| == |ix| && forall k :: 0 <= k < |r| ==> r[k] == Level(levels[ix[k]], ShadowUpTo(tops, ix[k] + 1, union, empty))
  {
    if n > 0 {
      RecordedAt(levels, tops, skip, n - 1, union, empty);
      var r0, ix0 := Recorded(levels, tops, skip, n - 1, union, empty), KeptIdx(levels, skip, n - 1);
      var r, ix := Recorded(levels, tops, skip, n, union, empty), KeptIdx(levels, skip, n);
      if levels[n - 1] in skip {
        assert r == r0 && ix == ix0;
      } else {
        assert r == r0 + [Level(levels[n - 1], ShadowUpTo(tops, n, union, empty))] && ix == ix0 + [n - 1];
        forall k | 0 <= k < |r|
          ensures r[k] == Level(levels[ix[k]], ShadowUpTo(tops, ix[k] + 1, union, empty))
        {
          if k < |r0| {
            assert r[k] == r0[k] && ix[k] == ix0[k];
          }
        }
      }
    }
  }

  /** With nothing to skip, every position is kept. */
  lemma {:induction false} KeptAll(levels: seq<real>, n: nat)
    requires n <= |levels|
    ensures |KeptIdx(levels, [], n)| == n && forall k :: 0 <= k < n ==> KeptIdx(levels, [], n)[k] == k
  {
    if n > 0 {
      KeptAll(levels, n - 1);
      assert KeptIdx(levels, [], n) == KeptIdx(levels, [], n - 1) + [n - 1];
    }
  }

  /** The levels' heights are non-increasing. */
  ghost predicate DescendingLevels<S>(levels: seq<Level<S>>)
  {
    forall i, j :: 0 <= i < j < |levels| ==> levels[i].z >= levels[j].z
  }

  /**
   * The cut-through extension of outlining (slice.js:337-348): with a
   * non-zero zThru the last outline level is repeated zThru lower with the
   * same shadow. With no outline level the source reads a property of an
   * undefined slice and throws; that is None here.
   */
  function ExtendThru<S>(slices: seq<Level<S>>, zThru: real): (r: Option<seq<Level<S>>>)
    ensures zThru == 0.0 ==> r == Some(slices)
    ensures r.None? <==> zThru != 0.0 && slices == []
    ensures r.Some? && zThru != 0.0 ==>
      |r.value| == |slices| + 1 && r.value[..|slices|] == slices
      && r.value[|slices|].shadow == slices[|slices| - 1].shadow
      && r.value[|slices|].z + zThru == slices[|slices| - 1].z
  {
    if zThru == 0.0 then Some(slices)
    else if slices == [] then None
    else
      var last := slices[|slices| - 1];
      Some(slices + [Level(last.z - zThru, last.shadow)])
  }

  /**
   * A positive cut-through keeps a descending outline schedule descending,
   * and the added level lies strictly below every other.
   */
  lemma ExtendThruDescending<S>(slices: seq<Level<S>>, zThru: real)
    requires DescendingLevels(slices) && zThru > 0.0 && slices != []
    ensures var r := ExtendThru(slices, zThru);
      && r.Some? && DescendingLevels(r.value)
      && forall k :: 0 <= k < |slices| ==> r.value[|slices|].z < slices[k].z
  {
    var r := ExtendThru(slices, zThru).value;
    var n := |slices|;
    assert forall k :: 0 <= k < n ==> r[k] == slices[k];
    assert forall k :: 0 <= k < n ==> slices[k].z >= slices[n - 1].z;
  }
}
