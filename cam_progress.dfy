/**
 * The weighted progress reporting of `CAM.slice` (src/mode/cam/slice.js:93-112):
 * a queue `ops` of named phases with weights, consumed by `nextOp`, and
 * `updateOp`, which maps a position inside the current phase to a fraction
 * of the whole job.
 */
module CamProgress {
  import opened Wrappers

  datatype Op = Op(name: string, weight: real)

  function Sum(ops: seq<Op>): real
  {
    if ops == [] then 0.0 else Sum(ops[..|ops| - 1]) + ops[|ops| - 1].weight
  }

  predicate PositiveWeights(ops: seq<Op>)
  {
    forall i :: 0 <= i < |ops| ==> ops[i].weight > 0.0
  }

  /** The phase list built at slice.js:94-98. */
  function Phases(procRough: bool, procOutline: bool, procContour: bool): (ops: seq<Op>)
    ensures |ops| == 1 + (if procRough then 2 else 0) + (if procOutline then 1 else 0) + (if procContour then 1 else 0)
    ensures ops[0] == Op("mapping", 1.5) && PositiveWeights(ops)
  {
    [Op("mapping", 1.5)]
      + (if procRough then [Op("roughing", 1.0)] else [])
      + (if procRough then [Op("rough offset", 1.0)] else [])
      + (if procOutline then [Op("outline", 0.5)] else [])
      + (if procContour then [Op("contour", 4.0)] else [])
  }

  lemma SumSnoc(ops: seq<Op>, k: nat)
    requires k < |ops|
    ensures Sum(ops[..k + 1]) == Sum(ops[..k]) + ops[k].weight
  {
    assert ops[..k + 1][..k] == ops[..k];
  }

  lemma {:induction false} SumNonNegative(ops: seq<Op>)
    requires PositiveWeights(ops)
    ensures Sum(ops) >= 0.0
    ensures ops != [] ==> Sum(ops) > 0.0
  {
    if ops != [] {
      SumNonNegative(ops[..|ops| - 1]);
    }
  }

  /** A prefix of the phases weighs no more than all of them. */
  lemma {:induction false} SumPrefixBounds(ops: seq<Op>, k: nat)
    requires PositiveWeights(ops) && k <= |ops|
    ensures 0.0 <= Sum(ops[..k]) <= Sum(ops)
    decreases |ops| - k
  {
    SumNonNegative(ops[..k]);
    if k == |ops| {
      assert ops[..k] == ops;
    } else {
      SumPrefixBounds(ops, k + 1);
      SumSnoc(ops, k);
    }
  }

  class Progress {
    /** The phases not yet started. */
    var ops: seq<Op>
    /** The sum of all weights. */
    const opsTot: real
    /** The summed weight of the phases already finished. */
    var opSum: real
    /** The current phase (undefined before the first `nextOp`). */
    var opOn: Option<Op>
    /** The share of the whole job taken by the current phase. */
    var opTot: real

    /** The phase list as built, and how many phases `nextOp` has started. */
    ghost const all: seq<Op>
    ghost var started: nat

    ghost predicate Valid()
      reads this
    {
      && PositiveWeights(all) && all != []
      && opsTot == Sum(all) && opsTot > 0.0
      && started <= |all| && ops == all[started..]
      && (started == 0 <==> opOn.None?)
      && (started == 0 ==> opSum == 0.0)
      && (started > 0 ==>
            opOn == Some(all[started - 1])
            && opSum == Sum(all[..started - 1])
            && opTot == all[started - 1].weight / opsTot)
    }

    constructor (procRough: bool, procOutline: bool, procContour: bool)
      ensures Valid()
      ensures ops == all == Phases(procRough, procOutline, procContour)
      ensures opsTot == Sum(ops) && opSum == 0.0 && opOn.None? && started == 0
    {
      var phases := Phases(procRough, procOutline, procContour);
      SumNonNegative(phases);
      ops := phases;
      all := phases;
      opsTot := Sum(phases);
      opSum := 0.0;
      opOn := None;
      opTot := 0.0;
      started := 0;
    }

    /**
     * Start the next phase. The source reads `opOn[1]` right after
     * `ops.shift()`, so a call on an empty queue would throw.
     */
    method NextOp()
      requires Valid() && ops != []
      modifies this
      ensures Valid() && started == old(started) + 1
      ensures opOn == Some(old(ops[0])) && ops == old(ops[1..])
      ensures opSum == old(opSum + (if opOn.Some? then opOn.value.weight else 0.0))
      ensures opTot == opOn.value.weight / opsTot
      // the job-level fraction where this phase starts is where the previous one ended
      ensures old(opOn.Some?) ==> opSum / opsTot == old(opSum / opsTot + opTot)
    {
      ghost var k := started;
      var sum := opSum;
      if opOn.Some? {
        SumSnoc(all, k - 1);
        DivSplit(opSum, opOn.value.weight, opsTot);
        sum := opSum + opOn.value.weight;
      } else {
        assert all[..0] == [];
      }
      assert sum == Sum(all[..k]);
      var op := ops[0];
      assert op == all[k];
      assert ops[1..] == all[k + 1..];
      opSum := sum;
      opOn := Some(op);
      ops := ops[1..];
      opTot := op.weight / opsTot;
      started := k + 1;
    }

    /** The fraction `updateOp(index, total)` reports. */
    function Fraction(index: real, total: real): (r: real)
      reads this
      requires Valid() && opOn.Some? && total > 0.0
      ensures 0.0 <= index <= total ==> opSum / opsTot <= r <= opSum / opsTot + opTot
      ensures 0.0 <= index <= total ==> 0.0 <= r <= 1.0
      ensures index == total ==> r == (opSum + opOn.value.weight) / opsTot
    {
      CurrentShare();
      FractionBounds(opSum, opOn.value.weight, opsTot, opTot, index, total);
      opSum / opsTot + (index / total) * opTot
    }

    /** The finished phases and the current one together weigh no more than the whole job. */
    lemma CurrentShare()
      requires Valid() && opOn.Some?
      ensures 0.0 <= opSum && 0.0 < opOn.value.weight && opSum + opOn.value.weight <= opsTot
      ensures opTot == opOn.value.weight / opsTot
    {
      SumSnoc(all, started - 1);
      SumPrefixBounds(all, started - 1);
      SumPrefixBounds(all, started);
    }

    /** Once every phase has started, the end of the last one reports exactly 1. */
    lemma LastPhaseEndsAtOne()
      requires Valid() && ops == [] && opOn.Some?
      ensures Fraction(1.0, 1.0) == 1.0
    {
      assert started == |all|;
      SumSnoc(all, started - 1);
      assert all[..started] == all;
    }

    /** The label `updateOp` reports: the given message or the phase name. */
    function Label(msg: string): (l: string)
      reads this
      requires opOn.Some?
      ensures msg != "" ==> l == msg
      ensures msg == "" ==> l == opOn.value.name
    {
      if msg != "" then msg else opOn.value.name
    }
  }

  lemma DivSplit(a: real, b: real, t: real)
    requires t != 0.0
    ensures (a + b) / t == a / t + b / t
  {
  }

  lemma FractionBounds(sum: real, w: real, tot: real, share: real, index: real, total: real)
    requires 0.0 <= sum && 0.0 < w && sum + w <= tot && tot > 0.0 && total > 0.0 && share == w / tot
    ensures 0.0 <= index <= total ==>
      sum / tot <= sum / tot + (index / total) * share <= sum / tot + share <= 1.0
    ensures 0.0 <= index <= total ==> 0.0 <= sum / tot
    ensures index == total ==> sum / tot + (index / total) * share == (sum + w) / tot
  {
    var f := index / total;
    assert share > 0.0;
    if 0.0 <= index <= total {
      assert 0.0 <= f <= 1.0;
      assert f * share <= 1.0 * share;
      assert sum / tot + share == (sum + w) / tot;
      assert (sum + w) / tot <= tot / tot;
    }
    if index == total {
      assert f == 1.0;
    }
  }

  /**
   * The phase calls `CAM.slice` makes (slice.js:117, 172, 249, 305, 405):
   * every call finds a phase in the queue, the queue is empty afterwards,
   * and the last phase ends at fraction 1.
   */
  method RunPhases(procRough: bool, procOutline: bool, procContour: bool)
    returns (calls: nat, left: nat, last: real)
    ensures calls == |Phases(procRough, procOutline, procContour)| && left == 0
    ensures last == 1.0
  {
    var p := new Progress(procRough, procOutline, procContour);
    calls := Advance(p, 0);                      // mapping
    calls := AdvanceWhen(p, procRough, calls);   // roughing
    calls := AdvanceWhen(p, procRough, calls);   // rough offset
    calls := AdvanceWhen(p, procOutline, calls);
    calls := AdvanceWhen(p, procContour, calls);
    left := |p.ops|;
    p.LastPhaseEndsAtOne();
    last := p.Fraction(1.0, 1.0);
  }

  /** One `nextOp` call, counted; `calls` phases have started before it. */
  method Advance(p: Progress, calls: nat) returns (c: nat)
    requires p.Valid() && p.ops != [] && |p.ops| + calls == |p.all|
    modifies p
    ensures p.Valid() && p.opOn.Some? && c == calls + 1 && |p.ops| + c == |p.all|
  {
    p.NextOp();
    c := calls + 1;
  }

  /** A phase call made only when its phase is enabled. */
  method AdvanceWhen(p: Progress, enabled: bool, calls: nat) returns (c: nat)
    requires p.Valid() && p.opOn.Some? && |p.ops| + calls == |p.all| && (enabled ==> p.ops != [])
    modifies p
    ensures p.Valid() && p.opOn.Some? && c == calls + (if enabled then 1 else 0) && |p.ops| + c == |p.all|
  {
    c := calls;
    if enabled {
      c := Advance(p, calls);
    }
  }
}
