/**
 * Parameter validation and the derived job values of `CAM.slice`
 * (src/mode/cam/slice.js:24-91).
 *
 * JavaScript truthiness is made explicit: a numeric setting is "set" when it
 * is non-zero (an absent value is modelled as 0), a string setting when it is
 * non-empty. A down-step of a disabled operation is `Infinity` in the source;
 * it is `Inf` of `ExtReal` here.
 */
module CamJob {
  import opened Geometry

  /** A real extended with the source's positive `Infinity`. */
  datatype ExtReal = Fin(v: real) | Inf

  function ExtMin(a: ExtReal, b: ExtReal): ExtReal
  {
    match (a, b)
    case (Inf, _) => b
    case (_, Inf) => a
    case (Fin(x), Fin(y)) => Fin(Min(x, y))
  }

  function ExtDiv(a: ExtReal, d: real): ExtReal
    requires d > 0.0
  {
    match a
    case Inf => Inf
    case Fin(x) => Fin(x / d)
  }

  function ExtMax(a: real, b: ExtReal): ExtReal
  {
    match b
    case Inf => Inf
    case Fin(y) => Fin(Max(a, y))
  }

  /** `x >= c` for an extended real. */
  predicate AtLeast(a: ExtReal, c: real)
  {
    a.Inf? || a.v >= c
  }

  /** `x <= c` for an extended real (false for `Infinity`). */
  predicate AtMost(a: ExtReal, c: real)
  {
    a.Fin? && a.v <= c
  }

  predicate Truthy(x: real) { x != 0.0 }

  datatype Axis = X | Y | Z

  /** The settings of the process that `CAM.slice` reads before any geometry work. */
  datatype Process = Process(
    camStockOn: bool,
    camRoughOn: bool,
    camRoughDown: real,
    camRoughTop: bool,
    camZTopOffset: real,
    camOutlineOn: bool,
    camOutlineDown: real,
    camContourXOn: bool,
    camContourYOn: bool,
    camOutlinePlunge: real,
    camDrillingOn: bool,
    camDrillDown: real,
    camDrillDownSpeed: real,
    camDrillReg: string,
    camZBottom: real,
    camZThru: real)

  /** Stock dimensions; 0 stands for an absent dimension. */
  datatype Stock = Stock(x: real, y: real, z: real)

  /** The part's bounding box. */
  datatype Bounds = Bounds(min: Point, max: Point)

  /** The values `CAM.slice` derives from the settings (slice.js:27-63). */
  datatype Plan = Plan(
    hasStock: bool,
    procFacing: bool,
    procRough: bool,
    procOutline: bool,
    procContourX: bool,
    procContourY: bool,
    procDrill: bool,
    procDrillReg: bool,
    roughDown: ExtReal,
    outlineDown: ExtReal,
    sliceDepth: ExtReal,
    zMin: real,
    zMax: real,
    zThru: real,
    ztOff: real)

  /** The four rejections of slice.js:67-91, each reported through `ondone`. */
  datatype JobError =
    | StockTooSmall(axis: Axis)
    | InvalidSliceDepth(depth: ExtReal)
    | NoProcesses
    | InvalidZBottom(zMax: real)

  datatype Result<T> = Ok(value: T) | Err(error: JobError)

  /** The text of the stock rejection, which names the offending axis. */
  function StockMessage(axis: Axis): (m: string)
    ensures |m| > 7 && m[..6] == "stock " && m[6] == match axis case X => 'X' case Y => 'Y' case Z => 'Z'
  {
    "stock " + (match axis case X => "X" case Y => "Y" case Z => "Z")
      + " too small for part. disable stock or use offset stock"
  }

  predicate StockGiven(stock: Stock)
  {
    Truthy(stock.x) && Truthy(stock.y) && Truthy(stock.z)
  }

  /** The stock is short of the part's extent on one axis (with the source's 0.00001 slack). */
  predicate TooSmall(stockSize: real, lo: real, hi: real)
  {
    stockSize + 0.00001 < hi - lo
  }

  predicate TooSmallX(stock: Stock, b: Bounds) { TooSmall(stock.x, b.min.x, b.max.x) }
  predicate TooSmallY(stock: Stock, b: Bounds) { TooSmall(stock.y, b.min.y, b.max.y) }
  predicate TooSmallZ(stock: Stock, b: Bounds) { TooSmall(stock.z, b.min.z, b.max.z) }

  /** The stock checks pass: either no stock is given or it fits on all three axes. */
  predicate StockFits(stock: Stock, b: Bounds)
  {
    StockGiven(stock) ==> !TooSmallX(stock, b) && !TooSmallY(stock, b) && !TooSmallZ(stock, b)
  }

  function Derive(proc: Process, stock: Stock, b: Bounds): Plan
  {
    var hasStock := StockGiven(stock) && proc.camStockOn;
    var procRough := proc.camRoughOn && Truthy(proc.camRoughDown);
    var procOutline := proc.camOutlineOn && Truthy(proc.camOutlineDown);
    var roughDown := if procRough then Fin(proc.camRoughDown) else Inf;
    var outlineDown := if procOutline then Fin(proc.camOutlineDown) else Inf;
    Plan(
      hasStock := hasStock,
      procFacing := proc.camRoughOn && Truthy(proc.camZTopOffset) && hasStock,
      procRough := procRough,
      procOutline := procOutline,
      procContourX := proc.camContourXOn && Truthy(proc.camOutlinePlunge),
      procContourY := proc.camContourYOn && Truthy(proc.camOutlinePlunge),
      procDrill := proc.camDrillingOn && Truthy(proc.camDrillDown) && Truthy(proc.camDrillDownSpeed),
      procDrillReg := proc.camDrillReg != "",
      roughDown := roughDown,
      outlineDown := outlineDown,
      sliceDepth := ExtMax(0.1, ExtDiv(ExtMin(roughDown, outlineDown), 3.0)),
      zMin := Max(b.min.z, proc.camZBottom),
      zMax := b.max.z,
      zThru := if proc.camZBottom == 0.0 then proc.camZThru else 0.0,
      ztOff := if hasStock then proc.camZTopOffset else 0.0)
  }

  predicate AnyProcess(p: Plan)
  {
    p.procFacing || p.procRough || p.procOutline || p.procContourX || p.procContourY
      || p.procDrill || p.procDrillReg
  }

  /**
   * The effective slice depth is never below 0.1, so the "invalid slice
   * depth" rejection (slice.js:81-83) cannot be reached.
   */
  lemma SliceDepthAtLeastTenth(proc: Process, stock: Stock, b: Bounds)
    ensures AtLeast(Derive(proc, stock, b).sliceDepth, 0.1)
    ensures !AtMost(Derive(proc, stock, b).sliceDepth, 0.05)
  {
  }

  /** The validation block of `CAM.slice`, rejections in source order. */
  function Validate(proc: Process, stock: Stock, b: Bounds): (r: Result<Plan>)
    // the stock checks reject on the first axis that is too small, in the order X, Y, Z
    ensures r == Err(StockTooSmall(X)) <==> StockGiven(stock) && TooSmallX(stock, b)
    ensures r == Err(StockTooSmall(Y)) <==> StockGiven(stock) && !TooSmallX(stock, b) && TooSmallY(stock, b)
    ensures r == Err(StockTooSmall(Z)) <==>
      StockGiven(stock) && !TooSmallX(stock, b) && !TooSmallY(stock, b) && TooSmallZ(stock, b)
    // the slice-depth rejection is unreachable
    ensures !(r.Err? && r.error.InvalidSliceDepth?)
    ensures r == Err(NoProcesses) <==> StockFits(stock, b) && !AnyProcess(Derive(proc, stock, b))
    ensures r.Err? && r.error.InvalidZBottom? <==>
      StockFits(stock, b) && AnyProcess(Derive(proc, stock, b)) && Max(b.min.z, proc.camZBottom) >= b.max.z
    ensures r.Err? && r.error.InvalidZBottom? ==> r.error.zMax == b.max.z
    ensures r.Ok? <==>
      StockFits(stock, b) && AnyProcess(Derive(proc, stock, b)) && Max(b.min.z, proc.camZBottom) < b.max.z
    ensures r.Ok? ==> r.value.zMin < r.value.zMax && AtLeast(r.value.sliceDepth, 0.1)
  {
    var plan := Derive(proc, stock, b);
    if StockGiven(stock) && TooSmallX(stock, b) then Err(StockTooSmall(X))
    else if StockGiven(stock) && TooSmallY(stock, b) then Err(StockTooSmall(Y))
    else if StockGiven(stock) && TooSmallZ(stock, b) then Err(StockTooSmall(Z))
    else if AtMost(plan.sliceDepth, 0.05) then
      Err(InvalidSliceDepth(plan.sliceDepth))
    else if !AnyProcess(plan) then Err(NoProcesses)
    else if plan.zMin >= b.max.z then Err(InvalidZBottom(b.max.z))
    else Ok(plan)
  }

  /**
   * A negative roughing down-step is accepted: roughing is enabled (a
   * negative number is truthy), the slice depth is lifted to 0.1, and with
   * stock and a top offset the facing pass is planned with that step.
   */
  lemma NegativeRoughDownAccepted(proc: Process, stock: Stock, b: Bounds)
    requires proc.camRoughOn && proc.camRoughDown < 0.0
    requires StockFits(stock, b) && Max(b.min.z, proc.camZBottom) < b.max.z
    ensures var r := Validate(proc, stock, b);
      && r.Ok? && r.value.procRough && r.value.roughDown == Fin(proc.camRoughDown)
      && r.value.sliceDepth == Fin(0.1)
      && (proc.camStockOn && StockGiven(stock) && Truthy(proc.camZTopOffset) ==> r.value.procFacing)
  {
  }
}
