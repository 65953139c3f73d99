# Kiri:Moto CAM slicing and file catalog, modelled in Dafny

This project models three parts of Kiri:Moto, the CAM and slicer application of grid-apps, and proves properties about them:

- **CAM slicing** (`src/mode/cam/slice.js`):
  - the checks `CAM.slice` makes of the settings, stock and part bounds before it slices;
  - the weighted progress reporting across phases;
  - the facing passes above the part;
  - the roughing and outline level schedules, with the in-place midpoint pass over the level array;
  - hole detection and clustering for drilling, and registration plunges;
  - the cut-out tabs that split a trace, and the tab lines behind them.
- **Topography contouring** (`src/mode/cam/topo.js`):
  - the hidden-segment filter over each slice;
  - the raster that folds the segments into a `Float32Array` height grid in place;
  - the tool probe `toolAtZ`;
  - the trace builder (`push_point` / `end_poly`), a class over the closure state `newtrace`, `latent`, `lastP` and `sliceout`;
  - the X and Y contour walks that probe the grid and emit contour slices. The walks read heights through a `probe` function of the grid indices; `TopoTrace.Probes` ties it to `toolAtZ` over the rastered grid, and the walk methods require that tie for the array they are given.
- **File catalog** (`src/kiri/db.js`): a `Catalog` class.
  - Its state is the `files` dictionary, the listener list, and a synchronous key/value store.
  - Its store keeps the dictionary under `files` and the vertex arrays under `file-<name>` and `fdec-<name>`.
  - Every listener call is recorded in a log with the dictionary it was given.

Each part that changes state in place is imperative Dafny: classes with `modifies` frames, array-updating methods, and loops with invariants. Each such method is proved against a pure specification function, and lemmas state what the source promises about that function.

Geometry the core only calls is passed in as function-typed parameters. This covers polygon intersections, segment cutting, clockwise orientation, centres, point-in-polygon tests, the slope angle and the projection on a slope.

Numbers are exact reals. Loop variables that accumulate (`z -= zstep`, `y += resolution`, `x += toolStep`) are accumulated exactly. Each loop's trip count comes from a closed-form `Count`, and a lemma shows one step lowers it by one.

Where the code and its description differ, the model follows the code:

- The "invalid slice depth" rejection can never fire, because the slice depth is at least 0.1 (`CamJob.SliceDepthAtLeastTenth`).
- The topo filter's cover test is non-strict: a segment that exactly coincides with another's span is hidden.
- In curves-only mode, `push_point` also drops a point whose slope from the last one exceeds `maxangle`. That point still becomes the last point.
- In curves-only mode a run of points at one height gives no trace at all. Each repeat ends an open trace of a single point, which is too short to keep (`TopoTrace.FlatRunMerged`).
- The Y walk's inner loop runs `x <= maxX + partOff`, which is inclusive. The X walk's inner loop runs `y < maxY + partOff`, which is strict.

## Model

| member | source | states |
|---|---|---|
| CamJob.StockMessage | src/mode/cam/slice.js:67-78 | the stock rejection message names the axis that is too small |
| CamJob.SliceDepthAtLeastTenth | src/mode/cam/slice.js:50 | the derived slice depth is at least 0.1, so it is never at most 0.05 |
| CamJob.NegativeRoughDownAccepted | src/mode/cam/slice.js:35-50 | a negative roughing down-step enables roughing, passes validation with slice depth 0.1, and plans facing when stock and a top offset are given |
| CamJob.Validate | src/mode/cam/slice.js:67-91 | each rejection happens exactly when its condition holds and the earlier checks passed: stock X, then Y, then Z too small; no process selected; z bottom at or above the part top (with that top reported). The slice-depth rejection never happens. Success holds iff all checks pass, and then zMin < zMax |
| CamProgress.Phases | src/mode/cam/slice.js:94-98 | the phase list has the mapping phase first, then one entry per enabled process, and every weight is positive |
| CamProgress.SumNonNegative | src/mode/cam/slice.js:99-100 | the total weight is non-negative, and positive for a non-empty phase list |
| CamProgress.SumPrefixBounds | src/mode/cam/slice.js:104-108 | the weight done so far lies between 0 and the total |
| CamProgress.Progress.constructor | src/mode/cam/slice.js:94-102 | the queue holds all phases, the total is their sum, and nothing has started |
| CamProgress.Progress.NextOp | src/mode/cam/slice.js:104-108 | the head phase becomes current, the finished one is added to the running sum, and the current share is its weight over the total |
| CamProgress.Progress.Fraction | src/mode/cam/slice.js:110-112 | the reported fraction lies inside the current phase's slice of [0, 1], and reaches that slice's end when index == total |
| CamProgress.Progress.CurrentShare | src/mode/cam/slice.js:104-108 | the current phase's weight fits within the total after the running sum |
| CamProgress.Progress.LastPhaseEndsAtOne | src/mode/cam/slice.js:110-112 | at the end of the last phase the progress reported is exactly 1 |
| CamProgress.Progress.Label | src/mode/cam/slice.js:111 | the message shown is the caller's when given, otherwise the current phase's name |
| CamProgress.FractionBounds | src/mode/cam/slice.js:111 | the progress formula stays within the phase's share and hits its end at index == total |
| CamProgress.RunPhases | src/mode/cam/slice.js:117-405 | calling nextOp once per phase and reporting the end of each ends with progress 1 |
| CamFacing.JsFracPositive | src/mode/cam/slice.js:153 | JavaScript's `zdiv % 1 > 0` holds iff zdiv is positive and not whole |
| CamFacing.FacingStepBounds | src/mode/cam/slice.js:152-153 | the facing step is positive and at most the roughing step, and equals it when the offset is a whole number of steps |
| CamFacing.FacingStepDivides | src/mode/cam/slice.js:152-153 | the facing step divides the top offset a whole number of times, at least once |
| CamFacing.PassFits | src/mode/cam/slice.js:158 | pass k is at or above the part top iff k is below the pass count |
| CamFacing.FacingAboveTop | src/mode/cam/slice.js:158 | every facing pass is at or above the part top |
| CamFacing.FacingDescends | src/mode/cam/slice.js:158 | consecutive passes descend by exactly one step |
| CamFacing.FacingEnds | src/mode/cam/slice.js:152-158 | the first pass is one step below the offset top, and the last lands on the part top when the offset is positive |
| CamFacing.FacingLevels | src/mode/cam/slice.js:148-168 | no passes when the roughing step is infinite; otherwise the schedule for the derived step and offset, including the camRoughTop lift of a zero offset |
| CamFacing.FacingLoop | src/mode/cam/slice.js:158 | the loop's heights are exactly the facing schedule |
| CamLevels.Insert | src/mode/cam/slice.js:188 | insertion keeps the multiset and keeps a descending list descending |
| CamLevels.SortDesc | src/mode/cam/slice.js:188 | the sort is descending and a permutation of its input |
| CamLevels.FlatsAtLeast | src/mode/cam/slice.js:180-182 | the flats kept are exactly those at or above z bottom |
| CamLevels.AddMissingShape | src/mode/cam/slice.js:183-187 | the push loop keeps the old levels as a prefix, adds only missing flats, and leaves every flat present |
| CamLevels.PushFlats | src/mode/cam/slice.js:183-187 | the in-place pushes yield the add-missing list |
| CamLevels.MidpointsShape | src/mode/cam/slice.js:193-201 | the midpoint pass keeps the length and the ends; it sets each inner non-flat level followed by a flat to the midpoint of its old neighbours, changes no other level, and keeps a descending list descending |
| CamLevels.MidpointPass | src/mode/cam/slice.js:193-201 | the in-place loop over the array equals the pointwise midpoint map of the old array |
| CamLevels.Injected | src/mode/cam/slice.js:204-206 | the injected levels are positive and new, each sits 0.01 below a flat, and every such level that is missing is injected |
| CamLevels.RoughSchedule | src/mode/cam/slice.js:175-208 | snap mode gives the sorted levels with flats pushed and midpoints moved; otherwise flats are injected as in outlining |
| CamLevels.OutlineSchedule | src/mode/cam/slice.js:312-317 | the schedule is descending and is the levels plus the injected ones as a multiset |
| CamLevels.RecordLevels | src/mode/cam/slice.js:210-223 | each level is recorded with the shadow union so far, except the injected ones, and the final shadow is the union of all tops |
| CamLevels.RecordedLevels | src/mode/cam/slice.js:210-223 | record k is the level at the k-th position whose level is not injected (KeptIdx), with the shadow of all tops down to that position; no record is an injected level; in snap mode every level is recorded, in order |
| CamLevels.KeptIdxSound | src/mode/cam/slice.js:212-215 | the kept positions increase, and none holds an injected level |
| CamLevels.KeptIdxComplete | src/mode/cam/slice.js:212-215 | every position whose level is not injected is kept |
| CamLevels.ExtendThru | src/mode/cam/slice.js:337-348 | a zero cut-through leaves the outline levels alone; a non-zero one repeats the last level that much lower with its shadow, and fails exactly when there is no level to repeat |
| CamLevels.ExtendThruDescending | src/mode/cam/slice.js:337-348 | a positive cut-through keeps the outline levels descending, and the added level lies below every other |
| CamDrill.FirstNear | src/mode/cam/slice.js:463-468 | the cluster chosen is the first whose last center is within centerDiff |
| CamDrill.Join | src/mode/cam/slice.js:463-473 | merging a center keeps every cluster non-empty |
| CamDrill.Clusters | src/mode/cam/slice.js:453-476 | clustering keeps every cluster non-empty |
| CamDrill.JoinPartition | src/mode/cam/slice.js:463-473 | merging a center adds it to exactly one cluster, new or existing |
| CamDrill.ClustersPartition | src/mode/cam/slice.js:453-476 | the clusters partition the drillable hole centers, as a multiset, into at most that many clusters |
| CamDrill.ClustersSnoc | src/mode/cam/slice.js:455-475 | clustering one more center is merging it into the clusters of the ones before |
| CamDrill.MergeCenter | src/mode/cam/slice.js:463-473 | the search loop merges the center into the first near cluster, or opens a new one |
| CamDrill.ClusterHoles | src/mode/cam/slice.js:453-476 | the nested loops give the clusters of all drillable hole centers, with centerDiff = toolDiam * 0.1 |
| CamDrill.ClusterSlice | src/mode/cam/slice.js:455-475 | one slice's holes extend the clustering of those before |
| CamDrill.SliceDrill | src/mode/cam/slice.js:444-493 | one DRILL slice per cluster, each point taking its cluster's center x and y and keeping its own z |
| CamDrill.SliceDrillReg | src/mode/cam/slice.js:496-533 | "x axis" and "y axis" give one DRILL slice of two plunges on the mid-line outside the part; any other setting gives none |
| CamDrill.DrillRegOutsidePart | src/mode/cam/slice.js:500-517 | the registration plunges lie outside the part in the chosen axis when the stock covers the part |
| CamTabs.TabAnglesFullTurn | src/mode/cam/slice.js:605-618 | successive tab angles differ by 360/tabCount, and tabCount steps make a full turn |
| CamTabs.CreateTabLines | src/mode/cam/slice.js:604-621 | the while loop gives max(0, tabCount) tab lines, line k at tabAngle - k*360/tabCount |
| CamTabs.TabPointsPaired | src/mode/cam/slice.js:549-558 | a trace's tab hits come in pairs, at most two per tab line |
| CamTabs.RotatedPairs | src/mode/cam/slice.js:561-563 | after moving the first hit to the end, pair k runs from hit 2k+1 to hit 2k+2 (wrapping) |
| CamTabs.CutTraceShape | src/mode/cam/slice.js:546-596 | a trace with no hits comes back whole, made clockwise; otherwise it is cut into one segment per hit pair, each between consecutive hits, and there are at most tabCount of them |
| CamTabs.CutAllCount | src/mode/cam/slice.js:536-601 | the untabbed count is at most the trace count, and the output has at least one and, when tabCount > 0, at most tabCount pieces per trace |
| CamTabs.CollectHits | src/mode/cam/slice.js:549-558 | the hit loop collects exactly the trace's tab hits |
| CamTabs.EmitSegments | src/mode/cam/slice.js:561-574 | the rotate-and-emit loop gives the segments of the rotated hit pairs |
| CamTabs.AddCutoutTabs | src/mode/cam/slice.js:536-601 | no traces give no output; otherwise the traces are cut as specified, and the untabbed ones are counted |
| TopoGrid.Ordered | src/mode/cam/topo.js:199-203 | a segment's endpoints are ordered by y, and are the same two points |
| TopoGrid.KeptPointsEven | src/mode/cam/topo.js:196-218 | the filter emits points in pairs, at most two per segment |
| TopoGrid.KeptPointsSound | src/mode/cam/topo.js:196-218 | every emitted pair is some kept segment, ordered by y |
| TopoGrid.KeptPointsComplete | src/mode/cam/topo.js:196-218 | every kept segment is emitted as a pair |
| TopoGrid.KeptPair | src/mode/cam/topo.js:198-217 | a kept segment rises in y and has an endpoint at or above zMin |
| TopoGrid.Covered | src/mode/cam/topo.js:205-215 | the inner scan answers true iff some non-adjacent segment covers segment i |
| TopoGrid.FilterLines | src/mode/cam/topo.js:196-218 | the filter loop emits exactly the kept points |
| TopoGrid.InterpBetween | src/mode/cam/topo.js:240-245 | the interpolated height lies between the segment's endpoint heights |
| TopoGrid.StepBounds | src/mode/cam/topo.js:237-254 | a pair's update never lowers the cell; it leaves it alone or sets at least zMin; it covers a spanning segment's height; the result is the old value, zMin or that height; the cell changes only when the pair is not horizontal, spans the cell's y, has an endpoint above the old value and crosses above it, and then it becomes the larger of the crossing height and zMin |
| TopoGrid.CellFoldBounds | src/mode/cam/topo.js:234-256 | a cell after all pairs is at least its old value and every spanning height, and is the old value, zMin or one of those heights |
| TopoGrid.RasterCell | src/mode/cam/topo.js:234-256 | the pair loop leaves the folded value in the cell (an out-of-range cell reads 0 and is not written) and changes no other cell |
| TopoGrid.Rows | src/mode/cam/topo.js:234 | the row count never passes stepsy |
| TopoGrid.RowsBelow | src/mode/cam/topo.js:234 | every row visited is below stepsy and has y below maxY |
| TopoGrid.RasterColumn | src/mode/cam/topo.js:230-259 | one slice's rows update exactly its grid column, each cell by its fold |
| TopoGrid.RasterAtBounds | src/mode/cam/topo.js:228-260 | the raster never lowers a cell; a cell it changes is at least zMin and at least every spanning height of its slice |
| TopoGrid.Raster | src/mode/cam/topo.js:228-260 | the slice loop leaves every cell at its raster value |
| TopoGrid.ProcessSlices | src/mode/cam/topo.js:190-260 | every slice is filtered, and the grid is rastered from the filtered points |
| TopoGrid.RasterFromZero | src/mode/cam/topo.js:228-260 | rastered from an all-zero grid, every cell is either still 0 or at least zMin |
| TopoGrid.BuildGrid | src/mode/cam/topo.js:49-260 | a fresh zero-filled grid of stepsx * stepsy cells is filtered and rastered; every cell ends at its raster value, so it is 0 or at least zMin |
| TopoGrid.ProfileMaxBounds | src/mode/cam/topo.js:112-131 | the running max covers every profile offset's height and is -1 or one of them |
| TopoGrid.ToolZBounds | src/mode/cam/topo.js:109-135 | the tool height is at least 0 and at least every offset's height, and is 0 or one of them |
| TopoGrid.GridValueFallback | src/mode/cam/topo.js:118-128 | off the grid, or on an empty cell, the probe reads zMin, otherwise the cell |
| TopoGrid.ToolZFloor | src/mode/cam/topo.js:109-135 | on a grid whose cells are 0 or at least zMin, the tool never reads lower than any profile sample resting on zMin |
| TopoGrid.FlatTool | src/mode/cam/topo.js:109-135 | a flat-ended tool of one sample at (0, 0) reads the probed grid value where it stands, clamped at 0 |
| TopoGrid.FlatToolOnPlane | src/mode/cam/topo.js:109-135 | on a grid that is one flat plane of positive height, a flat-ended tool reads exactly that height on every cell |
| TopoGrid.ToolAtZ | src/mode/cam/topo.js:109-135 | the probe's loop computes the tool height and changes nothing |
| TopoTrace.Flushed | src/mode/cam/topo.js:146-149 | flushing appends the latent point, if any, behind the open trace |
| TopoTrace.EndPolyShape | src/mode/cam/topo.js:167-180 | end_poly keeps the flushed trace only when it has two points or more, always resets the trace, the latent and the last point, and keeps the invariant |
| TopoTrace.PushPreserves | src/mode/cam/topo.js:137-165 | push_point keeps the invariant: finished traces have two points or more, no three consecutive at one z unless curves-only, and the latent is the held-back end of a flat run |
| TopoTrace.FlatRun | src/mode/cam/topo.js:140-150 | without curves-only a point at the last z only replaces the latent and leaves the trace; a point at a new z flushes the latent and is appended |
| TopoTrace.CurvesOnly | src/mode/cam/topo.js:140-162 | in curves-only mode a point at the last z ends the trace; a point steeper than maxangle is dropped but becomes the last point; any other point is appended |
| TopoTrace.FlatRunState | src/mode/cam/topo.js:137-165 | after a run of points at one height, without curves-only the trace holds the first point and the latent holds the last; in curves-only mode the trace keeps at most the single first point and nothing is finished |
| TopoTrace.FlatRunMerged | src/mode/cam/topo.js:137-180 | a flat run pushed and ended gives exactly the one trace of its first and last point without curves-only, and no trace at all in curves-only mode |
| TopoTrace.EndKeeps | src/mode/cam/topo.js:167-180 | end_poly invents no point |
| TopoTrace.PushKeeps | src/mode/cam/topo.js:137-165 | push_point traces only points it was given |
| TopoTrace.TraceBuilder.constructor | src/mode/cam/topo.js:137-180 | the builder starts empty |
| TopoTrace.TraceBuilder.EndPoly | src/mode/cam/topo.js:167-180 | the method keeps the invariant and performs end_poly on the state |
| TopoTrace.TraceBuilder.PushPoint | src/mode/cam/topo.js:137-165 | the method keeps the invariant and performs push_point on the state |
| TopoTrace.TraceBuilder.StartLine | src/mode/cam/topo.js:290-291 | a walk line starts with an empty trace and no finished traces |
| TopoTrace.CountDown | src/mode/cam/topo.js:285-336 | a walk loop value passes its test iff loop steps remain, and one step leaves one fewer |
| TopoTrace.WalkOf | src/mode/cam/topo.js:32-66 | the grid has the ceiling of the bounds over the tolerance cells per axis, zMin lies 0.0001 above the larger of the part bottom and z bottom, the walks start 0 outside an inside contour and half a tool plus one tolerance out otherwise, with the grid offset the floor of that over the tolerance |
| TopoTrace.WalkOfOk | src/mode/cam/topo.js:32-66 | a part of non-zero size, a positive tolerance and a tool of positive diameter and step-over give runnable walks with at least one cell per axis, and an outside contour starts at least one grid cell off the part |
| TopoTrace.WalkStep | src/mode/cam/topo.js:293-311 | one sample is probed, raised to the tab height inside a tab, and ends the trace outside the clip region or is pushed |
| TopoTrace.WalkLine | src/mode/cam/topo.js:286-313 | the inner loop visits the samples in order, with the grid index advancing by one per sample even in the clip branch, and ends with end_poly |
| TopoTrace.ContourLine | src/mode/cam/topo.js:285-320 | a walk line emits its traces as one slice at its rounded grid index, and only when it finished some trace |
| TopoTrace.WalkContours | src/mode/cam/topo.js:282-322 | with the probe reading toolAtZ over the array, the walk emits the slices of every line from the start to the end bound inclusive, and leaves the grid unchanged |
| TopoTrace.Contours | src/mode/cam/topo.js:281-364 | the X walk runs when camContourXOn and the Y walk when camContourYOn, in that order, sharing the builder |
| TopoTrace.ProcessOutput | src/mode/cam/topo.js:187-364 | what processSlices hands to ondone is every input slice in its order, then the contour slices of both walks |
| TopoTrace.PushInputs | src/mode/cam/topo.js:190-191 | one entry per input slice, in order |
| TopoTrace.PushContours | src/mode/cam/topo.js:313-316 | the contour slices are appended in order behind the entries already there |
| TopoTrace.HeightBounds | src/mode/cam/topo.js:296-298 | a probed height is at least 0, and at least tabHeight inside a tab when tabs are on |
| TopoTrace.SampleProbed | src/mode/cam/topo.js:293-310 | each sample lies on its walk line and is raised |
| TopoTrace.LineRunKeeps | src/mode/cam/topo.js:292-312 | a walk line keeps the builder invariant and traces only raised points on the line |
| TopoTrace.LineSliceShape | src/mode/cam/topo.js:313-320 | a line emits at most one slice, at its grid index, with non-empty traces of two points or more, all raised and on the line |
| TopoTrace.WalkShape | src/mode/cam/topo.js:282-361 | every slice of a walk has the walk's mode and well-formed raised traces |
| TopoTrace.ProbesRaised | src/mode/cam/topo.js:109-135 | a probe that reads toolAtZ over a grid never reads below 0 |
| TopoTrace.ContourSlicesShape | src/mode/cam/topo.js:281-364 | when the probe reads toolAtZ over the grid, every contour slice is CONTOUR_X or CONTOUR_Y, with traces of two points or more, all at height 0 or above |
| KiriCatalog.KeysDistinct | src/kiri/db.js:95-181 | the `file-` and `fdec-` keys of two names never clash, and each key determines its name |
| KiriCatalog.Notified | src/kiri/db.js:63-67 | notifying calls every listener once, in list order, with the same dictionary |
| KiriCatalog.NotifiedOnce | src/kiri/db.js:63-67 | with no duplicate listeners, no listener is called twice |
| KiriCatalog.RemoveFirst | src/kiri/db.js:54-56 | removal leaves an absent listener's list alone and otherwise drops exactly one occurrence |
| KiriCatalog.RemoveFirstNoDup | src/kiri/db.js:54-56 | from a duplicate-free list, removal drops the listener entirely and keeps every other one without duplicates |
| KiriCatalog.AddRemoveRestores | src/kiri/db.js:47-56 | adding a new listener and removing it again restores the list |
| KiriCatalog.Decimate | src/kiri/db.js:69-74 | fewer than 500000 values pass through unchanged, and more go to the worker |
| KiriCatalog.RenamedBlobsMoved | src/kiri/db.js:129-136 | after a rename the old name has no blobs, each blob it had is under the new name, and unrelated keys are untouched |
| KiriCatalog.Catalog.constructor | src/kiri/db.js:12-20 | the catalog starts with the stored dictionary, if any, no listeners and no deferred handler |
| KiriCatalog.Catalog.Refresh | src/kiri/db.js:26-34 | a stored dictionary replaces files and every listener is notified; with none stored nothing changes |
| KiriCatalog.Catalog.AddFileListener | src/kiri/db.js:47-52 | a new listener is appended and called once at once with files; a known one changes nothing, so the list never holds duplicates |
| KiriCatalog.Catalog.RemoveFileListener | src/kiri/db.js:54-56 | the listener is no longer in the list, and nothing else changes |
| KiriCatalog.Catalog.NotifyFileListeners | src/kiri/db.js:63-67 | the loop calls every listener once, in list order |
| KiriCatalog.Catalog.SaveFileList | src/kiri/db.js:58-61 | the dictionary is stored under `files`, then every listener is notified |
| KiriCatalog.Catalog.SetDeferredHandler | src/kiri/db.js:76-78 | the handler is set and nothing else changes |
| KiriCatalog.Catalog.PutDeferred | src/kiri/db.js:80-86 | the name maps to a deferred record with the mark, which is stored, and every listener is notified once in order |
| KiriCatalog.Catalog.PutFile | src/kiri/db.js:93-110 | on a failed store nothing changes and the reply is false; on success the record of length/3 vertices is in files before anyone is notified, and with auto-decimation the decimated blob is stored and returned |
| KiriCatalog.Catalog.Rename | src/kiri/db.js:112-137 | an unknown name is refused with 'no such file', an empty or unchanged new name with 'invalid new name', both leaving everything unchanged; otherwise the record moves to the new name, the blobs move, and the missing ones are reported in order |
| KiriCatalog.Catalog.CopyBlob | src/kiri/db.js:129-136 | one copy step reads the old key and writes the new one only when found |
| KiriCatalog.Catalog.MoveRecord | src/kiri/db.js:121-122 | the record is under the new name, and the old name is gone |
| KiriCatalog.Catalog.GetFile | src/kiri/db.js:143-170 | a non-empty deferred mark goes to the deferred handler, or back with nothing, with no store access; otherwise the raw blob is read, or with auto-decimation the decimated blob, which is made and stored from the raw one when missing |
| KiriCatalog.Catalog.DeleteFile | src/kiri/db.js:176-188 | an unknown name gives false and changes nothing; a known name is removed from files with both blobs, then stored and notified |
| KiriCatalog.Catalog.Wipe | src/kiri/db.js:36-41 | afterwards files is empty and the blobs are exactly the old ones less the two keys of every deleted name; with no file nothing is stored or notified; otherwise the empty dictionary is stored, the listeners were told once per deletion, and the last round of calls carried the empty dictionary |

## Left out

- Polygon algebra and geometry are function-typed parameters with no properties assumed: union, offset, nesting, intersections, `emitSegment`, `setClockwise`, the centre of a trace's bounds, `projectOnSlope`, `isInPolygon`, and the `atan2` slope angle.
- A hole's circularity, area and centre are computed by polygon code outside this model. They are fields of the `CamDrill.Hole` input, with no properties assumed.
- `distTo2D` is not a parameter. `CamDrill.Near` states it exactly, as the Euclidean distance in x and y, compared without the square root.
- The ring-offset and thru-hole logic of roughing and outlining (slice.js:225-298, 350-396) is left out. It is almost entirely such calls. The model keeps only the level schedules and the per-level shadow recording around it.
- The slicer (`KIRI.slicer2`) and `CAM.Tool` are not modelled. The level intervals, the flats and the tool profile are inputs.
- Floating point is not modelled: numbers are exact reals. Float32 storage, `.round(4)`, `toFixed` and the rounding error of accumulated loop steps are therefore not captured.
- NaN and Infinity inside arithmetic are not modelled. A roughing or outline step of Infinity is an explicit extended real.
- TopoTrace.WalkOk: the walks require a part of non-zero size on both axes and positive steps. With boundsX or boundsY equal to 0, `Math.round` of a division by zero gives NaN grid indices, which is not modelled.
- The `closest` distance in `sliceDrill` is left out. It is computed but never read, so it does not affect the clusters.
- The trace-tool setup (slice.js:420-427) calls helpers that are not part of this model.
- Rendering (`output().setLayer/addPolys`), `console.log`, the `if (false)` debug blocks and the `onupdate` progress callbacks of the topo walks are display only.
- Asynchrony is not modelled. The key/value store is synchronous, so the callback ordering in `rename` and `refresh` is fixed: the decimated copy completes first, then the raw copy.
- A listener that changes the catalog while it is being notified is not modelled. The decimation worker, `Date` and the store's success flags are parameters.
- KiriCatalog.RemoveFirst: `Array.prototype.remove` is not part of this model. It is taken to drop the first occurrence, which is the only occurrence in a duplicate-free list.
- KiriCatalog.Catalog.Rename: a name that is an inherited property of a plain object (such as `constructor`) counts as unknown here. In the source it reads as a truthy record.
- KiriCatalog.Catalog.DeleteFile: such an inherited name also counts as unknown here, so the model returns false. The source removes its blobs, saves the list and notifies the listeners.
- KiriCatalog.Catalog.Wipe: the order in which `for...in` visits the names is not modelled. The model deletes them in an arbitrary order. The end dictionary, the blobs, the stored list and the number of listener calls do not depend on that order. The dictionaries passed to the listeners before the last deletion do depend on it, so they are not stated.
- `fileList()` is a getter with no behaviour of its own and is not modelled.
- CamFacing.FacingLevels: requires a positive finite roughing down-step. A negative `camRoughDown` passes every check of `CAM.slice`: it is truthy, and the slice depth becomes 0.1 (`CamJob.NegativeRoughDownAccepted`). The facing step is then negative, and the facing loop at slice.js:158 never ends. This happens with a positive top offset, and with `camRoughTop` and a zero offset. A non-terminating loop is not modelled.
- CamTabs.CreateTabLines: the tab count is taken to be a whole number. With a fractional `camTabsCount`, `while (tabCount-- > 0)` runs ceil(tabCount) times (slice.js:616-618), which is not modelled.
- TopoTrace.WalkOf: requires a positive tolerance. A zero or negative `camTolerance` gives Infinity, NaN or negative grid sizes in the source, which are not modelled.
- The polygon copy of the cut-through level (`clone`, `setZ` on its tops) is geometry and is not modelled. CamLevels.ExtendThru keeps the level's height and shadow only.
