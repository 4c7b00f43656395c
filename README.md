# fabric-guideline-plugin, modelled in Dafny

This project models the snapping and guide-line engine of the fabric.js guideline plugin.
- While a shape is dragged on a fabric canvas, the engine compares the shape's six comparison features with the same kind of features of every other shape:
  - x features: left, centre and right;
  - y features: top, centre and bottom.
- Every pair within a tolerance of 4 (after Math.round) records a guide line.
- The dragged shape is then re-centred so that a matched side lies exactly on the other shape's side.
- On every render the recorded lines are drawn.

The repository contains the engine three times. The model follows each copy separately:

- `src/module/aligning.ts`, the `AlignGuidelines` class:
  - an ignore or pick list filters the candidates;
  - every pair of sides is compared;
  - all snap candidates are recorded;
  - the nearest candidate per axis wins (`Aligning`, built on `Matcher` and `Resolver`);
  - `src/module/index.ts` builds one with a pick list that keeps boxes.
- `src/index.ts`, the TypeScript demo page's `initAligningGuidelines` (`TsGuidelines`):
  - the same pairs are compared, with lines of a different shape;
  - only y is snapped, and the last match wins.
- `index.js`, the plain JavaScript page's `initAligningGuidelines` (`JsGuidelines`):
  - only boxes take part;
  - six rules compare each side with the same side of the candidate;
  - a rule that fires re-centres the shape at its target on its own axis and at the pre-drag coordinate on the other axis, so the last rule that fires decides where the shape ends (see "## Findings").

All three entry points also carry the same canvas-centre snapping (`Centering`) and mouse-wheel zoom handler (`WheelZoom`).

How the source maps onto the model:
- **Objects whose fields the handlers update become classes.** These are `Aligning.AlignGuidelines`, `TsGuidelines.Guidelines`, `JsGuidelines.Guidelines` and `Centering.CenteringGuidelines`. Their methods carry the fields in `modifies` clauses.
- **Each event handler is a method.** This covers mouse:down, object:moving, mouse:wheel, mouse:up and after:render.
- **The loops of the source are loops in the model.** Each one is proved against a specification function of its inputs:
  - `Traversal`, which gives the records of one drag step;
  - `StepResult`, `LastSnap` and `Replay`, which give where the shape ends;
  - `RenderedVertical` and `RenderedHorizontal`, which give what is drawn.
- **What the source promises is proved about those functions as lemmas.** For example:
  - every recorded line lies on an in-range side of another shape;
  - every in-range pair is recorded;
  - each axis snaps to its nearest candidate;
  - after the step, a side of the dragged shape lies exactly on a side of another shape.

Shapes are values. `id` stands for object identity (the source's `===`), and setPositionByOrigin(point, "center", "center") is `Geometry.MoveCenter`.

Where the plugin's design description and the code of these files differ, the model follows the code. The code:
- compares the bounding box's six features, not rotated corners;
- uses the object's reported centre, not the diagonal midpoint;
- uses a fixed scene-space tolerance, not one divided by the zoom;
- lets a non-empty ignore list win over a pick list, where the description has the pick list win;
- draws an `AlignGuidelines` line only when its coordinate exactly equals a current side, with no epsilon.

## Model

| member | source | states |
|---|---|---|
| Numeric.Round | src/module/aligning.ts:96 | Math.round gives the integer within half a unit below and above the argument (halves round up) |
| Numeric.IsInRange | src/module/aligning.ts:95-97 | two coordinates line up exactly when the rounded first one lies in the window of half-width margin around the rounded second one |
| Numeric.IsInRangeSymmetric | src/index.ts:483-489 | the tolerance test does not depend on the order of its operands |
| Numeric.IsInRangeReflexive | src/index.ts:243-258 | coordinates that round alike are always in range for a non-negative margin |
| Numeric.RoundShift | src/index.ts:246-249 | adding a whole number before rounding adds it after rounding, so `i++` walks consecutive rounded keys |
| Numeric.Min3 | src/module/aligning.ts:243 | Math.min of three values is one of them and no larger than any |
| Numeric.Max3 | src/module/aligning.ts:244 | Math.max of three values is one of them and no smaller than any |
| Geometry.ObjSize | src/module/aligning.ts:123-129 | the size times the viewport scale is the bounding size; a well-formed shape has a non-negative size |
| Geometry.RelativePosition | src/module/aligning.ts:160-183 | centre features are the centre point; the edges are half the size on either side, and ordered for a well-formed shape |
| Geometry.MoveCenterShiftsFeatures | src/module/aligning.ts:297-302 | moving the centre keeps the size and shifts every feature of an axis by the centre's displacement on it |
| Guides.LegacyVerticalSegment | src/index.ts:427-440 | a vertical line is drawn half a pixel right of x, from its smaller y to its larger one, with the same endpoints |
| Guides.LegacyHorizontalSegment | index.js:383-388 | a horizontal line is drawn half a pixel below y, from its smaller x to its larger one, with the same endpoints |
| Guides.LegacySegmentsIgnoreEndpointOrder | src/index.ts:427-449 | drawing does not depend on the order the endpoints were recorded in |
| Guides.DrawVerticalReversed | src/index.ts:823-825 | the k-th drawn segment is the line recorded k-th from the end |
| Guides.DrawHorizontalReversed | index.js:625-627 | the k-th drawn segment is the line recorded k-th from the end |
| Matcher.RowPairsExact | src/module/aligning.ts:237-238 | one dragged side's row holds exactly its in-range pairs, candidate sides in increasing order |
| Matcher.PairsUpToExact | src/module/aligning.ts:236-238 | the rows so far hold exactly the in-range pairs of the dragged sides visited, strictly in visiting order |
| Matcher.MatchedPairs | src/module/aligning.ts:236-238 | a pair of sides is matched if and only if it is within the tolerance |
| Matcher.MatchedPairsOrdered | src/module/aligning.ts:236-237 | matched pairs come in the nested loops' order, each once |
| Matcher.MatchPairs | src/module/aligning.ts:262-264 | the two nested for-in loops produce exactly the matched pairs in order |
| Matcher.HorizontalGuide | src/module/aligning.ts:239-249 | the line lies on the candidate's side and spans both shapes (centre match: the dragged centre and the candidate), left to right for an ordered dragged shape |
| Matcher.VerticalGuide | src/module/aligning.ts:265-274 | the line lies on the candidate's side and spans both shapes (centre match: the dragged centre and the candidate), top to bottom for an ordered dragged shape |
| Matcher.SnapAlignsSide | src/module/aligning.ts:251-257 | centring the dragged shape on the snap candidate puts the matched side exactly on the target |
| Matcher.TraversedHitsSound | src/module/aligning.ts:227-238 | every recorded match is an in-range pair against a candidate other than the dragged shape |
| Matcher.TraversedHitsComplete | src/module/aligning.ts:228-238 | every in-range pair against every other candidate is recorded |
| Matcher.HorizontalLineOnCandidateSide | src/module/aligning.ts:238-249 | every recorded horizontal line is on an in-range y side of another candidate, running left to right |
| Matcher.VerticalLineOnCandidateSide | src/module/aligning.ts:264-274 | every recorded vertical line is on an in-range x side of another candidate, running top to bottom |
| Matcher.LinesAndSnapsInStep | src/module/aligning.ts:249-257 | each match records one line and one snap candidate, so the two lists of an axis have equal length |
| Matcher.SnapCandidateAligns | src/module/aligning.ts:276-282 | every snap candidate, applied on its axis, puts a side of the dragged shape on an in-range side of another candidate |
| Resolver.NearestIndexIsNearest | src/module/aligning.ts:290-295 | the chosen candidate is no farther than any other and every earlier one is strictly farther (a stable sort's head) |
| Resolver.StableSortHeadIsUnique | src/module/aligning.ts:295 | the stably sorted list's head is determined: only one index is nearest with all earlier ones farther |
| Resolver.SortPointsIsStableHead | src/module/aligning.ts:288-296 | the single pass in which an earlier candidate wins a tie picks the candidate at NearestIndex, the stable sort's head |
| Resolver.SortPointsNearest | src/module/aligning.ts:288-296 | sortPoints gives the origin without candidates, else a candidate no other beats |
| Resolver.SortPointsCloserWithMore | src/module/aligning.ts:298 | recording more snap points never moves the choice farther from the origin |
| Aligning.FilterObjects | src/module/aligning.ts:190-198 | an object survives the filter if and only if it is on the canvas and the lists keep it; never more objects |
| Aligning.FilterObjectsKeepsOrder | src/module/aligning.ts:190-198 | the filter keeps canvas order: filtering a concatenation filters each part, the earlier part first |
| Aligning.IgnoreListWins | src/module/aligning.ts:191-193 | with a non-empty ignore list the pick list has no effect, and exactly the unlisted objects stay |
| Aligning.PickListSelects | src/module/aligning.ts:194-196 | with no ignore list, a pick list keeps exactly the objects carrying one of its entries |
| Aligning.EmptyListsKeepAll | src/module/aligning.ts:197 | with both lists empty every canvas object is a candidate, in order |
| Aligning.BoxesOnly | src/module/index.ts:286-288 | the packaged demo's pick list keeps exactly the objects whose myType is "box" |
| Aligning.TraversalRecordsHits | src/module/aligning.ts:227-285 | a traversal records exactly one line and one snap candidate per in-range pair, last candidate first |
| Aligning.SnapsEachAxisToNearest | src/module/aligning.ts:287-303 | each axis independently moves to its nearest candidate, or keeps its coordinate without one; only the centre changes |
| Aligning.RecordedSnapAligns | src/module/aligning.ts:251-256 | every recorded candidate, applied on its axis, puts a dragged side on another shape's in-range side |
| Aligning.StepAlignsVerticalSide | src/module/aligning.ts:276-302 | when an x candidate was recorded, the step ends with a dragged x side exactly on another candidate's in-range x side |
| Aligning.StepAlignsHorizontalSide | src/module/aligning.ts:251-302 | when a y candidate was recorded, the step ends with a dragged y side exactly on another candidate's in-range y side |
| Aligning.DrawVerticalLine | src/module/aligning.ts:79-85 | a vertical line is drawn if and only if its x is a current x side of the dragged shape, then from its smaller to its larger y |
| Aligning.DrawHorizontalLine | src/module/aligning.ts:87-93 | a horizontal line is drawn if and only if its y is a current y side of the dragged shape, then from its smaller to its larger x |
| Aligning.RenderedVerticalOnActiveSides | src/module/aligning.ts:317-319 | every drawn vertical segment is a recorded line on a current x side of the dragged shape |
| Aligning.RenderedHorizontalOnActiveSides | src/module/aligning.ts:320-322 | every drawn horizontal segment is a recorded line on a current y side of the dragged shape |
| Aligning.LineOnActiveSideIsRendered | src/module/aligning.ts:316-319 | a recorded vertical line on a current x side of the dragged shape is drawn |
| Aligning.HorizontalLineOnActiveSideIsRendered | src/module/aligning.ts:319-322 | a recorded horizontal line on a current y side of the dragged shape is drawn |
| Aligning.MatchCandidate | src/module/aligning.ts:230-285 | for a candidate other than the dragged shape, one loop body records exactly what the traversal specification says for it |
| Aligning.AlignGuidelines.constructor | src/module/aligning.ts:31-56 | a missing or zero margin falls back to 4, missing lists are empty, no lines are recorded |
| Aligning.AlignGuidelines.ClearLinesMeta | src/module/aligning.ts:119-121 | both line lists become empty |
| Aligning.AlignGuidelines.MouseDown | src/module/aligning.ts:99-104 | the lines are cleared and the canvas's viewport is taken |
| Aligning.AlignGuidelines.MouseUp | src/module/aligning.ts:106-111 | the lines are cleared |
| Aligning.AlignGuidelines.MouseWheel | src/module/aligning.ts:113-117 | the lines are cleared |
| Aligning.AlignGuidelines.ObjectMoving | src/module/aligning.ts:185-204 | without a transform only the lines are cleared; otherwise the lines and position are those of the traversal of the filtered objects |
| Aligning.TraverseObjects | src/module/aligning.ts:227-304 | the loop's lines are exactly the traversal's, and snapping after every candidate leaves the shape where one snap to all collected candidates puts it (unchanged without any) |
| Aligning.AlignGuidelines.TraversAllObjects | src/module/aligning.ts:206-305 | both line lists grow by the traversal's lines and the shape ends snapped to the nearest collected candidates |
| Aligning.AlignGuidelines.AfterRender | src/module/aligning.ts:316-324 | the drawn segments are the rendered vertical lines, then the horizontal ones, each list last first |
| Centering.BuildCenterMap | src/index.ts:243-258 | the keys are exactly the nine integers around the rounded centre, so a rounded coordinate is a key if and only if it is within 4 of the centre |
| Centering.CenterSnapMovesLittle | src/index.ts:321-342 | snapping changes only the centre, by less than 5 per axis, and an axis lands on the canvas centre if and only if it was in range |
| Centering.CenterSnapIdempotent | src/module/index.ts:234-254 | a second move without dragging changes nothing |
| Centering.CenteringGuidelines.constructor | index.js:221-240 | the centres are half the canvas size and both maps hold exactly the snapping windows |
| Centering.CenteringGuidelines.MouseDown | src/index.ts:313-319 | both flags are cleared |
| Centering.CenteringGuidelines.ObjectMoving | index.js:295-308 | without a transform nothing changes; otherwise the flags are the range tests and the shape is snapped |
| Centering.CenteringGuidelines.AfterRender | src/index.ts:348-376 | the vertical centre line is drawn first when flagged, the horizontal one last when flagged, shifted by the variant's offset |
| WheelZoom.WheelStep | index.js:156-170 | a non-zero deltaY decides by its sign alone; otherwise the step is minus wheelDelta over 120 |
| WheelZoom.Zoomed | src/module/index.ts:133-142 | the zoom minus a tenth of the step, clamped to [0.2, 4] |
| WheelZoom.ZoomOnWheel | src/index.ts:165-193 | the handler's two sequential tests give Zoomed of the resolved step, always within [0.2, 4] |
| WheelZoom.WheelDirection | src/index.ts:173-185 | scrolling down never zooms in, scrolling up never zooms out, no movement keeps the zoom |
| WheelZoom.NotchesCancel | index.js:175-183 | away from the limits, one notch down then one up restores the zoom |
| WheelZoom.ZoomedMonotone | src/module/index.ts:134-142 | a larger zoom never ends up smaller after the same event |
| TsGuidelines.HorizontalGuideOf | src/index.ts:620-651 | the line lies on the candidate's y side; a centre match joins the dragged centre to one shape's far edge; otherwise it starts at the leftmost left edge |
| TsGuidelines.VerticalGuideOf | src/index.ts:697-708 | the line lies on the dragged shape's own x side and runs from the larger top to the smaller |
| TsGuidelines.TraversalRecordsHits | src/index.ts:568-711 | the traversal records one line per in-range pair and one y target per y pair, last candidate first |
| TsGuidelines.SameTargetsAsAlignGuidelines | src/index.ts:653-684 | this variant finds the same y targets, in the same order, as AlignGuidelines with margin 4 |
| TsGuidelines.LastMatchAligns | src/index.ts:664-673 | after a step with any y match, x is unchanged and a dragged y side lies exactly on another candidate's in-range y side |
| TsGuidelines.VerticalLineOnActiveSide | src/index.ts:689-711 | every recorded vertical line is on a dragged x side in range of another candidate, its y1 not above its y2 |
| TsGuidelines.HorizontalLineOnCandidateSide | src/index.ts:610-651 | every recorded horizontal line lies on an in-range y side of another candidate |
| TsGuidelines.MatchCandidate | src/index.ts:610-711 | one loop body records what the traversal specification says for that candidate |
| TsGuidelines.ApplyTargets | src/index.ts:653-684 | the successive re-centrings of a candidate's y matches leave the last one in force |
| TsGuidelines.TraverseCandidates | src/index.ts:568-803 | the loop records the traversal's lines, ends at the last y target, and flags an axis if and only if it recorded a line |
| TsGuidelines.Guidelines.constructor | src/index.ts:411-425 | no line is recorded and the viewport is the identity |
| TsGuidelines.Guidelines.MouseDown | src/index.ts:491-495 | the lines are cleared and the canvas's viewport is taken |
| TsGuidelines.Guidelines.ClearLines | src/index.ts:814-816 | the lines are cleared (mouse:wheel and mouse:up) |
| TsGuidelines.Guidelines.ObjectMoving | src/index.ts:497-812 | without a transform only the lines are cleared; otherwise the lines are the traversal's and the shape ends at the last y target |
| TsGuidelines.Guidelines.AfterRender | src/index.ts:822-839 | all vertical lines last first, then all horizontal lines last first |
| JsGuidelines.IsInRangeLoop | index.js:448-457 | walking the nine integers around the rounded first value finds the rounded second if and only if the two are within 4 |
| JsGuidelines.VerticalGuideOf | index.js:508-518 | the line is on the candidate's side; it starts exactly 5 beyond the candidate's edge away from the dragged shape and ends exactly 5 beyond the dragged shape's edge away from the candidate, so for ordered shapes it reaches at least 5 past both centres |
| JsGuidelines.HorizontalGuideOf | index.js:553-563 | the line is on the candidate's side; it starts exactly 5 beyond the candidate's edge away from the dragged shape and ends exactly 5 beyond the dragged shape's edge away from the candidate, so for ordered shapes it reaches at least 5 past both centres |
| JsGuidelines.RulesMovesSound | index.js:507-595 | every re-centring of a candidate comes from a rule that fired and puts that rule's side on the candidate's side |
| JsGuidelines.AllRulesFire | index.js:507-595 | when every rule fires, each records its own re-centring, in rule order |
| JsGuidelines.TraversalMovesSound | index.js:496-596 | every re-centring of a step comes from a fired rule against another box |
| JsGuidelines.LastTargetFound | index.js:519-594 | the last target of an axis is one of its moves exactly when the axis has one |
| JsGuidelines.ReplayPerAxis | index.js:519-594 | re-centring one axis at a time leaves each axis at its own last target |
| JsGuidelines.ReplayAppend | index.js:496-596 | in the corrected definition, replaying the moves of one candidate after those of the earlier ones is replaying all of them together |
| JsGuidelines.SnappedAxisAligns | index.js:496-596 | when a rule of an axis fired, the step ends with that side of the dragged shape exactly on the same side of another box |
| JsGuidelines.AsWrittenLosesVerticalSnap | index.js:519-594 | as written, two overlapping boxes fire all six rules, yet the x snap is undone while the intended replay centres on (100, 100) |
| JsGuidelines.AsWrittenAppend | index.js:496-596 | as written, a later candidate whose rules fire decides the position alone; one with no rule firing leaves it |
| JsGuidelines.AsWrittenLastAligns | index.js:496-596 | as written, after a step in which a rule fired, the shape keeps its pre-drag coordinate on the other axis and has the last fired rule's side exactly on the same side of another box |
| JsGuidelines.VisitCandidate | index.js:507-595 | the six rule blocks record the rules' lines, and each rule that fires re-centres the shape at its target and the other axis's pre-drag coordinate, so the last one to fire decides the position |
| JsGuidelines.Guidelines.constructor | index.js:355-368 | no line is recorded and the viewport is the identity |
| JsGuidelines.Guidelines.MouseDown | index.js:460-464 | the lines are cleared and the canvas's viewport is taken |
| JsGuidelines.Guidelines.ClearLines | index.js:641-649 | the lines are cleared (mouse:up and mouse:wheel) |
| JsGuidelines.Guidelines.ObjectMoving | index.js:466-605 | without a transform only the lines are cleared; otherwise the lines are the traversal of the boxes and the shape ends where the last move of the whole step puts it, the other axis at its pre-drag coordinate |
| JsGuidelines.Guidelines.AfterRender | index.js:619-639 | all vertical lines last first, then all horizontal lines last first |

## Left out

- Drawing:
  - projecting lines through the viewport transform (fabric.util.transformPoint);
  - line width and colour;
  - the canvas context calls;
  - before:render's clearContext;
  - calcOffset and renderAll.

  The model stops at the arguments passed to drawLine or showCenterLine.
- The info panel: the `global`/`this` strings (centerLine_*, alignmentLines_*) and updateInfo. They are UI output only. This also covers the TypeScript page's horizontal-centre string, which repeats the vertical line's numbers.
- Fabric's own behaviour:
  - event wiring (canvas.on, init);
  - getObjects, getCenterPoint and getBoundingRect, which become fields of `Shape`;
  - zoomToPoint, preventDefault, stopPropagation and console.log.
- Floating point: coordinates are exact reals. Rounding is modelled exactly as Math.round on reals, but IEEE rounding of sums like `i++` on a fractional centre is not.
- The viewport before the first mouse:down: in `src/index.ts` it is the identity. In `index.js` and in `src/module/aligning.ts` (the `viewportTransform` field, set only by mouse:down) it is undefined, so an object:moving before any mouse:down would throw when it reads the viewport's scale. Each class starts with the identity instead.
- `isInVerticalCenter` and `isInHorizontalCenter` are initially undefined and reset to `null`; the model reads both as false, which is how `if` treats them.
- Custom properties are strings, and `obj.myType == "box"` is compared as string equality; JavaScript's loose equality across types is not modelled.
- Event fields that are missing or NaN (`wheelDelta`, `deltaY`) are passed as 0, which the handler treats alike.
- The unused `zoom`, `pointer`, `containerWidth` and `containerHeight` variables, `afterRenderActions`, and AlignGuidelines' `aligningLineWidth`/`aligningLineColor` (drawing only) are left out.
- AlignGuidelines' placeholder `new fabric.Object()` for the active object is a blank shape.
- `src/module/index.ts` never calls initCenteringGuidelines (the call is commented out). The model covers its handler as `Centering` with line offset 0.
- The reset and zoom buttons, canvas setup and the vite configuration are demo plumbing.
- Centering's mouse:up handler only re-renders, so it has no member.
- Centering.CenteringGuidelines.AfterRender: states the centre lines drawn, not the canvas's projection of them.
- Aligning.AlignGuidelines.TraversAllObjects: the loop (`Aligning.TraverseObjects`) collects the lines and the moved shape in local values, and the method stores them in the fields after the loop. The source pushes onto the fields and moves the object during the loop; nothing reads them in between. Aliasing between the dragged object and its entry in the candidate list is not modelled; the loop skips that entry by identity.

## Findings

| source | as written | input that shows it | evidently intended | confidence | as-written member | corrected member |
|---|---|---|---|---|---|---|
| index.js:519-594 | each rule that fires re-centres the dragged shape at the pre-drag coordinate of the other axis, so a later y rule puts x back and undoes an earlier x snap, while the x guide lines stay recorded | identity viewport; a 50 by 50 box centred at (102, 102) dragged beside a 50 by 50 box centred at (100, 100): all six rules fire and the shape ends at x = 102 | each rule moves only its own axis, keeping the other axis where earlier rules put it, so the shape ends at (100, 100) with both guides true | not executed | JsGuidelines.AsWrittenLosesVerticalSnap | JsGuidelines.SnappedAxisAligns |

The class `JsGuidelines.Guidelines` models the code as written: its object:moving handler ends at `JsGuidelines.AsWrittenPosition`. `JsGuidelines.Replay` is the corrected, per-axis definition, and `JsGuidelines.SnappedAxisAligns` proves the intended property about it.
