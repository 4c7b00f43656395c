/**
 * The aligning guidelines of the TypeScript demo page. It compares the same
 * pairs of sides as AlignGuidelines, with a fixed margin of 4 and no object
 * filter, but records lines of its own shape, snaps only the y coordinate,
 * and lets the last match of the traversal decide where the dragged shape
 * goes instead of the nearest one.
 */
module TsGuidelines {
  import opened Numeric
  import opened Geometry
  import opened Guides
  import opened Matcher
  import Aligning

  /** aligningLineMargin of this variant. */
  const ALIGNING_LINE_MARGIN: real := 4.0

  /**
   * The horizontal line a pair of y sides records: on the candidate's side;
   * for a centre match it joins the dragged shape's centre to the candidate's
   * far edge, otherwise it starts at the leftmost left edge.
   */
  function HorizontalGuideOf(act: Edges, obj: Edges, p: Pair): (g: HorizontalLine)
    ensures g.y == Feature(obj, Horizontal, p.1)
    ensures p.0 == Center ==> (g.x1 == act.cl && g.x2 == obj.rl) || (g.x1 == obj.ll && g.x2 == act.cl && obj.ll < act.ll)
    ensures p.0 != Center ==> g.x1 == Min(act.ll, obj.ll) && (g.x2 == act.rl || g.x2 == obj.rl)
    ensures p.0 != Center && act.ll <= act.rl && obj.ll <= obj.rl ==> g.x1 <= g.x2
  {
    var y := Feature(obj, Horizontal, p.1);
    if p.0 == Center then
      if act.ll > obj.ll then HorizontalLine(y, obj.ll, act.cl) else HorizontalLine(y, act.cl, obj.rl)
    else
      if act.ll > obj.ll then HorizontalLine(y, obj.ll, act.rl) else HorizontalLine(y, act.ll, obj.rl)
  }

  /**
   * The vertical line a pair of x sides records: on the dragged shape's own
   * side (not the candidate's), between the two top edges, the lower top
   * first.
   */
  function VerticalGuideOf(act: Edges, obj: Edges, p: Pair): (g: VerticalLine)
    ensures g.x == Feature(act, Vertical, p.0)
    ensures g.y1 == Max(act.tt, obj.tt) && g.y2 == Min(act.tt, obj.tt)
  {
    VerticalLine(Feature(act, Vertical, p.0), if act.tt > obj.tt then act.tt else obj.tt, if act.tt > obj.tt then obj.tt else act.tt)
  }

  function HorizontalLinesOf(act: Edges, hits: seq<Hit>): seq<HorizontalLine> {
    seq(|hits|, k requires 0 <= k < |hits| => HorizontalGuideOf(act, hits[k].obj, hits[k].pair))
  }

  function VerticalLinesOf(act: Edges, hits: seq<Hit>): seq<VerticalLine> {
    seq(|hits|, k requires 0 <= k < |hits| => VerticalGuideOf(act, hits[k].obj, hits[k].pair))
  }

  lemma LinesDistribute(act: Edges, a: seq<Hit>, b: seq<Hit>)
    ensures HorizontalLinesOf(act, a + b) == HorizontalLinesOf(act, a) + HorizontalLinesOf(act, b)
    ensures VerticalLinesOf(act, a + b) == VerticalLinesOf(act, a) + VerticalLinesOf(act, b)
  {
    assert forall k :: 0 <= k < |a + b| ==> (a + b)[k] == if k < |a| then a[k] else b[k - |a|];
  }

  /** The lists one drag step fills: the lines of both axes and the y targets. */
  datatype Records = Records(horizontal: seq<HorizontalLine>, vertical: seq<VerticalLine>, ys: seq<real>)

  const NO_RECORDS := Records([], [], [])

  function Join(a: Records, b: Records): Records {
    Records(a.horizontal + b.horizontal, a.vertical + b.vertical, a.ys + b.ys)
  }

  /** What the loop body records for one candidate with features e. */
  function CandidateRecords(act: Edges, size: Size, e: Edges): Records {
    var hh := HitsWith(e, MatchedPairs(Horizontal, act, e, ALIGNING_LINE_MARGIN));
    var vh := HitsWith(e, MatchedPairs(Vertical, act, e, ALIGNING_LINE_MARGIN));
    Records(HorizontalLinesOf(act, hh), VerticalLinesOf(act, vh), SnapsOf(Horizontal, size, hh))
  }

  /** One visit of the loop: the dragged object itself records nothing. */
  function Visit(d: Drag, obj: Shape): Records
    requires ValidDrag(d)
  {
    if obj.id == d.active.id then NO_RECORDS
    else CandidateRecords(ActiveEdges(d), ActiveSize(d), RelativePosition(obj, d.v))
  }

  /** The records of a whole traversal, the last candidate visited first. */
  function Traversal(d: Drag, objs: seq<Shape>): Records
    requires ValidDrag(d)
  {
    if objs == [] then NO_RECORDS else Join(Traversal(d, objs[1..]), Visit(d, objs[0]))
  }

  /** Visiting candidate i after the ones behind it appends its records to theirs. */
  lemma TraversalStep(d: Drag, objs: seq<Shape>, i: nat)
    requires ValidDrag(d) && i < |objs|
    ensures Traversal(d, objs[i..]) == Join(Traversal(d, objs[i + 1..]), Visit(d, objs[i]))
  {
    assert objs[i..][1..] == objs[i + 1..];
  }

  /**
   * The traversal records one line and, on the y axis, one target per match
   * of Matcher.TraverseHits with this variant's margin, in the same order.
   */
  lemma {:induction false} TraversalRecordsHits(d: Drag, objs: seq<Shape>)
    requires ValidDrag(d) && d.margin == ALIGNING_LINE_MARGIN
    ensures var hh := TraverseHits(d, Horizontal, objs);
            var vh := TraverseHits(d, Vertical, objs);
            Traversal(d, objs) == Records(HorizontalLinesOf(ActiveEdges(d), hh), VerticalLinesOf(ActiveEdges(d), vh),
                                          SnapsOf(Horizontal, ActiveSize(d), hh))
  {
    if objs != [] {
      TraversalRecordsHits(d, objs[1..]);
      var hRest := TraverseHits(d, Horizontal, objs[1..]);
      var vRest := TraverseHits(d, Vertical, objs[1..]);
      LinesDistribute(ActiveEdges(d), hRest, ObjectHits(d, Horizontal, objs[0]));
      LinesDistribute(ActiveEdges(d), vRest, ObjectHits(d, Vertical, objs[0]));
      RecordsDistribute(ActiveEdges(d), Horizontal, ActiveSize(d), hRest, ObjectHits(d, Horizontal, objs[0]));
      if objs[0].id == d.active.id {
        assert hRest + [] == hRest && vRest + [] == vRest;
      }
    }
  }

  /**
   * Every y target this variant records is one AlignGuidelines records too,
   * in the same order: the two engines differ in which target they apply,
   * not in which they find.
   */
  lemma SameTargetsAsAlignGuidelines(d: Drag, objs: seq<Shape>)
    requires ValidDrag(d) && d.margin == ALIGNING_LINE_MARGIN
    ensures Traversal(d, objs).ys == Aligning.Traversal(d, objs).ys
  {
    TraversalRecordsHits(d, objs);
    Aligning.TraversalRecordsHits(d, objs);
  }

  /**
   * Where the dragged shape ends up: each match immediately re-centres it at
   * its pre-drag x and the match's y target, so the last target recorded
   * wins; without any target it stays put.
   */
  function LastSnap(active: Shape, ys: seq<real>): Shape {
    if |ys| == 0 then active else MoveCenter(active, active.cx, ys[|ys| - 1])
  }

  /**
   * When the traversal matched any y sides, the dragged shape keeps its x and
   * one of its y sides lands exactly on an in-range y side of another
   * candidate, the one of the last match recorded.
   */
  lemma LastMatchAligns(d: Drag, objs: seq<Shape>)
    requires ValidDrag(d) && d.margin == ALIGNING_LINE_MARGIN
    requires |Traversal(d, objs).ys| > 0
    ensures var r := LastSnap(d.active, Traversal(d, objs).ys);
            r.cx == d.active.cx
            && exists j, p: Pair :: 0 <= j < |objs| && objs[j].id != d.active.id
                                    && PairInRange(Horizontal, ActiveEdges(d), RelativePosition(objs[j], d.v), d.margin, p)
                                    && Feature(RelativePosition(r, d.v), Horizontal, p.0)
                                       == Feature(RelativePosition(objs[j], d.v), Horizontal, p.1)
  {
    TraversalRecordsHits(d, objs);
    var ys := Traversal(d, objs).ys;
    SnapCandidateAligns(d, Horizontal, objs, |ys| - 1);
  }

  /**
   * A recorded vertical line stands on a side of the dragged shape that is in
   * range of a side of another candidate, and runs from the lower of the two
   * tops up to the higher one.
   */
  lemma VerticalLineOnActiveSide(d: Drag, objs: seq<Shape>, k: nat)
    requires ValidDrag(d) && d.margin == ALIGNING_LINE_MARGIN
    requires k < |Traversal(d, objs).vertical|
    ensures var g := Traversal(d, objs).vertical[k];
            g.y1 >= g.y2 &&
            exists j, p: Pair :: 0 <= j < |objs| && objs[j].id != d.active.id
                                 && PairInRange(Vertical, ActiveEdges(d), RelativePosition(objs[j], d.v), d.margin, p)
                                 && g.x == Feature(ActiveEdges(d), Vertical, p.0)
  {
    TraversalRecordsHits(d, objs);
    var h := TraverseHits(d, Vertical, objs)[k];
    TraversedHitsSound(d, Vertical, objs, k);
    var j :| 0 <= j < |objs| && objs[j].id != d.active.id && h.obj == RelativePosition(objs[j], d.v)
             && PairInRange(Vertical, ActiveEdges(d), h.obj, d.margin, h.pair);
    assert Traversal(d, objs).vertical[k] == VerticalGuideOf(ActiveEdges(d), h.obj, h.pair);
  }

  /** A recorded horizontal line lies on a y side of another candidate in range of a dragged side. */
  lemma HorizontalLineOnCandidateSide(d: Drag, objs: seq<Shape>, k: nat)
    requires ValidDrag(d) && d.margin == ALIGNING_LINE_MARGIN
    requires k < |Traversal(d, objs).horizontal|
    ensures var g := Traversal(d, objs).horizontal[k];
            exists j, p: Pair :: 0 <= j < |objs| && objs[j].id != d.active.id
                                 && PairInRange(Horizontal, ActiveEdges(d), RelativePosition(objs[j], d.v), d.margin, p)
                                 && g.y == Feature(RelativePosition(objs[j], d.v), Horizontal, p.1)
  {
    TraversalRecordsHits(d, objs);
    var h := TraverseHits(d, Horizontal, objs)[k];
    TraversedHitsSound(d, Horizontal, objs, k);
    var j :| 0 <= j < |objs| && objs[j].id != d.active.id && h.obj == RelativePosition(objs[j], d.v)
             && PairInRange(Horizontal, ActiveEdges(d), h.obj, d.margin, h.pair);
    assert Traversal(d, objs).horizontal[k] == HorizontalGuideOf(ActiveEdges(d), h.obj, h.pair);
  }

  /**
   * The loop body for one candidate with features e: the nested loops over
   * the y sides and over the x sides, recording a line per pair in range
   * and, on the y axis, the target that re-centres the dragged shape.
   */
  method MatchCandidate(act: Edges, size: Size, e: Edges)
    returns (hLines: seq<HorizontalLine>, ys: seq<real>, vLines: seq<VerticalLine>)
    ensures Records(hLines, vLines, ys) == CandidateRecords(act, size, e)
  {
    var hPairs := MatchPairs(Horizontal, act, e, ALIGNING_LINE_MARGIN);
    var hHits := HitsWith(e, hPairs);
    hLines := HorizontalLinesOf(act, hHits);
    ys := SnapsOf(Horizontal, size, hHits);
    var vPairs := MatchPairs(Vertical, act, e, ALIGNING_LINE_MARGIN);
    vLines := VerticalLinesOf(act, HitsWith(e, vPairs));
  }

  /**
   * The setPositionByOrigin calls of one candidate's y matches, in order:
   * each puts the centre at the pre-drag x and the match's target.
   */
  method ApplyTargets(active: Shape, current: Shape, ys: seq<real>) returns (moved: Shape)
    ensures |ys| == 0 ==> moved == current
    ensures |ys| > 0 ==> moved == LastSnap(active, ys)
  {
    moved := current;
    for k := 0 to |ys|
      invariant k == 0 ==> moved == current
      invariant k > 0 ==> moved == MoveCenter(active, active.cx, ys[k - 1])
    {
      moved := MoveCenter(active, active.cx, ys[k]);
    }
  }

  /**
   * The loop of object:moving: visit the canvas objects from last to first,
   * skip the dragged one, record the lines of every pair of sides in range,
   * re-centre the dragged shape on each y match, and note for each axis
   * whether anything matched on it.
   */
  method TraverseCandidates(activeObject: Shape, canvasObjects: seq<Shape>, vpt: Viewport)
    returns (hLines: seq<HorizontalLine>, vLines: seq<VerticalLine>, moved: Shape,
             horizontalInTheRange: bool, verticalInTheRange: bool)
    requires ValidViewport(vpt)
    ensures var r := Traversal(Drag(activeObject, vpt, ALIGNING_LINE_MARGIN), canvasObjects);
            hLines == r.horizontal && vLines == r.vertical && moved == LastSnap(activeObject, r.ys)
    ensures horizontalInTheRange <==> |hLines| > 0
    ensures verticalInTheRange <==> |vLines| > 0
  {
    ghost var d := Drag(activeObject, vpt, ALIGNING_LINE_MARGIN);
    var act := RelativePosition(activeObject, vpt);
    var size := ObjSize(activeObject, vpt);
    hLines, vLines, moved := [], [], activeObject;
    horizontalInTheRange, verticalInTheRange := false, false;
    ghost var targets: seq<real> := [];
    var i := |canvasObjects|;
    while i > 0
      invariant 0 <= i <= |canvasObjects|
      invariant Records(hLines, vLines, targets) == Traversal(d, canvasObjects[i..])
      invariant moved == LastSnap(activeObject, targets)
      invariant horizontalInTheRange <==> |hLines| > 0
      invariant verticalInTheRange <==> |vLines| > 0
    {
      i := i - 1;
      TraversalStep(d, canvasObjects, i);
      var obj := canvasObjects[i];
      if obj.id == activeObject.id {
        continue;
      }
      var h, ys, v := MatchCandidate(act, size, RelativePosition(obj, vpt));
      assert Records(h, v, ys) == Visit(d, obj);
      hLines := hLines + h;
      vLines := vLines + v;
      targets := targets + ys;
      if |h| > 0 {
        horizontalInTheRange := true;
      }
      if |v| > 0 {
        verticalInTheRange := true;
      }
      moved := ApplyTargets(activeObject, moved, ys);
    }
    assert canvasObjects[0..] == canvasObjects;
  }

  /** The handlers of initAligningGuidelines and the state they share. */
  class Guidelines {
    var viewportTransform: Viewport
    var verticalLines: seq<VerticalLine>
    var horizontalLines: seq<HorizontalLine>

    ghost predicate Valid()
      reads this
    {
      ValidViewport(viewportTransform)
    }

    /** The viewport starts as the identity transform and no line is recorded. */
    constructor ()
      ensures Valid() && viewportTransform == IDENTITY
      ensures verticalLines == [] && horizontalLines == []
    {
      viewportTransform := IDENTITY;
      verticalLines := [];
      horizontalLines := [];
    }

    /** mouse:down: forget the lines and take the canvas's current viewport. */
    method MouseDown(canvasViewport: Viewport)
      requires ValidViewport(canvasViewport)
      modifies this
      ensures Valid()
      ensures verticalLines == [] && horizontalLines == [] && viewportTransform == canvasViewport
    {
      verticalLines := [];
      horizontalLines := [];
      viewportTransform := canvasViewport;
    }

    /** mouse:wheel and mouse:up: forget the lines. */
    method ClearLines()
      modifies this`verticalLines, this`horizontalLines
      ensures verticalLines == [] && horizontalLines == []
    {
      verticalLines := [];
      horizontalLines := [];
    }

    /**
     * object:moving: forget the lines; without a transform in progress stop
     * there. Otherwise traverse the canvas objects, then drop the lines of
     * an axis on which nothing matched. Returns where the dragged shape
     * ends up.
     */
    method ObjectMoving(activeObject: Shape, canvasObjects: seq<Shape>, hasCurrentTransform: bool) returns (moved: Shape)
      requires Valid()
      modifies this`verticalLines, this`horizontalLines
      ensures !hasCurrentTransform ==> verticalLines == [] && horizontalLines == [] && moved == activeObject
      ensures hasCurrentTransform ==>
                var d := Drag(activeObject, viewportTransform, ALIGNING_LINE_MARGIN);
                horizontalLines == Traversal(d, canvasObjects).horizontal
                && verticalLines == Traversal(d, canvasObjects).vertical
                && moved == LastSnap(activeObject, Traversal(d, canvasObjects).ys)
    {
      verticalLines := [];
      horizontalLines := [];
      moved := activeObject;
      if !hasCurrentTransform {
        return;
      }
      var hLines, vLines, horizontalInTheRange, verticalInTheRange;
      hLines, vLines, moved, horizontalInTheRange, verticalInTheRange := TraverseCandidates(activeObject, canvasObjects, viewportTransform);
      horizontalLines := horizontalLines + hLines;
      verticalLines := verticalLines + vLines;
      if !horizontalInTheRange {
        horizontalLines := [];
      }
      if !verticalInTheRange {
        verticalLines := [];
      }
    }

    /**
     * after:render: every recorded vertical line, last first, then every
     * horizontal one, last first, each drawn half a pixel off its
     * coordinate with its endpoints in order.
     */
    method AfterRender() returns (drawn: seq<Segment>)
      ensures |drawn| == |verticalLines| + |horizontalLines|
      ensures forall k :: 0 <= k < |verticalLines| ==>
                drawn[k] == LegacyVerticalSegment(verticalLines[|verticalLines| - 1 - k])
      ensures forall k :: |verticalLines| <= k < |drawn| ==>
                drawn[k] == LegacyHorizontalSegment(horizontalLines[|drawn| - 1 - k])
    {
      var vertical := DrawVerticalReversed(verticalLines);
      var horizontal := DrawHorizontalReversed(horizontalLines);
      drawn := vertical + horizontal;
    }
  }
}
