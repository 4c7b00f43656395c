/**
 * The centering guidelines: a dragged shape whose rounded centre comes
 * within four pixels of the canvas centre line of an axis is snapped onto
 * that line, and the centre lines it sits on are drawn. The three demo
 * entry points carry the same handler; they differ only in whether the
 * drawn centre line is shifted by half a pixel.
 */
module Centering {
  import opened Numeric
  import opened Geometry
  import opened Guides

  /** centerLineMargin: the half-width of the snapping window, in pixels. */
  const CENTER_LINE_MARGIN: real := 4.0

  /**
   * The map-building loop: for i = center - 4, center - 3, ... while
   * i <= center + 4, store Math.round(i) as a key. The keys are exactly
   * the nine integers around Math.round(center), so the lookup of a
   * rounded coordinate is the tolerance test against the centre.
   */
  method BuildCenterMap(center: real) returns (keys: map<int, bool>)
    ensures forall k :: k in keys <==> Round(center) - 4 <= k <= Round(center) + 4
    ensures forall x: real :: Round(x) in keys <==> IsInRange(x, center, CENTER_LINE_MARGIN)
    ensures forall k :: k in keys ==> keys[k]
  {
    keys := map[];
    var i := center - CENTER_LINE_MARGIN;
    var len := center + CENTER_LINE_MARGIN;
    ghost var j := 0;
    while i <= len
      invariant 0 <= j <= 9
      invariant i == center - CENTER_LINE_MARGIN + j as real
      invariant forall k :: k in keys <==> Round(center) - 4 <= k < Round(center) - 4 + j
      invariant forall k :: k in keys ==> keys[k]
      decreases 9 - j
    {
      RoundShift(center, j - 4);
      keys := keys[Round(i) := true];
      i := i + 1.0;
      j := j + 1;
    }
  }

  /**
   * Where object:moving leaves a shape during a transform: an axis whose
   * rounded centre is within the window snaps to the canvas centre of that
   * axis, the other axis keeps its coordinate.
   */
  function CenterSnap(s: Shape, widthCenter: real, heightCenter: real): Shape {
    var inV := IsInRange(s.cx, widthCenter, CENTER_LINE_MARGIN);
    var inH := IsInRange(s.cy, heightCenter, CENTER_LINE_MARGIN);
    if inH || inV then MoveCenter(s, if inV then widthCenter else s.cx, if inH then heightCenter else s.cy)
    else s
  }

  /**
   * Snapping to the centre changes only the centre, moves each coordinate
   * by less than five pixels, and puts a snapped coordinate exactly on the
   * canvas centre.
   */
  lemma CenterSnapMovesLittle(s: Shape, widthCenter: real, heightCenter: real)
    ensures var r := CenterSnap(s, widthCenter, heightCenter);
            r == MoveCenter(s, r.cx, r.cy)
            && AbsReal(r.cx - s.cx) < 5.0 && AbsReal(r.cy - s.cy) < 5.0
            && (r.cx == s.cx || r.cx == widthCenter) && (r.cy == s.cy || r.cy == heightCenter)
            && (IsInRange(s.cx, widthCenter, CENTER_LINE_MARGIN) <==> r.cx == widthCenter)
            && (IsInRange(s.cy, heightCenter, CENTER_LINE_MARGIN) <==> r.cy == heightCenter)
  {
    var r := CenterSnap(s, widthCenter, heightCenter);
    if IsInRange(s.cx, widthCenter, CENTER_LINE_MARGIN) {
      assert Round(s.cx) <= Round(widthCenter) + 4 && Round(widthCenter) - 4 <= Round(s.cx);
    } else if s.cx == widthCenter {
      IsInRangeReflexive(s.cx, widthCenter, CENTER_LINE_MARGIN);
    }
    if IsInRange(s.cy, heightCenter, CENTER_LINE_MARGIN) {
      assert Round(s.cy) <= Round(heightCenter) + 4 && Round(heightCenter) - 4 <= Round(s.cy);
    } else if s.cy == heightCenter {
      IsInRangeReflexive(s.cy, heightCenter, CENTER_LINE_MARGIN);
    }
  }

  /** A second move without dragging further changes nothing: snapping is idempotent. */
  lemma CenterSnapIdempotent(s: Shape, widthCenter: real, heightCenter: real)
    ensures CenterSnap(CenterSnap(s, widthCenter, heightCenter), widthCenter, heightCenter)
         == CenterSnap(s, widthCenter, heightCenter)
  {
    IsInRangeReflexive(widthCenter, widthCenter, CENTER_LINE_MARGIN);
    IsInRangeReflexive(heightCenter, heightCenter, CENTER_LINE_MARGIN);
  }

  /** The centering engine attached to one canvas. */
  class CenteringGuidelines {
    var canvasWidth: real
    var canvasHeight: real
    var canvasWidthCenter: real
    var canvasHeightCenter: real
    var canvasWidthCenterMap: map<int, bool>
    var canvasHeightCenterMap: map<int, bool>
    /** How far the drawn centre line is shifted: 0.5 in two variants, 0 in the packaged demo. */
    var lineOffset: real
    /** isInVerticalCenter / isInHorizontalCenter; null and undefined read as false. */
    var isInVerticalCenter: bool
    var isInHorizontalCenter: bool

    /** The two lookup maps hold exactly the windows around the canvas centres. */
    ghost predicate Valid()
      reads this
    {
      (forall x: real :: Round(x) in canvasWidthCenterMap <==> IsInRange(x, canvasWidthCenter, CENTER_LINE_MARGIN))
      && (forall y: real :: Round(y) in canvasHeightCenterMap <==> IsInRange(y, canvasHeightCenter, CENTER_LINE_MARGIN))
    }

    /** initCenteringGuidelines: the centres are half the canvas size and both maps are built. */
    constructor (width: real, height: real, lineOffset: real)
      ensures Valid()
      ensures canvasWidth == width && canvasHeight == height
      ensures canvasWidthCenter == width / 2.0 && canvasHeightCenter == height / 2.0
      ensures this.lineOffset == lineOffset
      ensures !isInVerticalCenter && !isInHorizontalCenter
    {
      canvasWidth := width;
      canvasHeight := height;
      canvasWidthCenter := width / 2.0;
      canvasHeightCenter := height / 2.0;
      this.lineOffset := lineOffset;
      var widthMap := BuildCenterMap(width / 2.0);
      var heightMap := BuildCenterMap(height / 2.0);
      canvasWidthCenterMap := widthMap;
      canvasHeightCenterMap := heightMap;
      isInVerticalCenter := false;
      isInHorizontalCenter := false;
    }

    /** mouse:down: forget on which centre lines the shape was. */
    method MouseDown()
      modifies this`isInVerticalCenter, this`isInHorizontalCenter
      ensures !isInVerticalCenter && !isInHorizontalCenter
    {
      isInVerticalCenter := false;
      isInHorizontalCenter := false;
    }

    /**
     * object:moving: without a transform in progress nothing happens;
     * otherwise look the rounded centre up in both maps, remember the
     * answers, and snap the shape as CenterSnap says.
     */
    method ObjectMoving(target: Shape, hasCurrentTransform: bool) returns (moved: Shape)
      requires Valid()
      modifies this`isInVerticalCenter, this`isInHorizontalCenter
      ensures !hasCurrentTransform ==> moved == target && unchanged(this)
      ensures hasCurrentTransform ==>
                isInVerticalCenter == IsInRange(target.cx, canvasWidthCenter, CENTER_LINE_MARGIN)
                && isInHorizontalCenter == IsInRange(target.cy, canvasHeightCenter, CENTER_LINE_MARGIN)
                && moved == CenterSnap(target, canvasWidthCenter, canvasHeightCenter)
    {
      moved := target;
      if !hasCurrentTransform {
        return;
      }
      isInVerticalCenter := Round(target.cx) in canvasWidthCenterMap;
      isInHorizontalCenter := Round(target.cy) in canvasHeightCenterMap;
      if isInHorizontalCenter || isInVerticalCenter {
        moved := MoveCenter(target, if isInVerticalCenter then canvasWidthCenter else target.cx,
                            if isInHorizontalCenter then canvasHeightCenter else target.cy);
      }
    }

    /**
     * after:render: the full-height line at the canvas's width centre
     * when the shape sits on it, then the full-width line at the height
     * centre when it sits on that one.
     */
    method AfterRender() returns (drawn: seq<Segment>)
      ensures |drawn| == (if isInVerticalCenter then 1 else 0) + (if isInHorizontalCenter then 1 else 0)
      ensures isInVerticalCenter ==>
                drawn[0] == Segment(canvasWidthCenter + lineOffset, 0.0, canvasWidthCenter + lineOffset, canvasHeight)
      ensures isInHorizontalCenter ==>
                drawn[|drawn| - 1] == Segment(0.0, canvasHeightCenter + lineOffset, canvasWidth, canvasHeightCenter + lineOffset)
    {
      drawn := [];
      if isInVerticalCenter {
        drawn := drawn + [Segment(canvasWidthCenter + lineOffset, 0.0, canvasWidthCenter + lineOffset, canvasHeight)];
      }
      if isInHorizontalCenter {
        drawn := drawn + [Segment(0.0, canvasHeightCenter + lineOffset, canvasWidth, canvasHeightCenter + lineOffset)];
      }
    }
  }
}
