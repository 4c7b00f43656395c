/**
 * Guide lines as the engine records them, and the segments it hands to the
 * canvas for drawing. Recorded lines keep their endpoints in whatever order
 * they were computed; drawing puts them in order.
 */
module Guides {

  /** VerticalLineCoords: a vertical guide at x from y1 to y2. */
  datatype VerticalLine = VerticalLine(x: real, y1: real, y2: real)

  /** HorizontalLineCoords: a horizontal guide at y from x1 to x2. */
  datatype HorizontalLine = HorizontalLine(y: real, x1: real, x2: real)

  /**
   * The arguments of one drawLine(x1, y1, x2, y2) call, in scene
   * coordinates (the projection through the viewport transform is the
   * canvas library's business).
   */
  datatype Segment = Segment(x1: real, y1: real, x2: real, y2: real)

  /**
   * drawVerticalLine of the two self-contained variants: the endpoints are
   * put in order with ternaries and the line is moved half a pixel right.
   */
  function LegacyVerticalSegment(c: VerticalLine): (s: Segment)
    ensures s.x1 == s.x2 == c.x + 0.5
    ensures s.y1 <= s.y2
    ensures multiset{s.y1, s.y2} == multiset{c.y1, c.y2}
  {
    Segment(c.x + 0.5, if c.y1 > c.y2 then c.y2 else c.y1, c.x + 0.5, if c.y2 > c.y1 then c.y2 else c.y1)
  }

  /** drawHorizontalLine of the two self-contained variants, symmetric to the vertical one. */
  function LegacyHorizontalSegment(c: HorizontalLine): (s: Segment)
    ensures s.y1 == s.y2 == c.y + 0.5
    ensures s.x1 <= s.x2
    ensures multiset{s.x1, s.x2} == multiset{c.x1, c.x2}
  {
    Segment(if c.x1 > c.x2 then c.x2 else c.x1, c.y + 0.5, if c.x2 > c.x1 then c.x2 else c.x1, c.y + 0.5)
  }

  /** Drawing is insensitive to the order in which a line's endpoints were recorded. */
  lemma LegacySegmentsIgnoreEndpointOrder(x: real, y: real, a: real, b: real)
    ensures LegacyVerticalSegment(VerticalLine(x, a, b)) == LegacyVerticalSegment(VerticalLine(x, b, a))
    ensures LegacyHorizontalSegment(HorizontalLine(y, a, b)) == LegacyHorizontalSegment(HorizontalLine(y, b, a))
  {
  }

  /** The first after:render loop: every recorded vertical line, last first. */
  method DrawVerticalReversed(lines: seq<VerticalLine>) returns (drawn: seq<Segment>)
    ensures |drawn| == |lines|
    ensures forall k :: 0 <= k < |lines| ==> drawn[k] == LegacyVerticalSegment(lines[|lines| - 1 - k])
  {
    drawn := [];
    var i := |lines|;
    while i > 0
      invariant 0 <= i <= |lines|
      invariant |drawn| == |lines| - i
      invariant forall k :: 0 <= k < |drawn| ==> drawn[k] == LegacyVerticalSegment(lines[|lines| - 1 - k])
    {
      i := i - 1;
      drawn := drawn + [LegacyVerticalSegment(lines[i])];
    }
  }

  /** The second after:render loop: every recorded horizontal line, last first. */
  method DrawHorizontalReversed(lines: seq<HorizontalLine>) returns (drawn: seq<Segment>)
    ensures |drawn| == |lines|
    ensures forall k :: 0 <= k < |lines| ==> drawn[k] == LegacyHorizontalSegment(lines[|lines| - 1 - k])
  {
    drawn := [];
    var i := |lines|;
    while i > 0
      invariant 0 <= i <= |lines|
      invariant |drawn| == |lines| - i
      invariant forall k :: 0 <= k < |drawn| ==> drawn[k] == LegacyHorizontalSegment(lines[|lines| - 1 - k])
    {
      i := i - 1;
      drawn := drawn + [LegacyHorizontalSegment(lines[i])];
    }
  }
}
