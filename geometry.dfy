/**
 * What the engine reads from a shape: its centre in scene coordinates, its
 * bounding-rectangle size in canvas pixels, its identity and its custom
 * properties; and how it turns that into the six comparison features
 * (left/centre/right x and top/centre/bottom y).
 */
module Geometry {
  import opened Numeric

  /**
   * A canvas object. `id` stands for object identity (the source compares
   * objects with `===`); `cx`/`cy` is getCenterPoint(); the bounding size is
   * getBoundingRect(), which already includes the viewport zoom; `props` holds
   * the custom properties that the ignore/pick lists look up.
   */
  datatype Shape = Shape(
    id: nat,
    cx: real,
    cy: real,
    boundingWidth: real,
    boundingHeight: real,
    props: map<string, string>)

  /** A bounding rectangle never has a negative size. */
  predicate WellFormed(s: Shape) {
    s.boundingWidth >= 0.0 && s.boundingHeight >= 0.0
  }

  /** The two scale entries of the viewport transform: viewportTransform[0] and [3]. */
  datatype Viewport = Viewport(scaleX: real, scaleY: real)

  /** The canvas zoom is always positive. */
  predicate ValidViewport(v: Viewport) {
    v.scaleX > 0.0 && v.scaleY > 0.0
  }

  /** The identity transform [1, 0, 0, 1, 0, 0] a canvas starts with. */
  const IDENTITY: Viewport := Viewport(1.0, 1.0)

  datatype Size = Size(width: real, height: real)

  /** getObjSize: the bounding size brought back to scene units. */
  function ObjSize(s: Shape, v: Viewport): (r: Size)
    requires ValidViewport(v)
    ensures r.width * v.scaleX == s.boundingWidth && r.height * v.scaleY == s.boundingHeight
    ensures WellFormed(s) ==> r.width >= 0.0 && r.height >= 0.0
  {
    Size(s.boundingWidth / v.scaleX, s.boundingHeight / v.scaleY)
  }

  /**
   * The six features of a shape: ll/cl/rl are its left, centre and right x,
   * tt/ct/bt its top, centre and bottom y.
   */
  datatype Edges = Edges(ll: real, cl: real, rl: real, tt: real, ct: real, bt: real)

  /** calcObjRelativePositionToCanvas. */
  function RelativePosition(s: Shape, v: Viewport): (e: Edges)
    requires ValidViewport(v)
    ensures e.cl == s.cx && e.ct == s.cy
    ensures e.rl - e.ll == ObjSize(s, v).width && e.bt - e.tt == ObjSize(s, v).height
    ensures e.cl - e.ll == e.rl - e.cl && e.ct - e.tt == e.bt - e.ct
    ensures WellFormed(s) ==> e.ll <= e.cl <= e.rl && e.tt <= e.ct <= e.bt
  {
    var size := ObjSize(s, v);
    var ll := s.cx - size.width / 2.0;
    Edges(ll, s.cx, ll + size.width, s.cy - size.height / 2.0, s.cy, s.cy + size.height / 2.0)
  }

  /** The side of a shape a feature belongs to: top/left, centre, bottom/right. */
  datatype Side = Start | Center | End

  /**
   * Which coordinate is compared. Horizontal compares y features (top,
   * centre, bottom) and yields horizontal guide lines; Vertical compares x
   * features (left, centre, right) and yields vertical ones.
   */
  datatype Axis = Horizontal | Vertical

  /** The sides in the order the source's `for ... in` loops visit them. */
  function SideAt(k: nat): Side {
    if k == 0 then Start else if k == 1 then Center else End
  }

  function SideIndex(s: Side): (k: nat)
    ensures k < 3 && SideAt(k) == s
  {
    match s
    case Start => 0
    case Center => 1
    case End => 2
  }

  /** getObjInfo's objNeedDrawHorizontalSide / objNeedDrawVerticalSide records. */
  function Feature(e: Edges, axis: Axis, side: Side): real {
    match axis
    case Horizontal => (match side case Start => e.tt case Center => e.ct case End => e.bt)
    case Vertical => (match side case Start => e.ll case Center => e.cl case End => e.rl)
  }

  /** setPositionByOrigin(point, "center", "center"): only the centre changes. */
  function MoveCenter(s: Shape, x: real, y: real): Shape {
    s.(cx := x, cy := y)
  }

  /** Moving a shape's centre carries every feature along and keeps its size. */
  lemma MoveCenterShiftsFeatures(s: Shape, v: Viewport, x: real, y: real, side: Side)
    requires ValidViewport(v)
    ensures ObjSize(MoveCenter(s, x, y), v) == ObjSize(s, v)
    ensures Feature(RelativePosition(MoveCenter(s, x, y), v), Vertical, side)
         == Feature(RelativePosition(s, v), Vertical, side) + (x - s.cx)
    ensures Feature(RelativePosition(MoveCenter(s, x, y), v), Horizontal, side)
         == Feature(RelativePosition(s, v), Horizontal, side) + (y - s.cy)
  {
  }
}
