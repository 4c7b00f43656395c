/**
 * The matcher of AlignGuidelines.traversAllObjects: which (dragged side,
 * candidate side) pairs line up, the guide line and snap candidate each such
 * pair produces, and the whole traversal of the candidate list, as
 * specification functions with the properties the engine relies on.
 */
module Matcher {
  import opened Numeric
  import opened Geometry
  import opened Guides

  /** (side of the dragged shape, side of the candidate shape). */
  type Pair = (Side, Side)

  const SIDE_COUNT: nat := 3

  /** Position of a pair in the nested loops' visiting order. */
  function Rank(p: Pair): nat {
    3 * SideIndex(p.0) + SideIndex(p.1)
  }

  predicate PairInRange(axis: Axis, act: Edges, obj: Edges, margin: real, p: Pair) {
    IsInRange(Feature(act, axis, p.0), Feature(obj, axis, p.1), margin)
  }

  /** The in-range pairs (SideAt(a), SideAt(k)) with k < o, in visiting order. */
  function RowPairs(axis: Axis, act: Edges, obj: Edges, margin: real, a: nat, o: nat): seq<Pair>
    requires a < 3 && o <= 3
  {
    if o == 0 then []
    else
      var p := (SideAt(a), SideAt(o - 1));
      RowPairs(axis, act, obj, margin, a, o - 1) + (if PairInRange(axis, act, obj, margin, p) then [p] else [])
  }

  /** The in-range pairs whose dragged side comes before SideAt(a), in visiting order. */
  function PairsUpTo(axis: Axis, act: Edges, obj: Edges, margin: real, a: nat): seq<Pair>
    requires a <= 3
  {
    if a == 0 then [] else PairsUpTo(axis, act, obj, margin, a - 1) + RowPairs(axis, act, obj, margin, a - 1, SIDE_COUNT)
  }

  /** A row holds exactly the in-range pairs of its dragged side, candidate sides in order. */
  lemma {:induction false} RowPairsExact(axis: Axis, act: Edges, obj: Edges, margin: real, a: nat, o: nat)
    requires a < 3 && o <= 3
    ensures var r := RowPairs(axis, act, obj, margin, a, o);
            (forall k :: 0 <= k < |r| ==> r[k].0 == SideAt(a) && SideIndex(r[k].1) < o)
            && (forall i, j :: 0 <= i < j < |r| ==> SideIndex(r[i].1) < SideIndex(r[j].1))
            && (forall p: Pair :: p in r <==> p.0 == SideAt(a) && SideIndex(p.1) < o && PairInRange(axis, act, obj, margin, p))
  {
    if o > 0 {
      RowPairsExact(axis, act, obj, margin, a, o - 1);
      var p := (SideAt(a), SideAt(o - 1));
      assert SideIndex(p.1) == o - 1;
    }
  }

  /** The rows before SideAt(a) hold exactly their in-range pairs, in visiting order. */
  lemma {:induction false} PairsUpToExact(axis: Axis, act: Edges, obj: Edges, margin: real, a: nat)
    requires a <= 3
    ensures var r := PairsUpTo(axis, act, obj, margin, a);
            (forall k :: 0 <= k < |r| ==> SideIndex(r[k].0) < a)
            && (forall i, j :: 0 <= i < j < |r| ==> Rank(r[i]) < Rank(r[j]))
            && (forall p: Pair :: p in r <==> SideIndex(p.0) < a && PairInRange(axis, act, obj, margin, p))
  {
    if a > 0 {
      PairsUpToExact(axis, act, obj, margin, a - 1);
      RowPairsExact(axis, act, obj, margin, a - 1, SIDE_COUNT);
      var left := PairsUpTo(axis, act, obj, margin, a - 1);
      var row := RowPairs(axis, act, obj, margin, a - 1, SIDE_COUNT);
      var r := left + row;
      forall i, j | 0 <= i < j < |r|
        ensures Rank(r[i]) < Rank(r[j])
      {
        if j < |left| {
          assert r[i] == left[i] && r[j] == left[j];
        } else if i >= |left| {
          assert r[i] == row[i - |left|] && r[j] == row[j - |left|];
        } else {
          assert r[i] == left[i] && r[j] == row[j - |left|];
          assert Rank(r[j]) == 3 * (a - 1) + SideIndex(r[j].1);
        }
      }
    }
  }

  /**
   * Every pair of sides that lines up, and nothing else, in the order the
   * two nested `for ... in` loops visit them.
   */
  function MatchedPairs(axis: Axis, act: Edges, obj: Edges, margin: real): (r: seq<Pair>)
    ensures forall p: Pair :: p in r <==> PairInRange(axis, act, obj, margin, p)
  {
    PairsUpToExact(axis, act, obj, margin, SIDE_COUNT);
    PairsUpTo(axis, act, obj, margin, SIDE_COUNT)
  }

  /** Each in-range pair is listed exactly once: the list is strictly increasing in visiting order. */
  lemma MatchedPairsOrdered(axis: Axis, act: Edges, obj: Edges, margin: real)
    ensures var r := MatchedPairs(axis, act, obj, margin);
            forall i, j :: 0 <= i < j < |r| ==> Rank(r[i]) < Rank(r[j]) && r[i] != r[j]
  {
    PairsUpToExact(axis, act, obj, margin, SIDE_COUNT);
  }

  /** The nested loops over the dragged shape's sides and the candidate's sides. */
  method MatchPairs(axis: Axis, act: Edges, obj: Edges, margin: real) returns (pairs: seq<Pair>)
    ensures pairs == MatchedPairs(axis, act, obj, margin)
  {
    pairs := [];
    for a := 0 to 3
      invariant pairs == PairsUpTo(axis, act, obj, margin, a)
    {
      for o := 0 to 3
        invariant pairs == PairsUpTo(axis, act, obj, margin, a) + RowPairs(axis, act, obj, margin, a, o)
      {
        if IsInRange(Feature(act, axis, SideAt(a)), Feature(obj, axis, SideAt(o)), margin) {
          pairs := pairs + [(SideAt(a), SideAt(o))];
        }
      }
    }
  }

  /**
   * The horizontal guide a pair produces: at the candidate's matched y; from
   * the dragged centre across the candidate for a centre match, across both
   * shapes otherwise.
   */
  function HorizontalGuide(act: Edges, obj: Edges, p: Pair): (g: HorizontalLine)
    ensures g.y == Feature(obj, Horizontal, p.1)
    ensures p.0 == Center ==> g.x1 <= act.cl <= g.x2 && g.x1 <= obj.ll && obj.rl <= g.x2
    ensures p.0 != Center ==> g.x1 <= act.ll && g.x1 <= obj.ll && act.rl <= g.x2 && obj.rl <= g.x2
    ensures act.ll <= act.rl ==> g.x1 <= g.x2
  {
    var y := Feature(obj, Horizontal, p.1);
    if p.0 == Center then HorizontalLine(y, Min3(act.cl, obj.ll, obj.rl), Max3(act.cl, obj.ll, obj.rl))
    else HorizontalLine(y, Min(obj.ll, act.ll), Max(obj.rl, act.rl))
  }

  /** The vertical guide a pair produces, symmetric to the horizontal one. */
  function VerticalGuide(act: Edges, obj: Edges, p: Pair): (g: VerticalLine)
    ensures g.x == Feature(obj, Vertical, p.1)
    ensures p.0 == Center ==> g.y1 <= act.ct <= g.y2 && g.y1 <= obj.tt && obj.bt <= g.y2
    ensures p.0 != Center ==> g.y1 <= act.tt && g.y1 <= obj.tt && act.bt <= g.y2 && obj.bt <= g.y2
    ensures act.tt <= act.bt ==> g.y1 <= g.y2
  {
    var x := Feature(obj, Vertical, p.1);
    if p.0 == Center then VerticalLine(x, Min(act.ct, obj.tt), Max(act.ct, obj.bt))
    else VerticalLine(x, Min(obj.tt, act.tt), Max(obj.bt, act.bt))
  }

  /**
   * The snap candidate for putting the dragged shape's `side` on `target`:
   * the centre coordinate that does it (top/left: target + half the size,
   * centre: target, bottom/right: target - half the size).
   */
  function SnapFor(axis: Axis, size: Size, side: Side, target: real): real {
    var half := (if axis == Horizontal then size.height else size.width) / 2.0;
    match side
    case Start => target + half
    case Center => target
    case End => target - half
  }

  /** Moving the shape's centre to the candidate puts the matched side exactly on the target. */
  lemma SnapAlignsSide(s: Shape, v: Viewport, axis: Axis, side: Side, target: real)
    requires ValidViewport(v)
    ensures var c := SnapFor(axis, ObjSize(s, v), side, target);
            var moved := if axis == Horizontal then MoveCenter(s, s.cx, c) else MoveCenter(s, c, s.cy);
            Feature(RelativePosition(moved, v), axis, side) == target
  {
  }

  /** One recorded match: the pair of sides and the candidate's features. */
  datatype Hit = Hit(pair: Pair, obj: Edges)

  /** What one drag step compares: the dragged shape, the viewport scale, the margin. */
  datatype Drag = Drag(active: Shape, v: Viewport, margin: real)

  predicate ValidDrag(d: Drag) {
    ValidViewport(d.v)
  }

  function ActiveEdges(d: Drag): Edges
    requires ValidDrag(d)
  {
    RelativePosition(d.active, d.v)
  }

  function ActiveSize(d: Drag): Size
    requires ValidDrag(d)
  {
    ObjSize(d.active, d.v)
  }

  function HitsWith(obj: Edges, pairs: seq<Pair>): seq<Hit> {
    seq(|pairs|, k requires 0 <= k < |pairs| => Hit(pairs[k], obj))
  }

  /** The matches against one candidate; the dragged object itself is skipped. */
  function ObjectHits(d: Drag, axis: Axis, obj: Shape): seq<Hit>
    requires ValidDrag(d)
  {
    if obj.id == d.active.id then []
    else
      var e := RelativePosition(obj, d.v);
      HitsWith(e, MatchedPairs(axis, ActiveEdges(d), e, d.margin))
  }

  /**
   * All matches of one drag step, in the order the loop `for (let i =
   * length; i--; )` meets them: the last candidate first.
   */
  function TraverseHits(d: Drag, axis: Axis, objs: seq<Shape>): seq<Hit>
    requires ValidDrag(d)
  {
    if objs == [] then [] else TraverseHits(d, axis, objs[1..]) + ObjectHits(d, axis, objs[0])
  }

  function HorizontalLinesOf(act: Edges, hits: seq<Hit>): seq<HorizontalLine> {
    seq(|hits|, k requires 0 <= k < |hits| => HorizontalGuide(act, hits[k].obj, hits[k].pair))
  }

  function VerticalLinesOf(act: Edges, hits: seq<Hit>): seq<VerticalLine> {
    seq(|hits|, k requires 0 <= k < |hits| => VerticalGuide(act, hits[k].obj, hits[k].pair))
  }

  function SnapsOf(axis: Axis, size: Size, hits: seq<Hit>): seq<real> {
    seq(|hits|, k requires 0 <= k < |hits| => SnapFor(axis, size, hits[k].pair.0, Feature(hits[k].obj, axis, hits[k].pair.1)))
  }

  /** Recording the matches of two candidates one after the other appends their records. */
  lemma RecordsDistribute(act: Edges, axis: Axis, size: Size, a: seq<Hit>, b: seq<Hit>)
    ensures HorizontalLinesOf(act, a + b) == HorizontalLinesOf(act, a) + HorizontalLinesOf(act, b)
    ensures VerticalLinesOf(act, a + b) == VerticalLinesOf(act, a) + VerticalLinesOf(act, b)
    ensures SnapsOf(axis, size, a + b) == SnapsOf(axis, size, a) + SnapsOf(axis, size, b)
  {
    assert forall k :: 0 <= k < |a + b| ==> (a + b)[k] == if k < |a| then a[k] else b[k - |a|];
  }

  /** Every recorded match is an in-range pair against a candidate other than the dragged object. */
  lemma {:induction false} TraversedHitsSound(d: Drag, axis: Axis, objs: seq<Shape>, k: nat)
    requires ValidDrag(d)
    requires k < |TraverseHits(d, axis, objs)|
    ensures var h := TraverseHits(d, axis, objs)[k];
            exists j :: 0 <= j < |objs| && objs[j].id != d.active.id && h.obj == RelativePosition(objs[j], d.v)
                        && PairInRange(axis, ActiveEdges(d), h.obj, d.margin, h.pair)
  {
    var rest := TraverseHits(d, axis, objs[1..]);
    var h := TraverseHits(d, axis, objs)[k];
    if k < |rest| {
      TraversedHitsSound(d, axis, objs[1..], k);
      var j :| 0 <= j < |objs[1..]| && objs[1..][j].id != d.active.id && h.obj == RelativePosition(objs[1..][j], d.v)
               && PairInRange(axis, ActiveEdges(d), h.obj, d.margin, h.pair);
      assert objs[j + 1] == objs[1..][j];
    } else {
      var e := RelativePosition(objs[0], d.v);
      var pairs := MatchedPairs(axis, ActiveEdges(d), e, d.margin);
      assert h == Hit(pairs[k - |rest|], e);
      assert pairs[k - |rest|] in pairs;
    }
  }

  /** Every in-range pair against every candidate other than the dragged object is recorded. */
  lemma {:induction false} TraversedHitsComplete(d: Drag, axis: Axis, objs: seq<Shape>, j: nat, p: Pair)
    requires ValidDrag(d)
    requires j < |objs| && objs[j].id != d.active.id
    requires PairInRange(axis, ActiveEdges(d), RelativePosition(objs[j], d.v), d.margin, p)
    ensures Hit(p, RelativePosition(objs[j], d.v)) in TraverseHits(d, axis, objs)
  {
    if j == 0 {
      var e := RelativePosition(objs[0], d.v);
      var pairs := MatchedPairs(axis, ActiveEdges(d), e, d.margin);
      var q :| 0 <= q < |pairs| && pairs[q] == p;
      assert HitsWith(e, pairs)[q] == Hit(p, e);
      assert Hit(p, e) in ObjectHits(d, axis, objs[0]);
    } else {
      assert objs[1..][j - 1] == objs[j];
      TraversedHitsComplete(d, axis, objs[1..], j - 1, p);
    }
  }

  /**
   * A recorded horizontal line lies on a side of some other candidate that is
   * in range of a side of the dragged shape, and runs left to right.
   */
  lemma HorizontalLineOnCandidateSide(d: Drag, objs: seq<Shape>, k: nat)
    requires ValidDrag(d) && WellFormed(d.active)
    requires k < |HorizontalLinesOf(ActiveEdges(d), TraverseHits(d, Horizontal, objs))|
    ensures var g := HorizontalLinesOf(ActiveEdges(d), TraverseHits(d, Horizontal, objs))[k];
            g.x1 <= g.x2 &&
            exists j, p: Pair :: 0 <= j < |objs| && objs[j].id != d.active.id
                                 && PairInRange(Horizontal, ActiveEdges(d), RelativePosition(objs[j], d.v), d.margin, p)
                                 && g.y == Feature(RelativePosition(objs[j], d.v), Horizontal, p.1)
  {
    var h := TraverseHits(d, Horizontal, objs)[k];
    TraversedHitsSound(d, Horizontal, objs, k);
    var j :| 0 <= j < |objs| && objs[j].id != d.active.id && h.obj == RelativePosition(objs[j], d.v)
             && PairInRange(Horizontal, ActiveEdges(d), h.obj, d.margin, h.pair);
    assert HorizontalLinesOf(ActiveEdges(d), TraverseHits(d, Horizontal, objs))[k] == HorizontalGuide(ActiveEdges(d), h.obj, h.pair);
  }

  /** The vertical counterpart: on a candidate's side, running top to bottom. */
  lemma VerticalLineOnCandidateSide(d: Drag, objs: seq<Shape>, k: nat)
    requires ValidDrag(d) && WellFormed(d.active)
    requires k < |VerticalLinesOf(ActiveEdges(d), TraverseHits(d, Vertical, objs))|
    ensures var g := VerticalLinesOf(ActiveEdges(d), TraverseHits(d, Vertical, objs))[k];
            g.y1 <= g.y2 &&
            exists j, p: Pair :: 0 <= j < |objs| && objs[j].id != d.active.id
                                 && PairInRange(Vertical, ActiveEdges(d), RelativePosition(objs[j], d.v), d.margin, p)
                                 && g.x == Feature(RelativePosition(objs[j], d.v), Vertical, p.1)
  {
    var h := TraverseHits(d, Vertical, objs)[k];
    TraversedHitsSound(d, Vertical, objs, k);
    var j :| 0 <= j < |objs| && objs[j].id != d.active.id && h.obj == RelativePosition(objs[j], d.v)
             && PairInRange(Vertical, ActiveEdges(d), h.obj, d.margin, h.pair);
    assert VerticalLinesOf(ActiveEdges(d), TraverseHits(d, Vertical, objs))[k] == VerticalGuide(ActiveEdges(d), h.obj, h.pair);
  }

  /**
   * Each match records one guide line and one snap candidate on its axis,
   * so the two lists of an axis always have the same length.
   */
  lemma LinesAndSnapsInStep(d: Drag, objs: seq<Shape>)
    requires ValidDrag(d)
    ensures |HorizontalLinesOf(ActiveEdges(d), TraverseHits(d, Horizontal, objs))|
         == |SnapsOf(Horizontal, ActiveSize(d), TraverseHits(d, Horizontal, objs))|
    ensures |VerticalLinesOf(ActiveEdges(d), TraverseHits(d, Vertical, objs))|
         == |SnapsOf(Vertical, ActiveSize(d), TraverseHits(d, Vertical, objs))|
  {
  }

  /**
   * Each snap candidate, applied to the dragged shape on its axis, puts one
   * of its sides exactly on a side of another candidate within range.
   */
  lemma SnapCandidateAligns(d: Drag, axis: Axis, objs: seq<Shape>, k: nat)
    requires ValidDrag(d)
    requires k < |SnapsOf(axis, ActiveSize(d), TraverseHits(d, axis, objs))|
    ensures var c := SnapsOf(axis, ActiveSize(d), TraverseHits(d, axis, objs))[k];
            var moved := if axis == Horizontal then MoveCenter(d.active, d.active.cx, c) else MoveCenter(d.active, c, d.active.cy);
            exists j, p: Pair :: 0 <= j < |objs| && objs[j].id != d.active.id
                                 && PairInRange(axis, ActiveEdges(d), RelativePosition(objs[j], d.v), d.margin, p)
                                 && Feature(RelativePosition(moved, d.v), axis, p.0) == Feature(RelativePosition(objs[j], d.v), axis, p.1)
  {
    var h := TraverseHits(d, axis, objs)[k];
    TraversedHitsSound(d, axis, objs, k);
    var j :| 0 <= j < |objs| && objs[j].id != d.active.id && h.obj == RelativePosition(objs[j], d.v)
             && PairInRange(axis, ActiveEdges(d), h.obj, d.margin, h.pair);
    SnapAlignsSide(d.active, d.v, axis, h.pair.0, Feature(h.obj, axis, h.pair.1));
  }
}
