/**
 * AlignGuidelines: the alignment engine as a stateful object. While a shape
 * is dragged it filters the canvas objects, compares the dragged shape's
 * sides with every other candidate's, records guide lines, snaps the dragged
 * shape to the nearest candidate per axis, and on every render draws the
 * recorded lines that lie on the dragged shape's current sides.
 */
module Aligning {
  import opened Wrappers
  import opened Numeric
  import opened Geometry
  import opened Guides
  import opened Matcher
  import opened Resolver

  /** One { key, value } entry of the ignore and pick lists. */
  datatype TypeEntry = TypeEntry(key: string, value: string)

  /** The shape carries property `key` with value `value`. */
  predicate HasType(s: Shape, item: TypeEntry) {
    item.key in s.props && s.props[item.key] == item.value
  }

  predicate HasAnyType(s: Shape, items: seq<TypeEntry>) {
    exists k :: 0 <= k < |items| && HasType(s, items[k])
  }

  /**
   * Whether a canvas object takes part in matching: a non-empty ignore list
   * decides alone (the pick list is then not consulted), otherwise a
   * non-empty pick list decides, otherwise every object takes part.
   */
  predicate Kept(s: Shape, ignore: seq<TypeEntry>, pick: seq<TypeEntry>) {
    if |ignore| > 0 then !HasAnyType(s, ignore)
    else if |pick| > 0 then HasAnyType(s, pick)
    else true
  }

  /** The filter of the object:moving handler, keeping canvas order. */
  function FilterObjects(objs: seq<Shape>, ignore: seq<TypeEntry>, pick: seq<TypeEntry>): (r: seq<Shape>)
    ensures |r| <= |objs|
    ensures forall s :: s in r <==> s in objs && Kept(s, ignore, pick)
  {
    if objs == [] then []
    else (if Kept(objs[0], ignore, pick) then [objs[0]] else []) + FilterObjects(objs[1..], ignore, pick)
  }

  /**
   * The filter keeps canvas order: filtering a list split in two is
   * filtering each part, the earlier part first.
   */
  lemma {:induction false} FilterObjectsKeepsOrder(a: seq<Shape>, b: seq<Shape>, ignore: seq<TypeEntry>, pick: seq<TypeEntry>)
    ensures FilterObjects(a + b, ignore, pick) == FilterObjects(a, ignore, pick) + FilterObjects(b, ignore, pick)
  {
    if a == [] {
      assert a + b == b;
    } else {
      assert (a + b)[1..] == a[1..] + b;
      FilterObjectsKeepsOrder(a[1..], b, ignore, pick);
    }
  }

  /** With a non-empty ignore list the pick list has no effect, and exactly the unlisted objects stay. */
  lemma {:induction false} IgnoreListWins(objs: seq<Shape>, ignore: seq<TypeEntry>, pick: seq<TypeEntry>, pick': seq<TypeEntry>)
    requires |ignore| > 0
    ensures FilterObjects(objs, ignore, pick) == FilterObjects(objs, ignore, pick')
    ensures forall s :: s in FilterObjects(objs, ignore, pick) <==>
                          s in objs && forall k :: 0 <= k < |ignore| ==> !HasType(s, ignore[k])
  {
    if objs != [] {
      IgnoreListWins(objs[1..], ignore, pick, pick');
    }
  }

  /** With no ignore list, a pick list keeps exactly the objects carrying one of its entries. */
  lemma PickListSelects(objs: seq<Shape>, pick: seq<TypeEntry>)
    requires |pick| > 0
    ensures forall s :: s in FilterObjects(objs, [], pick) <==>
                          s in objs && exists k :: 0 <= k < |pick| && HasType(s, pick[k])
  {
  }

  /** The pick-list entry of the packaged demo and of the plain JavaScript page: myType is "box". */
  const BOX: TypeEntry := TypeEntry("myType", "box")

  /** Picking by BOX keeps exactly the canvas objects whose myType is "box". */
  lemma BoxesOnly(objs: seq<Shape>)
    ensures forall s :: s in FilterObjects(objs, [], [BOX]) <==>
                          s in objs && "myType" in s.props && s.props["myType"] == "box"
  {
    var pick := [BOX];
    PickListSelects(objs, pick);
    forall s
      ensures s in FilterObjects(objs, [], pick) <==> s in objs && "myType" in s.props && s.props["myType"] == "box"
    {
      assert HasType(s, pick[0]) <==> "myType" in s.props && s.props["myType"] == "box";
      assert (exists k :: 0 <= k < |pick| && HasType(s, pick[k])) <==> HasType(s, pick[0]);
    }
  }

  /** With both lists empty every canvas object is a candidate, in canvas order. */
  lemma {:induction false} EmptyListsKeepAll(objs: seq<Shape>)
    ensures FilterObjects(objs, [], []) == objs
  {
    if objs != [] {
      EmptyListsKeepAll(objs[1..]);
    }
  }

  /**
   * Where the dragged shape ends up after one traversal that recorded the
   * snap candidates xs and ys: nowhere new when both are empty, else its
   * centre goes to the nearest candidate of each axis (an axis without
   * candidates keeps its coordinate). Distances are measured from the
   * centre features activeObjCL and activeObjCT, which are the centre point.
   */
  function Snapped(active: Shape, xs: seq<real>, ys: seq<real>, otherwise: Shape): Shape {
    if |xs| > 0 || |ys| > 0 then MoveCenter(active, SortPoints(xs, active.cx), SortPoints(ys, active.cy)) else otherwise
  }

  /**
   * Snapping after every candidate, as the loop does, ends where snapping
   * once to the candidates collected so far does: the position is only
   * kept while both lists are still empty.
   */
  lemma SnappedExtends(active: Shape, xs0: seq<real>, ys0: seq<real>, xs: seq<real>, ys: seq<real>)
    ensures Snapped(active, xs0 + xs, ys0 + ys, Snapped(active, xs0, ys0, active))
         == Snapped(active, xs0 + xs, ys0 + ys, active)
  {
  }

  /** The four lists a traversal fills: the guide lines of both axes and the snap candidates. */
  datatype Records = Records(horizontal: seq<HorizontalLine>, vertical: seq<VerticalLine>, xs: seq<real>, ys: seq<real>)

  const NO_RECORDS := Records([], [], [], [])

  /** Records of one part of the traversal followed by those of the next. */
  function Join(a: Records, b: Records): Records {
    Records(a.horizontal + b.horizontal, a.vertical + b.vertical, a.xs + b.xs, a.ys + b.ys)
  }

  /** What the loop body records for one candidate with features e. */
  function CandidateRecords(act: Edges, size: Size, e: Edges, margin: real): Records {
    var hh := HitsWith(e, MatchedPairs(Horizontal, act, e, margin));
    var vh := HitsWith(e, MatchedPairs(Vertical, act, e, margin));
    Records(HorizontalLinesOf(act, hh), VerticalLinesOf(act, vh), SnapsOf(Vertical, size, vh), SnapsOf(Horizontal, size, hh))
  }

  /** One visit of the loop: the dragged shape itself records nothing. */
  function Visit(d: Drag, obj: Shape): Records
    requires ValidDrag(d)
  {
    if obj.id == d.active.id then NO_RECORDS
    else CandidateRecords(ActiveEdges(d), ActiveSize(d), RelativePosition(obj, d.v), d.margin)
  }

  /** The records of a whole traversal, the last candidate visited first. */
  function Traversal(d: Drag, objs: seq<Shape>): Records
    requires ValidDrag(d)
  {
    if objs == [] then NO_RECORDS else Join(Traversal(d, objs[1..]), Visit(d, objs[0]))
  }

  /**
   * The traversal records exactly one guide line and one snap candidate per
   * match of Matcher.TraverseHits, in the same order.
   */
  lemma {:induction false} TraversalRecordsHits(d: Drag, objs: seq<Shape>)
    requires ValidDrag(d)
    ensures var hh := TraverseHits(d, Horizontal, objs);
            var vh := TraverseHits(d, Vertical, objs);
            Traversal(d, objs) == Records(HorizontalLinesOf(ActiveEdges(d), hh), VerticalLinesOf(ActiveEdges(d), vh),
                                          SnapsOf(Vertical, ActiveSize(d), vh), SnapsOf(Horizontal, ActiveSize(d), hh))
  {
    if objs != [] {
      TraversalRecordsHits(d, objs[1..]);
      var hRest := TraverseHits(d, Horizontal, objs[1..]);
      var vRest := TraverseHits(d, Vertical, objs[1..]);
      RecordsDistribute(ActiveEdges(d), Horizontal, ActiveSize(d), hRest, ObjectHits(d, Horizontal, objs[0]));
      RecordsDistribute(ActiveEdges(d), Vertical, ActiveSize(d), vRest, ObjectHits(d, Vertical, objs[0]));
      if objs[0].id == d.active.id {
        assert hRest + [] == hRest && vRest + [] == vRest;
      }
    }
  }

  /** Visiting candidate i after the ones behind it appends its records to theirs. */
  lemma TraversalStep(d: Drag, objs: seq<Shape>, i: nat)
    requires ValidDrag(d) && i < |objs|
    ensures Traversal(d, objs[i..]) == Join(Traversal(d, objs[i + 1..]), Visit(d, objs[i]))
  {
    assert objs[i..][1..] == objs[i + 1..];
  }

  /** The position a whole drag step leaves the dragged shape in. */
  function StepResult(d: Drag, objs: seq<Shape>): Shape
    requires ValidDrag(d)
  {
    var r := Traversal(d, objs);
    Snapped(d.active, r.xs, r.ys, d.active)
  }

  /**
   * Each axis snaps independently: the new centre x is the recorded x
   * candidate nearest the old one (or the old one when there is none), the
   * same for y, and size and identity do not change.
   */
  lemma SnapsEachAxisToNearest(active: Shape, xs: seq<real>, ys: seq<real>)
    ensures var r := Snapped(active, xs, ys, active);
            r == MoveCenter(active, r.cx, r.cy)
            && (|xs| == 0 ==> r.cx == active.cx)
            && (|xs| > 0 ==> r.cx in xs && forall x :: x in xs ==> AbsReal(active.cx - r.cx) <= AbsReal(active.cx - x))
            && (|ys| == 0 ==> r.cy == active.cy)
            && (|ys| > 0 ==> r.cy in ys && forall y :: y in ys ==> AbsReal(active.cy - r.cy) <= AbsReal(active.cy - y))
  {
    SortPointsNearest(xs, active.cx);
    SortPointsNearest(ys, active.cy);
  }

  /**
   * A recorded snap candidate of either axis, applied on its own axis,
   * puts one side of the dragged shape on an in-range side of another
   * candidate.
   */
  lemma RecordedSnapAligns(d: Drag, axis: Axis, objs: seq<Shape>, c: real)
    requires ValidDrag(d)
    requires c in (if axis == Horizontal then Traversal(d, objs).ys else Traversal(d, objs).xs)
    ensures var moved := if axis == Horizontal then MoveCenter(d.active, d.active.cx, c) else MoveCenter(d.active, c, d.active.cy);
            exists j, p: Pair :: 0 <= j < |objs| && objs[j].id != d.active.id
                                 && PairInRange(axis, ActiveEdges(d), RelativePosition(objs[j], d.v), d.margin, p)
                                 && Feature(RelativePosition(moved, d.v), axis, p.0) == Feature(RelativePosition(objs[j], d.v), axis, p.1)
  {
    TraversalRecordsHits(d, objs);
    var snaps := SnapsOf(axis, ActiveSize(d), TraverseHits(d, axis, objs));
    var k :| 0 <= k < |snaps| && snaps[k] == c;
    SnapCandidateAligns(d, axis, objs, k);
  }

  /**
   * When the traversal recorded an x snap candidate, the step leaves one of
   * the dragged shape's x sides exactly on an x side of another candidate
   * that was in range before the move.
   */
  lemma StepAlignsVerticalSide(d: Drag, objs: seq<Shape>)
    requires ValidDrag(d)
    requires |Traversal(d, objs).xs| > 0
    ensures exists j, p: Pair :: 0 <= j < |objs| && objs[j].id != d.active.id
                                 && PairInRange(Vertical, ActiveEdges(d), RelativePosition(objs[j], d.v), d.margin, p)
                                 && Feature(RelativePosition(StepResult(d, objs), d.v), Vertical, p.0)
                                    == Feature(RelativePosition(objs[j], d.v), Vertical, p.1)
  {
    var r := StepResult(d, objs);
    SortPointsNearest(Traversal(d, objs).xs, d.active.cx);
    RecordedSnapAligns(d, Vertical, objs, r.cx);
    var j, p: Pair :| 0 <= j < |objs| && objs[j].id != d.active.id
                      && PairInRange(Vertical, ActiveEdges(d), RelativePosition(objs[j], d.v), d.margin, p)
                      && Feature(RelativePosition(MoveCenter(d.active, r.cx, d.active.cy), d.v), Vertical, p.0)
                         == Feature(RelativePosition(objs[j], d.v), Vertical, p.1);
    MoveCenterShiftsFeatures(d.active, d.v, r.cx, d.active.cy, p.0);
    MoveCenterShiftsFeatures(d.active, d.v, r.cx, r.cy, p.0);
  }

  /** The horizontal counterpart: one of the dragged shape's y sides lands on a candidate's y side. */
  lemma StepAlignsHorizontalSide(d: Drag, objs: seq<Shape>)
    requires ValidDrag(d)
    requires |Traversal(d, objs).ys| > 0
    ensures exists j, p: Pair :: 0 <= j < |objs| && objs[j].id != d.active.id
                                 && PairInRange(Horizontal, ActiveEdges(d), RelativePosition(objs[j], d.v), d.margin, p)
                                 && Feature(RelativePosition(StepResult(d, objs), d.v), Horizontal, p.0)
                                    == Feature(RelativePosition(objs[j], d.v), Horizontal, p.1)
  {
    var r := StepResult(d, objs);
    SortPointsNearest(Traversal(d, objs).ys, d.active.cy);
    RecordedSnapAligns(d, Horizontal, objs, r.cy);
    var j, p: Pair :| 0 <= j < |objs| && objs[j].id != d.active.id
                      && PairInRange(Horizontal, ActiveEdges(d), RelativePosition(objs[j], d.v), d.margin, p)
                      && Feature(RelativePosition(MoveCenter(d.active, d.active.cx, r.cy), d.v), Horizontal, p.0)
                         == Feature(RelativePosition(objs[j], d.v), Horizontal, p.1);
    MoveCenterShiftsFeatures(d.active, d.v, d.active.cx, r.cy, p.0);
    MoveCenterShiftsFeatures(d.active, d.v, r.cx, r.cy, p.0);
  }

  /**
   * drawVerticalLine: a recorded line is drawn only when its x is exactly
   * one of the dragged shape's current x sides, and then from its smaller y
   * to its larger one.
   */
  function DrawVerticalLine(e: Edges, coords: VerticalLine): (r: Option<Segment>)
    ensures r.Some? <==> coords.x == e.ll || coords.x == e.cl || coords.x == e.rl
    ensures r.Some? ==> r.value.x1 == r.value.x2 == coords.x && r.value.y1 <= r.value.y2
                        && multiset{r.value.y1, r.value.y2} == multiset{coords.y1, coords.y2}
  {
    if e.ll != coords.x && e.cl != coords.x && e.rl != coords.x then None
    else Some(Segment(coords.x, Min(coords.y1, coords.y2), coords.x, Max(coords.y1, coords.y2)))
  }

  /** drawHorizontalLine: drawn only on one of the dragged shape's current y sides, left to right. */
  function DrawHorizontalLine(e: Edges, coords: HorizontalLine): (r: Option<Segment>)
    ensures r.Some? <==> coords.y == e.tt || coords.y == e.ct || coords.y == e.bt
    ensures r.Some? ==> r.value.y1 == r.value.y2 == coords.y && r.value.x1 <= r.value.x2
                        && multiset{r.value.x1, r.value.x2} == multiset{coords.x1, coords.x2}
  {
    if e.tt != coords.y && e.ct != coords.y && e.bt != coords.y then None
    else Some(Segment(Min(coords.x1, coords.x2), coords.y, Max(coords.x1, coords.x2), coords.y))
  }

  function Drawn(o: Option<Segment>): seq<Segment> {
    if o.Some? then [o.value] else []
  }

  /** The segments the after:render loop draws for the vertical lines, last recorded first. */
  function RenderedVertical(e: Edges, lines: seq<VerticalLine>): seq<Segment> {
    if lines == [] then [] else RenderedVertical(e, lines[1..]) + Drawn(DrawVerticalLine(e, lines[0]))
  }

  /** The segments the after:render loop draws for the horizontal lines, last recorded first. */
  function RenderedHorizontal(e: Edges, lines: seq<HorizontalLine>): seq<Segment> {
    if lines == [] then [] else RenderedHorizontal(e, lines[1..]) + Drawn(DrawHorizontalLine(e, lines[0]))
  }

  /** Every drawn vertical segment is a recorded line standing on a current x side of the dragged shape. */
  lemma {:induction false} RenderedVerticalOnActiveSides(e: Edges, lines: seq<VerticalLine>)
    ensures forall s :: s in RenderedVertical(e, lines) ==>
              s.x1 == s.x2 && (s.x1 == e.ll || s.x1 == e.cl || s.x1 == e.rl) && s.y1 <= s.y2
              && exists k :: 0 <= k < |lines| && lines[k].x == s.x1 && multiset{s.y1, s.y2} == multiset{lines[k].y1, lines[k].y2}
  {
    if lines != [] {
      RenderedVerticalOnActiveSides(e, lines[1..]);
      forall s | s in RenderedVertical(e, lines)
        ensures exists k :: 0 <= k < |lines| && lines[k].x == s.x1 && multiset{s.y1, s.y2} == multiset{lines[k].y1, lines[k].y2}
      {
        if s in RenderedVertical(e, lines[1..]) {
          var k :| 0 <= k < |lines[1..]| && lines[1..][k].x == s.x1 && multiset{s.y1, s.y2} == multiset{lines[1..][k].y1, lines[1..][k].y2};
          assert lines[k + 1] == lines[1..][k];
        } else {
          assert lines[0].x == s.x1;
        }
      }
    }
  }

  /** Every drawn horizontal segment is a recorded line standing on a current y side of the dragged shape. */
  lemma {:induction false} RenderedHorizontalOnActiveSides(e: Edges, lines: seq<HorizontalLine>)
    ensures forall s :: s in RenderedHorizontal(e, lines) ==>
              s.y1 == s.y2 && (s.y1 == e.tt || s.y1 == e.ct || s.y1 == e.bt) && s.x1 <= s.x2
              && exists k :: 0 <= k < |lines| && lines[k].y == s.y1 && multiset{s.x1, s.x2} == multiset{lines[k].x1, lines[k].x2}
  {
    if lines != [] {
      RenderedHorizontalOnActiveSides(e, lines[1..]);
      forall s | s in RenderedHorizontal(e, lines)
        ensures exists k :: 0 <= k < |lines| && lines[k].y == s.y1 && multiset{s.x1, s.x2} == multiset{lines[k].x1, lines[k].x2}
      {
        if s in RenderedHorizontal(e, lines[1..]) {
          var k :| 0 <= k < |lines[1..]| && lines[1..][k].y == s.y1 && multiset{s.x1, s.x2} == multiset{lines[1..][k].x1, lines[1..][k].x2};
          assert lines[k + 1] == lines[1..][k];
        } else {
          assert lines[0].y == s.y1;
        }
      }
    }
  }

  /** A recorded line whose x is a side of the dragged shape is drawn. */
  lemma {:induction false} LineOnActiveSideIsRendered(e: Edges, lines: seq<VerticalLine>, k: nat)
    requires k < |lines|
    requires lines[k].x == e.ll || lines[k].x == e.cl || lines[k].x == e.rl
    ensures DrawVerticalLine(e, lines[k]).value in RenderedVertical(e, lines)
  {
    if k > 0 {
      assert lines[1..][k - 1] == lines[k];
      LineOnActiveSideIsRendered(e, lines[1..], k - 1);
    }
  }

  /** A recorded line whose y is a side of the dragged shape is drawn. */
  lemma {:induction false} HorizontalLineOnActiveSideIsRendered(e: Edges, lines: seq<HorizontalLine>, k: nat)
    requires k < |lines|
    requires lines[k].y == e.tt || lines[k].y == e.ct || lines[k].y == e.bt
    ensures DrawHorizontalLine(e, lines[k]).value in RenderedHorizontal(e, lines)
  {
    if k > 0 {
      assert lines[1..][k - 1] == lines[k];
      HorizontalLineOnActiveSideIsRendered(e, lines[1..], k - 1);
    }
  }

  /**
   * The body of traversAllObjects for one candidate with features e: the
   * guide lines and snap candidates of both axes, one of each for every
   * pair of sides in range, in the order the nested loops visit the pairs.
   */
  method MatchCandidate(ghost d: Drag, act: Edges, size: Size, vpt: Viewport, margin: real, obj: Shape)
    returns (hLines: seq<HorizontalLine>, ys: seq<real>, vLines: seq<VerticalLine>, xs: seq<real>)
    requires ValidDrag(d) && vpt == d.v && margin == d.margin
    requires act == ActiveEdges(d) && size == ActiveSize(d) && obj.id != d.active.id
    ensures Records(hLines, vLines, xs, ys) == Visit(d, obj)
  {
    var e := RelativePosition(obj, vpt);
    var hPairs := MatchPairs(Horizontal, act, e, margin);
    var hHits := HitsWith(e, hPairs);
    hLines := HorizontalLinesOf(act, hHits);
    ys := SnapsOf(Horizontal, size, hHits);
    var vPairs := MatchPairs(Vertical, act, e, margin);
    var vHits := HitsWith(e, vPairs);
    vLines := VerticalLinesOf(act, vHits);
    xs := SnapsOf(Vertical, size, vHits);
  }

  /**
   * The loop of traversAllObjects: visit the candidates from last to first,
   * skip the dragged shape, record a guide line and a snap candidate for
   * every pair of sides in range, and after each candidate that leaves
   * either snap list non-empty centre the dragged shape on the nearest
   * candidate of each axis, measured from where the traversal found it.
   */
  method TraverseObjects(activeObject: Shape, canvasObjects: seq<Shape>, vpt: Viewport, margin: real)
    returns (hLines: seq<HorizontalLine>, vLines: seq<VerticalLine>, moved: Shape)
    requires ValidViewport(vpt)
    ensures var r := Traversal(Drag(activeObject, vpt, margin), canvasObjects);
            hLines == r.horizontal && vLines == r.vertical && moved == Snapped(activeObject, r.xs, r.ys, activeObject)
  {
    ghost var d := Drag(activeObject, vpt, margin);
    var act := RelativePosition(activeObject, vpt);
    var size := ObjSize(activeObject, vpt);
    var snapXPoints: seq<real> := [];
    var snapYPoints: seq<real> := [];
    hLines, vLines, moved := [], [], activeObject;
    var i := |canvasObjects|;
    while i > 0
      invariant 0 <= i <= |canvasObjects|
      invariant Records(hLines, vLines, snapXPoints, snapYPoints) == Traversal(d, canvasObjects[i..])
      invariant moved == Snapped(activeObject, snapXPoints, snapYPoints, activeObject)
    {
      i := i - 1;
      TraversalStep(d, canvasObjects, i);
      var obj := canvasObjects[i];
      if obj.id == activeObject.id {
        continue;
      }
      var h, ys, v, xs := MatchCandidate(d, act, size, vpt, margin, obj);
      SnappedExtends(activeObject, snapXPoints, snapYPoints, xs, ys);
      hLines := hLines + h;
      vLines := vLines + v;
      snapYPoints := snapYPoints + ys;
      snapXPoints := snapXPoints + xs;
      if |snapXPoints| > 0 || |snapYPoints| > 0 {
        moved := MoveCenter(activeObject, SortPoints(snapXPoints, act.cl), SortPoints(snapYPoints, act.ct));
      }
    }
    assert canvasObjects[0..] == canvasObjects;
  }

  /** The alignment engine attached to one canvas. */
  class AlignGuidelines {
    var aligningLineMargin: real
    var ignoreObjTypes: seq<TypeEntry>
    var pickObjTypes: seq<TypeEntry>
    var viewportTransform: Viewport
    var verticalLines: seq<VerticalLine>
    var horizontalLines: seq<HorizontalLine>
    var activeObj: Shape

    ghost predicate Valid()
      reads this
    {
      ValidViewport(viewportTransform)
    }

    /**
     * A missing or zero line margin falls back to 4; missing lists are
     * empty. The viewport starts as the identity, and the active object as
     * a blank shape standing for the freshly constructed placeholder.
     */
    constructor (lineMargin: Option<real>, ignoreObjTypes: seq<TypeEntry>, pickObjTypes: seq<TypeEntry>)
      ensures Valid()
      ensures aligningLineMargin == if lineMargin.Some? && lineMargin.value != 0.0 then lineMargin.value else 4.0
      ensures this.ignoreObjTypes == ignoreObjTypes && this.pickObjTypes == pickObjTypes
      ensures viewportTransform == IDENTITY && verticalLines == [] && horizontalLines == []
    {
      aligningLineMargin := if lineMargin.Some? && lineMargin.value != 0.0 then lineMargin.value else 4.0;
      this.ignoreObjTypes := ignoreObjTypes;
      this.pickObjTypes := pickObjTypes;
      viewportTransform := IDENTITY;
      verticalLines := [];
      horizontalLines := [];
      activeObj := Shape(0, 0.0, 0.0, 0.0, 0.0, map[]);
    }

    /** clearLinesMeta: forget every recorded guide line. */
    method ClearLinesMeta()
      modifies this`verticalLines, this`horizontalLines
      ensures verticalLines == [] && horizontalLines == []
    {
      verticalLines := [];
      horizontalLines := [];
    }

    /** mouse:down: forget the lines and take the canvas's current viewport. */
    method MouseDown(canvasViewport: Viewport)
      requires ValidViewport(canvasViewport)
      modifies this`verticalLines, this`horizontalLines, this`viewportTransform
      ensures Valid()
      ensures verticalLines == [] && horizontalLines == [] && viewportTransform == canvasViewport
    {
      ClearLinesMeta();
      viewportTransform := canvasViewport;
    }

    /** mouse:up: forget the lines (the re-render that follows then draws none). */
    method MouseUp()
      modifies this`verticalLines, this`horizontalLines
      ensures verticalLines == [] && horizontalLines == []
    {
      ClearLinesMeta();
    }

    /** mouse:wheel: forget the lines. */
    method MouseWheel()
      modifies this`verticalLines, this`horizontalLines
      ensures verticalLines == [] && horizontalLines == []
    {
      ClearLinesMeta();
    }

    /**
     * object:moving: forget the lines, remember the dragged shape, filter
     * the canvas objects and, while a transform is in progress, traverse
     * them. The recorded lines and the new position are those of the
     * specification functions of Matcher.
     */
    method ObjectMoving(activeObject: Shape, canvasObjects: seq<Shape>, hasCurrentTransform: bool)
      requires Valid()
      modifies this`verticalLines, this`horizontalLines, this`activeObj
      ensures !hasCurrentTransform ==> verticalLines == [] && horizontalLines == [] && activeObj == activeObject
      ensures hasCurrentTransform ==>
                var d := Drag(activeObject, viewportTransform, aligningLineMargin);
                var objs := FilterObjects(canvasObjects, ignoreObjTypes, pickObjTypes);
                horizontalLines == Traversal(d, objs).horizontal && verticalLines == Traversal(d, objs).vertical
                && activeObj == StepResult(d, objs)
    {
      ClearLinesMeta();
      activeObj := activeObject;
      var objs := FilterObjects(canvasObjects, ignoreObjTypes, pickObjTypes);
      if !hasCurrentTransform {
        return;
      }
      TraversAllObjects(activeObject, objs);
    }

    /**
     * traversAllObjects: the loop's guide lines are pushed onto the two
     * line lists and the dragged shape ends where the loop leaves it.
     */
    method TraversAllObjects(activeObject: Shape, canvasObjects: seq<Shape>)
      requires Valid() && activeObj == activeObject
      modifies this`verticalLines, this`horizontalLines, this`activeObj
      ensures var d := Drag(activeObject, viewportTransform, aligningLineMargin);
              horizontalLines == old(horizontalLines) + Traversal(d, canvasObjects).horizontal
              && verticalLines == old(verticalLines) + Traversal(d, canvasObjects).vertical
              && activeObj == Snapped(activeObject, Traversal(d, canvasObjects).xs,
                                      Traversal(d, canvasObjects).ys, activeObject)
    {
      var hLines, vLines, moved := TraverseObjects(activeObject, canvasObjects, viewportTransform, aligningLineMargin);
      horizontalLines := horizontalLines + hLines;
      verticalLines := verticalLines + vLines;
      activeObj := moved;
    }

    /**
     * after:render: draw the recorded vertical lines, then the horizontal
     * ones, each list from its last entry to its first, against the dragged
     * shape's current sides.
     */
    method AfterRender() returns (drawn: seq<Segment>)
      requires Valid()
      ensures var e := RelativePosition(activeObj, viewportTransform);
              drawn == RenderedVertical(e, verticalLines) + RenderedHorizontal(e, horizontalLines)
    {
      var e := RelativePosition(activeObj, viewportTransform);
      var vertical: seq<Segment> := [];
      var i := |verticalLines|;
      while i > 0
        invariant 0 <= i <= |verticalLines|
        invariant vertical == RenderedVertical(e, verticalLines[i..])
      {
        i := i - 1;
        assert verticalLines[i..][1..] == verticalLines[i + 1..];
        vertical := vertical + Drawn(DrawVerticalLine(e, verticalLines[i]));
      }
      assert verticalLines[0..] == verticalLines;
      var horizontal: seq<Segment> := [];
      i := |horizontalLines|;
      while i > 0
        invariant 0 <= i <= |horizontalLines|
        invariant horizontal == RenderedHorizontal(e, horizontalLines[i..])
      {
        i := i - 1;
        assert horizontalLines[i..][1..] == horizontalLines[i + 1..];
        horizontal := horizontal + Drawn(DrawHorizontalLine(e, horizontalLines[i]));
      }
      assert horizontalLines[0..] == horizontalLines;
      drawn := vertical + horizontal;
    }
  }
}
