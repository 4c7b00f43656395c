/**
 * The aligning guidelines of the plain JavaScript demo page. Only objects
 * whose myType is "box" take part. Each candidate is tested against six
 * rules, one per side of each axis, each comparing a side of the candidate
 * with the same side of the dragged shape; a rule that fires records a
 * guide line reaching five pixels past both shapes and re-centres the
 * dragged shape at the rule's target on its axis and at its pre-drag
 * coordinate on the other axis.
 */
module JsGuidelines {
  import opened Numeric
  import opened Geometry
  import opened Guides
  import opened Matcher
  import Aligning

  /** aligningLineMargin of this variant. */
  const ALIGNING_LINE_MARGIN: real := 4.0
  /** aligningLineOffset: how far a guide line reaches past the shapes. */
  const ALIGNING_LINE_OFFSET: real := 5.0

  /**
   * isInRange: walk the integers from round(value1) - 4 to round(value1) + 4
   * and answer whether round(value2) is one of them.
   */
  method IsInRangeLoop(value1: real, value2: real) returns (r: bool)
    ensures r == IsInRange(value1, value2, ALIGNING_LINE_MARGIN)
  {
    var v1 := Round(value1);
    var v2 := Round(value2);
    var i := v1 - 4;
    var len := v1 + 4;
    while i <= len
      invariant v1 - 4 <= i <= len + 1
      invariant v2 < v1 - 4 || i <= v2
    {
      if i == v2 {
        return true;
      }
      i := i + 1;
    }
    return false;
  }

  /** One snapping rule: a side of one axis, compared with the same side of the other shape. */
  datatype Rule = Rule(axis: Axis, side: Side)

  /** The six rules in source order: centre, left and right x; centre, top and bottom y. */
  const RULES: seq<Rule> := [Rule(Vertical, Center), Rule(Vertical, Start), Rule(Vertical, End),
                             Rule(Horizontal, Center), Rule(Horizontal, Start), Rule(Horizontal, End)]

  predicate RuleFires(act: Edges, obj: Edges, rule: Rule) {
    IsInRange(Feature(obj, rule.axis, rule.side), Feature(act, rule.axis, rule.side), ALIGNING_LINE_MARGIN)
  }

  /**
   * The vertical line of an x rule: on the candidate's side, from five
   * pixels past the candidate's edge away from the dragged shape to five
   * pixels past the dragged shape's edge away from the candidate, so it
   * reaches past both centres.
   */
  function VerticalGuideOf(act: Edges, obj: Edges, side: Side): (g: VerticalLine)
    ensures g.x == Feature(obj, Vertical, side)
    ensures obj.ct < act.ct ==> g.y1 == obj.tt - ALIGNING_LINE_OFFSET && g.y2 == act.bt + ALIGNING_LINE_OFFSET
    ensures obj.ct >= act.ct ==> g.y1 == obj.bt + ALIGNING_LINE_OFFSET && g.y2 == act.tt - ALIGNING_LINE_OFFSET
    ensures act.tt <= act.ct <= act.bt && obj.tt <= obj.ct <= obj.bt ==>
              Min(g.y1, g.y2) <= Min(obj.ct, act.ct) - ALIGNING_LINE_OFFSET
              && Max(g.y1, g.y2) >= Max(obj.ct, act.ct) + ALIGNING_LINE_OFFSET
  {
    VerticalLine(Feature(obj, Vertical, side),
                 if obj.ct < act.ct then obj.tt - ALIGNING_LINE_OFFSET else obj.bt + ALIGNING_LINE_OFFSET,
                 if act.ct > obj.ct then act.bt + ALIGNING_LINE_OFFSET else act.tt - ALIGNING_LINE_OFFSET)
  }

  /** The horizontal line of a y rule, symmetric to the vertical one. */
  function HorizontalGuideOf(act: Edges, obj: Edges, side: Side): (g: HorizontalLine)
    ensures g.y == Feature(obj, Horizontal, side)
    ensures obj.cl < act.cl ==> g.x1 == obj.ll - ALIGNING_LINE_OFFSET && g.x2 == act.rl + ALIGNING_LINE_OFFSET
    ensures obj.cl >= act.cl ==> g.x1 == obj.rl + ALIGNING_LINE_OFFSET && g.x2 == act.ll - ALIGNING_LINE_OFFSET
    ensures act.ll <= act.cl <= act.rl && obj.ll <= obj.cl <= obj.rl ==>
              Min(g.x1, g.x2) <= Min(obj.cl, act.cl) - ALIGNING_LINE_OFFSET
              && Max(g.x1, g.x2) >= Max(obj.cl, act.cl) + ALIGNING_LINE_OFFSET
  {
    HorizontalLine(Feature(obj, Horizontal, side),
                   if obj.cl < act.cl then obj.ll - ALIGNING_LINE_OFFSET else obj.rl + ALIGNING_LINE_OFFSET,
                   if act.cl > obj.cl then act.rl + ALIGNING_LINE_OFFSET else act.ll - ALIGNING_LINE_OFFSET)
  }

  /** A re-centring on one axis: the new centre coordinate on that axis. */
  datatype Move = Move(axis: Axis, target: real)

  /** The lists one drag step fills, and the re-centrings in the order they happen. */
  datatype Records = Records(horizontal: seq<HorizontalLine>, vertical: seq<VerticalLine>, moves: seq<Move>)

  const NO_RECORDS := Records([], [], [])

  function Join(a: Records, b: Records): Records {
    Records(a.horizontal + b.horizontal, a.vertical + b.vertical, a.moves + b.moves)
  }

  /** What one rule records for one candidate: a line and a move when it fires, nothing otherwise. */
  function RuleRecords(act: Edges, size: Size, obj: Edges, rule: Rule): Records {
    if !RuleFires(act, obj, rule) then NO_RECORDS
    else
      var m := Move(rule.axis, SnapFor(rule.axis, size, rule.side, Feature(obj, rule.axis, rule.side)));
      if rule.axis == Vertical then Records([], [VerticalGuideOf(act, obj, rule.side)], [m])
      else Records([HorizontalGuideOf(act, obj, rule.side)], [], [m])
  }

  /** What a list of rules records for one candidate, in rule order. */
  function RulesRecords(act: Edges, size: Size, obj: Edges, rules: seq<Rule>): Records {
    if rules == [] then NO_RECORDS
    else Join(RulesRecords(act, size, obj, rules[..|rules| - 1]), RuleRecords(act, size, obj, rules[|rules| - 1]))
  }

  /** Extending a prefix of the rules by one rule joins that rule's records. */
  lemma RulesRecordsStep(act: Edges, size: Size, obj: Edges, rules: seq<Rule>, r: nat)
    requires r < |rules|
    ensures RulesRecords(act, size, obj, rules[..r + 1])
         == Join(RulesRecords(act, size, obj, rules[..r]), RuleRecords(act, size, obj, rules[r]))
  {
    assert rules[..r + 1][..r] == rules[..r];
  }

  /** One visit of the loop: the dragged object itself records nothing. */
  function Visit(d: Drag, obj: Shape): Records
    requires ValidDrag(d)
  {
    if obj.id == d.active.id then NO_RECORDS
    else RulesRecords(ActiveEdges(d), ActiveSize(d), RelativePosition(obj, d.v), RULES)
  }

  /** The records of a whole traversal, the last candidate visited first. */
  function Traversal(d: Drag, objs: seq<Shape>): Records
    requires ValidDrag(d)
  {
    if objs == [] then NO_RECORDS else Join(Traversal(d, objs[1..]), Visit(d, objs[0]))
  }

  lemma TraversalStep(d: Drag, objs: seq<Shape>, i: nat)
    requires ValidDrag(d) && i < |objs|
    ensures Traversal(d, objs[i..]) == Join(Traversal(d, objs[i + 1..]), Visit(d, objs[i]))
  {
    assert objs[i..][1..] == objs[i + 1..];
  }

  /** Every move a list of rules records comes from a rule of the list that fired. */
  lemma {:induction false} RulesMovesSound(act: Edges, size: Size, obj: Edges, rules: seq<Rule>, k: nat)
    requires k < |RulesRecords(act, size, obj, rules).moves|
    ensures var m := RulesRecords(act, size, obj, rules).moves[k];
            exists s :: Rule(m.axis, s) in rules && RuleFires(act, obj, Rule(m.axis, s))
                        && m.target == SnapFor(m.axis, size, s, Feature(obj, m.axis, s))
  {
    if rules != [] {
      var front := RulesRecords(act, size, obj, rules[..|rules| - 1]);
      var last := rules[|rules| - 1];
      var m := RulesRecords(act, size, obj, rules).moves[k];
      if k < |front.moves| {
        assert m == front.moves[k];
        RulesMovesSound(act, size, obj, rules[..|rules| - 1], k);
        var s :| Rule(m.axis, s) in rules[..|rules| - 1] && RuleFires(act, obj, Rule(m.axis, s))
                 && m.target == SnapFor(m.axis, size, s, Feature(obj, m.axis, s));
        assert Rule(m.axis, s) in rules;
      } else {
        assert last in rules;
        assert last == Rule(last.axis, last.side);
      }
    }
  }

  /** When every rule of a list fires, each records its own move, in order. */
  lemma {:induction false} AllRulesFire(act: Edges, size: Size, obj: Edges, rules: seq<Rule>)
    requires forall k :: 0 <= k < |rules| ==> RuleFires(act, obj, rules[k])
    ensures var ms := RulesRecords(act, size, obj, rules).moves;
            |ms| == |rules|
            && forall k :: 0 <= k < |rules| ==>
                 ms[k] == Move(rules[k].axis, SnapFor(rules[k].axis, size, rules[k].side, Feature(obj, rules[k].axis, rules[k].side)))
  {
    if rules != [] {
      var front := rules[..|rules| - 1];
      AllRulesFire(act, size, obj, front);
    }
  }

  /**
   * Every move of a traversal re-centres the dragged shape so that a side
   * of it lands on the same side of another candidate, a side that was in
   * range before the drag step.
   */
  lemma {:induction false} TraversalMovesSound(d: Drag, objs: seq<Shape>, k: nat)
    requires ValidDrag(d)
    requires k < |Traversal(d, objs).moves|
    ensures var m := Traversal(d, objs).moves[k];
            exists j, s :: 0 <= j < |objs| && objs[j].id != d.active.id
                           && RuleFires(ActiveEdges(d), RelativePosition(objs[j], d.v), Rule(m.axis, s))
                           && m.target == SnapFor(m.axis, ActiveSize(d), s, Feature(RelativePosition(objs[j], d.v), m.axis, s))
  {
    var rest := Traversal(d, objs[1..]);
    var m := Traversal(d, objs).moves[k];
    if k < |rest.moves| {
      TraversalMovesSound(d, objs[1..], k);
      var j, s :| 0 <= j < |objs[1..]| && objs[1..][j].id != d.active.id
                  && RuleFires(ActiveEdges(d), RelativePosition(objs[1..][j], d.v), Rule(m.axis, s))
                  && m.target == SnapFor(m.axis, ActiveSize(d), s, Feature(RelativePosition(objs[1..][j], d.v), m.axis, s));
      assert objs[j + 1] == objs[1..][j];
    } else {
      assert objs[0].id != d.active.id;
      RulesMovesSound(ActiveEdges(d), ActiveSize(d), RelativePosition(objs[0], d.v), RULES, k - |rest.moves|);
    }
  }

  /**
   * The code as written: every rule that fires re-centres the dragged shape
   * at the pre-drag coordinate of the OTHER axis, so the last move of the
   * whole traversal alone decides where the shape ends up.
   */
  function AsWrittenPosition(active: Shape, moves: seq<Move>): Shape {
    if moves == [] then active
    else
      var m := moves[|moves| - 1];
      if m.axis == Vertical then MoveCenter(active, m.target, active.cy) else MoveCenter(active, active.cx, m.target)
  }

  /** Moves appended to a traversal so far: the last move decides, when there is one. */
  lemma AsWrittenAppend(active: Shape, a: seq<Move>, b: seq<Move>)
    ensures AsWrittenPosition(active, a + b) == if b == [] then AsWrittenPosition(active, a) else AsWrittenPosition(active, b)
  {
    if b == [] {
      assert a + b == a;
    } else {
      assert (a + b)[|a + b| - 1] == b[|b| - 1];
    }
  }

  /**
   * The code as written, after a step in which some rule fired: the
   * dragged shape keeps its pre-drag coordinate on the axis of the last
   * rule that fired, and on that rule's axis a side of it lies exactly on
   * the same side of another candidate, a side in range before the step.
   */
  lemma AsWrittenLastAligns(d: Drag, objs: seq<Shape>)
    requires ValidDrag(d)
    requires |Traversal(d, objs).moves| > 0
    ensures var moves := Traversal(d, objs).moves;
            var m := moves[|moves| - 1];
            var r := AsWrittenPosition(d.active, moves);
            (if m.axis == Vertical then r.cy == d.active.cy else r.cx == d.active.cx)
            && exists j, s :: 0 <= j < |objs| && objs[j].id != d.active.id
                              && RuleFires(ActiveEdges(d), RelativePosition(objs[j], d.v), Rule(m.axis, s))
                              && Feature(RelativePosition(r, d.v), m.axis, s) == Feature(RelativePosition(objs[j], d.v), m.axis, s)
  {
    var moves := Traversal(d, objs).moves;
    var m := moves[|moves| - 1];
    var r := AsWrittenPosition(d.active, moves);
    TraversalMovesSound(d, objs, |moves| - 1);
    var j, s :| 0 <= j < |objs| && objs[j].id != d.active.id
                && RuleFires(ActiveEdges(d), RelativePosition(objs[j], d.v), Rule(m.axis, s))
                && m.target == SnapFor(m.axis, ActiveSize(d), s, Feature(RelativePosition(objs[j], d.v), m.axis, s));
    CenteredSideOnTarget(d.active, d.v, m.axis, s, Feature(RelativePosition(objs[j], d.v), m.axis, s), r);
  }

  /** One re-centring as intended: the rule's axis moves, the other keeps its current coordinate. */
  function Step(s: Shape, m: Move): Shape {
    if m.axis == Vertical then MoveCenter(s, m.target, s.cy) else MoveCenter(s, s.cx, m.target)
  }

  /** The re-centrings applied one after the other, as intended. */
  function Replay(s: Shape, moves: seq<Move>): Shape {
    if moves == [] then s else Step(Replay(s, moves[..|moves| - 1]), moves[|moves| - 1])
  }

  /** The target of the last move on an axis, or `otherwise` when there is none. */
  function LastTarget(moves: seq<Move>, axis: Axis, otherwise: real): real {
    if moves == [] then otherwise
    else if moves[|moves| - 1].axis == axis then moves[|moves| - 1].target
    else LastTarget(moves[..|moves| - 1], axis, otherwise)
  }

  /** LastTarget is the target of some move on the axis exactly when there is one. */
  lemma {:induction false} LastTargetFound(moves: seq<Move>, axis: Axis, otherwise: real)
    ensures (forall k :: 0 <= k < |moves| ==> moves[k].axis != axis) ==> LastTarget(moves, axis, otherwise) == otherwise
    ensures (exists k :: 0 <= k < |moves| && moves[k].axis == axis) ==>
              exists k :: 0 <= k < |moves| && moves[k].axis == axis && moves[k].target == LastTarget(moves, axis, otherwise)
  {
    if moves != [] {
      var front := moves[..|moves| - 1];
      LastTargetFound(front, axis, otherwise);
      if moves[|moves| - 1].axis != axis {
        assert forall k :: 0 <= k < |front| ==> front[k] == moves[k];
        if exists k :: 0 <= k < |moves| && moves[k].axis == axis {
          var k :| 0 <= k < |moves| && moves[k].axis == axis;
          assert front[k].axis == axis;
        }
      }
    }
  }

  /** Replaying moves lands each axis on its own last target: the axes do not interfere. */
  lemma {:induction false} ReplayPerAxis(s: Shape, moves: seq<Move>)
    ensures Replay(s, moves) == MoveCenter(s, LastTarget(moves, Vertical, s.cx), LastTarget(moves, Horizontal, s.cy))
  {
    if moves != [] {
      ReplayPerAxis(s, moves[..|moves| - 1]);
    }
  }

  /** Replaying two lists of moves one after the other is replaying their concatenation. */
  lemma {:induction false} ReplayAppend(s: Shape, a: seq<Move>, b: seq<Move>)
    ensures Replay(s, a + b) == Replay(Replay(s, a), b)
  {
    if b == [] {
      assert a + b == a;
    } else {
      assert (a + b)[..|a + b| - 1] == a + b[..|b| - 1];
      ReplayAppend(s, a, b[..|b| - 1]);
    }
  }

  /**
   * The intended behaviour: when the traversal found a rule of an axis
   * that fired, the dragged shape ends with a side of that axis exactly on
   * the same side of another candidate, whatever moves of the other axis
   * came after.
   */
  lemma SnappedAxisAligns(d: Drag, objs: seq<Shape>, axis: Axis)
    requires ValidDrag(d)
    requires exists k :: 0 <= k < |Traversal(d, objs).moves| && Traversal(d, objs).moves[k].axis == axis
    ensures exists j, s :: 0 <= j < |objs| && objs[j].id != d.active.id
                           && RuleFires(ActiveEdges(d), RelativePosition(objs[j], d.v), Rule(axis, s))
                           && Feature(RelativePosition(Replay(d.active, Traversal(d, objs).moves), d.v), axis, s)
                              == Feature(RelativePosition(objs[j], d.v), axis, s)
  {
    var moves := Traversal(d, objs).moves;
    var c := LastTarget(moves, axis, if axis == Vertical then d.active.cx else d.active.cy);
    LastTargetFound(moves, axis, if axis == Vertical then d.active.cx else d.active.cy);
    var k :| 0 <= k < |moves| && moves[k].axis == axis && moves[k].target == c;
    TraversalMovesSound(d, objs, k);
    var j, s :| 0 <= j < |objs| && objs[j].id != d.active.id
                && RuleFires(ActiveEdges(d), RelativePosition(objs[j], d.v), Rule(axis, s))
                && c == SnapFor(axis, ActiveSize(d), s, Feature(RelativePosition(objs[j], d.v), axis, s));
    ReplayPerAxis(d.active, moves);
    CenteredSideOnTarget(d.active, d.v, axis, s, Feature(RelativePosition(objs[j], d.v), axis, s),
                         Replay(d.active, moves));
    assert Feature(RelativePosition(Replay(d.active, moves), d.v), axis, s)
        == Feature(RelativePosition(objs[j], d.v), axis, s);
  }

  /**
   * A shape that only moved its centre, and whose centre on an axis is the
   * snap target for a side, has that side on the target.
   */
  lemma CenteredSideOnTarget(s: Shape, v: Viewport, axis: Axis, side: Side, target: real, r: Shape)
    requires ValidViewport(v)
    requires r == MoveCenter(s, r.cx, r.cy)
    requires (if axis == Vertical then r.cx else r.cy) == SnapFor(axis, ObjSize(s, v), side, target)
    ensures Feature(RelativePosition(r, v), axis, side) == target
  {
    var c := SnapFor(axis, ObjSize(s, v), side, target);
    SnapAlignsSide(s, v, axis, side, target);
    if axis == Vertical {
      MoveCenterShiftsFeatures(s, v, c, s.cy, side);
    } else {
      MoveCenterShiftsFeatures(s, v, s.cx, c, side);
    }
    MoveCenterShiftsFeatures(s, v, r.cx, r.cy, side);
  }

  /**
   * The code as written loses an x snap: a 50 by 50 box centred at
   * (102, 102) dragged next to a 50 by 50 box centred at (100, 100) fires
   * all six rules; the x rules move it to x = 100, but the y rules that
   * follow put x back to 102, while the vertical guide lines at x = 75, 100
   * and 125 are still recorded. Replaying the moves as intended leaves it
   * at (100, 100).
   */
  lemma AsWrittenLosesVerticalSnap()
    ensures var props := map["myType" := "box"];
            var active := Shape(1, 102.0, 102.0, 50.0, 50.0, props);
            var other := Shape(2, 100.0, 100.0, 50.0, 50.0, props);
            var moves := Traversal(Drag(active, IDENTITY, ALIGNING_LINE_MARGIN), [other]).moves;
            |moves| == 6 && moves[0] == Move(Vertical, 100.0)
            && AsWrittenPosition(active, moves).cx == 102.0
            && Replay(active, moves) == MoveCenter(active, 100.0, 100.0)
  {
    var props := map["myType" := "box"];
    var active := Shape(1, 102.0, 102.0, 50.0, 50.0, props);
    var other := Shape(2, 100.0, 100.0, 50.0, 50.0, props);
    var d := Drag(active, IDENTITY, ALIGNING_LINE_MARGIN);
    var act := ActiveEdges(d);
    var e := RelativePosition(other, IDENTITY);
    var size := ActiveSize(d);
    assert act == Edges(77.0, 102.0, 127.0, 77.0, 102.0, 127.0);
    assert e == Edges(75.0, 100.0, 125.0, 75.0, 100.0, 125.0);
    assert size == Size(50.0, 50.0);
    CounterexampleFiresAll();
    assert Traversal(d, [other]).moves == RulesRecords(act, size, e, RULES).moves;
    SixSnapsReplay(active);
  }

  /**
   * Boxes of size 50 centred at (102, 102) and at (100, 100) are within
   * four pixels on every side, so every rule fires and snaps to 100.
   */
  lemma CounterexampleFiresAll()
    ensures RulesRecords(Edges(77.0, 102.0, 127.0, 77.0, 102.0, 127.0), Size(50.0, 50.0),
                         Edges(75.0, 100.0, 125.0, 75.0, 100.0, 125.0), RULES).moves
         == SixSnapsTo100()
  {
    RoundOfInteger(75);
    RoundOfInteger(77);
    RoundOfInteger(100);
    RoundOfInteger(102);
    RoundOfInteger(125);
    RoundOfInteger(127);
    AllRulesFire(Edges(77.0, 102.0, 127.0, 77.0, 102.0, 127.0), Size(50.0, 50.0),
                 Edges(75.0, 100.0, 125.0, 75.0, 100.0, 125.0), RULES);
  }

  /** The moves of the counterexample: three x snaps to 100, then three y snaps to 100. */
  function SixSnapsTo100(): seq<Move> {
    [Move(Vertical, 100.0), Move(Vertical, 100.0), Move(Vertical, 100.0),
     Move(Horizontal, 100.0), Move(Horizontal, 100.0), Move(Horizontal, 100.0)]
  }

  /**
   * Replaying those moves as intended centres the shape on (100, 100); as
   * written, the last y move re-centres it on its pre-drag x.
   */
  lemma SixSnapsReplay(active: Shape)
    ensures AsWrittenPosition(active, SixSnapsTo100()).cx == active.cx
    ensures Replay(active, SixSnapsTo100()) == MoveCenter(active, 100.0, 100.0)
  {
    var moves := SixSnapsTo100();
    var m5, m4, m3 := moves[..5], moves[..4], moves[..3];
    assert moves[..|moves| - 1] == m5 && m5[..|m5| - 1] == m4 && m4[..|m4| - 1] == m3;
    assert LastTarget(moves, Vertical, active.cx) == LastTarget(m5, Vertical, active.cx);
    assert LastTarget(m5, Vertical, active.cx) == LastTarget(m4, Vertical, active.cx);
    assert LastTarget(m4, Vertical, active.cx) == LastTarget(m3, Vertical, active.cx);
    ReplayPerAxis(active, moves);
  }

  /**
   * The six rule blocks of the loop body for one candidate with features
   * e. `current` is the dragged shape as earlier candidates left it; a rule
   * that fires re-centres it at its target on the rule's axis and at the
   * pre-drag coordinate of `active` on the other axis.
   */
  method VisitCandidate(act: Edges, size: Size, e: Edges, active: Shape, current: Shape)
    returns (hLines: seq<HorizontalLine>, vLines: seq<VerticalLine>, moved: Shape)
    requires current == MoveCenter(active, current.cx, current.cy)
    ensures hLines == RulesRecords(act, size, e, RULES).horizontal
    ensures vLines == RulesRecords(act, size, e, RULES).vertical
    ensures var ms := RulesRecords(act, size, e, RULES).moves;
            moved == if ms == [] then current else AsWrittenPosition(active, ms)
  {
    hLines := [];
    vLines := [];
    moved := current;
    ghost var moves: seq<Move> := [];
    for r := 0 to |RULES|
      invariant Records(hLines, vLines, moves) == RulesRecords(act, size, e, RULES[..r])
      invariant moved == if moves == [] then current else AsWrittenPosition(active, moves)
      invariant moved == MoveCenter(active, moved.cx, moved.cy)
    {
      var rule := RULES[r];
      RulesRecordsStep(act, size, e, RULES, r);
      var fires := IsInRangeLoop(Feature(e, rule.axis, rule.side), Feature(act, rule.axis, rule.side));
      if fires {
        var target := SnapFor(rule.axis, size, rule.side, Feature(e, rule.axis, rule.side));
        if rule.axis == Vertical {
          vLines := vLines + [VerticalGuideOf(act, e, rule.side)];
          moved := MoveCenter(moved, target, active.cy);
        } else {
          hLines := hLines + [HorizontalGuideOf(act, e, rule.side)];
          moved := MoveCenter(moved, active.cx, target);
        }
        assert (moves + [Move(rule.axis, target)])[..|moves|] == moves;
        moves := moves + [Move(rule.axis, target)];
      } else {
        assert hLines + [] == hLines && vLines + [] == vLines && moves + [] == moves;
      }
    }
    assert RULES[..|RULES|] == RULES;
  }

  /** The handlers of initAligningGuidelines and the state they share. */
  class Guidelines {
    var viewportTransform: Viewport
    var verticalLines: seq<VerticalLine>
    var horizontalLines: seq<HorizontalLine>

    ghost predicate Valid()
      reads this
    {
      ValidViewport(viewportTransform)
    }

    /** No line is recorded; the viewport is taken as the identity until the first mouse:down. */
    constructor ()
      ensures Valid() && viewportTransform == IDENTITY
      ensures verticalLines == [] && horizontalLines == []
    {
      viewportTransform := IDENTITY;
      verticalLines := [];
      horizontalLines := [];
    }

    /** mouse:down: forget the lines and take the canvas's current viewport. */
    method MouseDown(canvasViewport: Viewport)
      requires ValidViewport(canvasViewport)
      modifies this
      ensures Valid()
      ensures verticalLines == [] && horizontalLines == [] && viewportTransform == canvasViewport
    {
      verticalLines := [];
      horizontalLines := [];
      viewportTransform := canvasViewport;
    }

    /** mouse:wheel and mouse:up: forget the lines. */
    method ClearLines()
      modifies this`verticalLines, this`horizontalLines
      ensures verticalLines == [] && horizontalLines == []
    {
      verticalLines := [];
      horizontalLines := [];
    }

    /**
     * object:moving: forget the lines, keep the boxes, and without a
     * transform in progress stop there. Otherwise visit the boxes from last
     * to first, skip the dragged one, apply the six rules to each, and
     * finally drop the lines of an axis on which no rule fired. Returns
     * where the dragged shape ends up: as written, the last rule that fired
     * decides it alone.
     */
    method ObjectMoving(activeObject: Shape, canvasObjects: seq<Shape>, hasCurrentTransform: bool) returns (moved: Shape)
      requires Valid()
      modifies this`verticalLines, this`horizontalLines
      ensures !hasCurrentTransform ==> verticalLines == [] && horizontalLines == [] && moved == activeObject
      ensures hasCurrentTransform ==>
                var d := Drag(activeObject, viewportTransform, ALIGNING_LINE_MARGIN);
                var r := Traversal(d, Aligning.FilterObjects(canvasObjects, [], [Aligning.BOX]));
                horizontalLines == r.horizontal && verticalLines == r.vertical && moved == AsWrittenPosition(activeObject, r.moves)
    {
      verticalLines := [];
      horizontalLines := [];
      moved := activeObject;
      var objs := Aligning.FilterObjects(canvasObjects, [], [Aligning.BOX]);
      var vpt := viewportTransform;
      ghost var d := Drag(activeObject, vpt, ALIGNING_LINE_MARGIN);
      var act := RelativePosition(activeObject, vpt);
      var size := ObjSize(activeObject, vpt);
      var horizontalInTheRange := false;
      var verticalInTheRange := false;
      if !hasCurrentTransform {
        return;
      }
      ghost var moves: seq<Move> := [];
      var i := |objs|;
      while i > 0
        invariant 0 <= i <= |objs|
        invariant Records(horizontalLines, verticalLines, moves) == Traversal(d, objs[i..])
        invariant moved == AsWrittenPosition(activeObject, moves)
        invariant horizontalInTheRange <==> |horizontalLines| > 0
        invariant verticalInTheRange <==> |verticalLines| > 0
      {
        i := i - 1;
        TraversalStep(d, objs, i);
        var obj := objs[i];
        if obj.id == activeObject.id {
          continue;
        }
        var e := RelativePosition(obj, vpt);
        var hLines, vLines, next := VisitCandidate(act, size, e, activeObject, moved);
        ghost var visit := RulesRecords(act, size, e, RULES);
        AsWrittenAppend(activeObject, moves, visit.moves);
        horizontalLines := horizontalLines + hLines;
        verticalLines := verticalLines + vLines;
        moves := moves + visit.moves;
        moved := next;
        if |hLines| > 0 {
          horizontalInTheRange := true;
        }
        if |vLines| > 0 {
          verticalInTheRange := true;
        }
      }
      if !horizontalInTheRange {
        horizontalLines := [];
      }
      if !verticalInTheRange {
        verticalLines := [];
      }
      assert objs[0..] == objs;
    }

    /**
     * after:render: every recorded vertical line, last first, then every
     * horizontal one, last first, each drawn half a pixel off its
     * coordinate with its endpoints in order.
     */
    method AfterRender() returns (drawn: seq<Segment>)
      ensures |drawn| == |verticalLines| + |horizontalLines|
      ensures forall k :: 0 <= k < |verticalLines| ==>
                drawn[k] == LegacyVerticalSegment(verticalLines[|verticalLines| - 1 - k])
      ensures forall k :: |verticalLines| <= k < |drawn| ==>
                drawn[k] == LegacyHorizontalSegment(horizontalLines[|drawn| - 1 - k])
    {
      var vertical := DrawVerticalReversed(verticalLines);
      var horizontal := DrawHorizontalReversed(horizontalLines);
      drawn := vertical + horizontal;
    }
  }
}
