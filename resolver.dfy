/**
 * sortPoints of AlignGuidelines.traversAllObjects: of the snap candidates of
 * one axis, the one nearest the dragged shape's centre wins; the stable sort
 * by distance lets the earliest recorded candidate win a tie.
 */
module Resolver {
  import opened Numeric

  /** Index of the earliest candidate at the smallest distance from origin. */
  function NearestIndex(list: seq<real>, origin: real): (k: nat)
    requires |list| > 0
    ensures k < |list|
  {
    if |list| == 1 then 0
    else
      var k := NearestIndex(list[1..], origin);
      if AbsReal(origin - list[0]) <= AbsReal(origin - list[1..][k]) then 0 else k + 1
  }

  /**
   * NearestIndex picks a candidate no farther than any other, and every
   * candidate before it is strictly farther.
   */
  lemma {:induction false} NearestIndexIsNearest(list: seq<real>, origin: real)
    requires |list| > 0
    ensures var k := NearestIndex(list, origin);
            (forall j :: 0 <= j < |list| ==> AbsReal(origin - list[k]) <= AbsReal(origin - list[j]))
            && (forall j :: 0 <= j < k ==> AbsReal(origin - list[j]) > AbsReal(origin - list[k]))
  {
    if |list| > 1 {
      NearestIndexIsNearest(list[1..], origin);
      assert forall j :: 1 <= j < |list| ==> list[j] == list[1..][j - 1];
    }
  }

  /**
   * The head of the candidates stably sorted by distance to origin is the
   * earliest one at the smallest distance: no other index has both
   * properties, so NearestIndex is that head.
   */
  lemma StableSortHeadIsUnique(list: seq<real>, origin: real, k: nat)
    requires k < |list|
    requires forall j :: 0 <= j < |list| ==> AbsReal(origin - list[k]) <= AbsReal(origin - list[j])
    requires forall j :: 0 <= j < k ==> AbsReal(origin - list[j]) > AbsReal(origin - list[k])
    ensures k == NearestIndex(list, origin)
  {
    NearestIndexIsNearest(list, origin);
  }

  /**
   * sortPoints: the origin when there is no candidate, else the head of the
   * candidates stably sorted by distance, found by one pass from the back in
   * which an earlier candidate wins a tie.
   */
  function SortPoints(list: seq<real>, origin: real): real {
    if |list| == 0 then origin
    else if |list| == 1 then list[0]
    else
      var rest := SortPoints(list[1..], origin);
      if AbsReal(origin - list[0]) <= AbsReal(origin - rest) then list[0] else rest
  }

  /** The pass finds the stable sort's head: the candidate at NearestIndex. */
  lemma {:induction false} SortPointsIsStableHead(list: seq<real>, origin: real)
    requires |list| > 0
    ensures SortPoints(list, origin) == list[NearestIndex(list, origin)]
  {
    if |list| > 1 {
      SortPointsIsStableHead(list[1..], origin);
    }
  }

  /** What sortPoints promises: the origin without candidates, else a candidate no other beats. */
  lemma SortPointsNearest(list: seq<real>, origin: real)
    ensures |list| == 0 ==> SortPoints(list, origin) == origin
    ensures |list| > 0 ==> SortPoints(list, origin) in list
                           && forall v :: v in list ==> AbsReal(origin - SortPoints(list, origin)) <= AbsReal(origin - v)
  {
    if |list| > 0 {
      SortPointsIsStableHead(list, origin);
      NearestIndexIsNearest(list, origin);
    }
  }

  /** Adding candidates can only bring the chosen value closer to the origin. */
  lemma SortPointsCloserWithMore(list: seq<real>, extra: seq<real>, origin: real)
    requires |list| > 0
    ensures AbsReal(origin - SortPoints(list + extra, origin)) <= AbsReal(origin - SortPoints(list, origin))
  {
    SortPointsNearest(list, origin);
    SortPointsNearest(list + extra, origin);
    assert SortPoints(list, origin) in list + extra;
  }
}
