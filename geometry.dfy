/** Axis-aligned rectangle overlap (src/game/utils.ts). */
module Geometry {

  datatype Point = Point(x: real, y: real)

  /** The source's test: strict comparisons on both axes, so rectangles that
      only share an edge do not overlap. */
  predicate RectsOverlap(a: Point, b: Point, aw: real, ah: real, bw: real, bh: real) {
    a.x < b.x + bw && a.x + aw > b.x && a.y < b.y + bh && a.y + ah > b.y
  }

  /** t lies in the open interval (lo, hi). */
  predicate InOpen(t: real, lo: real, hi: real) {
    lo < t < hi
  }

  /** Reference definition: the open intervals (lo1, hi1) and (lo2, hi2) share a point. */
  ghost predicate IntervalsMeet(lo1: real, hi1: real, lo2: real, hi2: real) {
    exists t: real :: InOpen(t, lo1, hi1) && InOpen(t, lo2, hi2)
  }

  /** p lies strictly inside the rectangle at `corner` of size w x h. */
  predicate Inside(p: Point, corner: Point, w: real, h: real) {
    corner.x < p.x < corner.x + w && corner.y < p.y < corner.y + h
  }

  lemma IntervalsMeetIff(lo1: real, hi1: real, lo2: real, hi2: real)
    ensures IntervalsMeet(lo1, hi1, lo2, hi2) <==> lo1 < hi2 && lo2 < hi1 && lo1 < hi1 && lo2 < hi2
  {
    if lo1 < hi2 && lo2 < hi1 && lo1 < hi1 && lo2 < hi2 {
      var lo := if lo1 < lo2 then lo2 else lo1;
      var hi := if hi1 < hi2 then hi1 else hi2;
      var t := (lo + hi) / 2.0;
      assert InOpen(t, lo1, hi1) && InOpen(t, lo2, hi2);
    }
  }

  /** Overlap holds iff the open x-intervals meet and the open y-intervals meet
      (for rectangles of positive width and height). */
  lemma OverlapIffIntervalsMeet(a: Point, b: Point, aw: real, ah: real, bw: real, bh: real)
    requires aw > 0.0 && ah > 0.0 && bw > 0.0 && bh > 0.0
    ensures RectsOverlap(a, b, aw, ah, bw, bh) <==>
            IntervalsMeet(a.x, a.x + aw, b.x, b.x + bw) && IntervalsMeet(a.y, a.y + ah, b.y, b.y + bh)
  {
    IntervalsMeetIff(a.x, a.x + aw, b.x, b.x + bw);
    IntervalsMeetIff(a.y, a.y + ah, b.y, b.y + bh);
  }

  /** Overlap holds iff some point lies strictly inside both rectangles, that is,
      iff the intersection has positive area. */
  lemma OverlapIffCommonInteriorPoint(a: Point, b: Point, aw: real, ah: real, bw: real, bh: real)
    requires aw > 0.0 && ah > 0.0 && bw > 0.0 && bh > 0.0
    ensures RectsOverlap(a, b, aw, ah, bw, bh) <==> exists p: Point :: Inside(p, a, aw, ah) && Inside(p, b, bw, bh)
  {
    OverlapIffIntervalsMeet(a, b, aw, ah, bw, bh);
    if RectsOverlap(a, b, aw, ah, bw, bh) {
      var tx :| InOpen(tx, a.x, a.x + aw) && InOpen(tx, b.x, b.x + bw);
      var ty :| InOpen(ty, a.y, a.y + ah) && InOpen(ty, b.y, b.y + bh);
      assert Inside(Point(tx, ty), a, aw, ah) && Inside(Point(tx, ty), b, bw, bh);
    }
  }

  lemma OverlapSymmetric(a: Point, b: Point, aw: real, ah: real, bw: real, bh: real)
    ensures RectsOverlap(a, b, aw, ah, bw, bh) == RectsOverlap(b, a, bw, bh, aw, ah)
  {
  }

  /** Sharing an edge is not overlapping. */
  lemma EdgeContactIsNotOverlap(a: Point, b: Point, aw: real, ah: real, bw: real, bh: real)
    requires a.x + aw == b.x || b.x + bw == a.x || a.y + ah == b.y || b.y + bh == a.y
    ensures !RectsOverlap(a, b, aw, ah, bw, bh)
  {
  }

  /** A rectangle lying wholly left of or wholly above the other does not overlap it. */
  lemma SeparatedIsNotOverlap(a: Point, b: Point, aw: real, ah: real, bw: real, bh: real)
    requires a.x + aw <= b.x || a.y + ah <= b.y
    ensures !RectsOverlap(a, b, aw, ah, bw, bh)
  {
  }

  lemma OverlapReflexive(a: Point, w: real, h: real)
    requires w > 0.0 && h > 0.0
    ensures RectsOverlap(a, a, w, h, w, h)
  {
  }

  lemma OverlapTranslationInvariant(a: Point, b: Point, aw: real, ah: real, bw: real, bh: real, dx: real, dy: real)
    ensures RectsOverlap(a, b, aw, ah, bw, bh) ==
            RectsOverlap(Point(a.x + dx, a.y + dy), Point(b.x + dx, b.y + dy), aw, ah, bw, bh)
  {
  }
}
