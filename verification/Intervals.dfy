/**
 * The two overlap tests of the backend and what they mean.
 * Bookings and trips are compared as half-open ranges, assignments as closed ranges
 * whose missing end stands for "no end".
 */
module Intervals {
  import opened Common

  /** The half-open test `start < otherEnd && end > otherStart`. */
  predicate Overlaps(start: Time, end: Time, otherStart: Time, otherEnd: Time) {
    start < otherEnd && end > otherStart
  }

  /** The half-open test when the first range may have no end yet. */
  predicate OpenOverlaps(start: Time, end: Option<Time>, otherStart: Time, otherEnd: Time) {
    start < otherEnd && (end.None? || end.value > otherStart)
  }

  /**
   * The closed test of the assignment queries: `startDate <= to` unless `to` is open, and `endDate`
   * open or `>= from`.
   */
  predicate Touches(start: Time, end: Option<Time>, from: Time, to: Option<Time>) {
    && (to.Some? ==> start <= to.value)
    && (end.None? || end.value >= from)
  }

  /** `t` lies in the closed range from `start` to `end`. */
  predicate Covers(start: Time, end: Option<Time>, t: Time) {
    start <= t && (end.Some? ==> t <= end.value)
  }

  /** `t` lies in the half-open range from `start` to `end`. */
  predicate Inside(t: Time, start: Time, end: Time) {
    start <= t < end
  }

  predicate NonEmpty(start: Time, end: Option<Time>) {
    end.Some? ==> start <= end.value
  }

  /** The range `from`..`to` lies inside `start`..`end`. */
  predicate Within(from: Time, to: Option<Time>, start: Time, end: Option<Time>) {
    && start <= from
    && (end.Some? ==> to.Some? && to.value <= end.value)
  }

  /** Two ranges of positive length pass the half-open test exactly when some instant is in both. */
  lemma OverlapsMeansSharedInstant(s1: Time, e1: Time, s2: Time, e2: Time)
    requires s1 < e1 && s2 < e2
    ensures Overlaps(s1, e1, s2, e2) <==> exists t: Time :: Inside(t, s1, e1) && Inside(t, s2, e2)
  {
    if Overlaps(s1, e1, s2, e2) {
      var t := if s1 < s2 then s2 else s1;
      assert Inside(t, s1, e1) && Inside(t, s2, e2);
    }
  }

  /** Two closed ranges, bounded or not, pass the assignment filter exactly when some instant is in both. */
  lemma TouchesMeansSharedInstant(s1: Time, e1: Option<Time>, s2: Time, e2: Option<Time>)
    requires NonEmpty(s1, e1) && NonEmpty(s2, e2)
    ensures Touches(s1, e1, s2, e2) <==> exists t: Time :: Covers(s1, e1, t) && Covers(s2, e2, t)
  {
    if Touches(s1, e1, s2, e2) {
      var t := if s1 < s2 then s2 else s1;
      assert Covers(s1, e1, t) && Covers(s2, e2, t);
    }
  }
}
