/**
 * `MediaRange` (Photon/Source/Media/MediaRange.swift): a user-facing range of seconds given
 * by a start and a duration. Float64 seconds are modelled as exact reals.
 */
module MediaRanges {

  function Min(x: real, y: real): real { if x <= y then x else y }
  function Max(x: real, y: real): real { if x >= y then x else y }

  datatype MediaRange = MediaRange(start: real, duration: real) {

    /** `init(start:end:)`: the duration is the distance from start to end. */
    static function FromBounds(start: real, end: real): (r: MediaRange)
      ensures r.start == start && r.End() == end
    {
      MediaRange(start, end - start)
    }

    predicate IsValid() {
      start >= 0.0 && duration >= 0.0
    }

    predicate IsEmpty() {
      duration == 0.0
    }

    function End(): real {
      start + duration
    }

    /** `union`: from the smaller start to the larger end (no check that the ranges touch). */
    function Union(other: MediaRange): (r: MediaRange)
      ensures r.start == Min(start, other.start) && r.End() == Max(End(), other.End())
    {
      FromBounds(Min(start, other.start), Max(End(), other.End()))
    }

    /** `intersection`: from the larger start to the smaller end, with no clamping. */
    function Intersection(other: MediaRange): (r: MediaRange)
      ensures r.start == Max(start, other.start) && r.End() == Min(End(), other.End())
    {
      FromBounds(Max(start, other.start), Min(End(), other.End()))
    }

    /** `containsTime`: inclusive at both ends. */
    predicate ContainsTime(time: real) {
      time >= start && time <= End()
    }

    predicate ContainsRange(range: MediaRange) {
      start <= range.start && End() >= range.End()
    }
  }

  /** `init(start:end:)` and `end` round-trip, and so do start/duration. */
  lemma BoundsRoundTrip(r: MediaRange, start: real, end: real)
    ensures MediaRange.FromBounds(start, end).End() == end
    ensures MediaRange.FromBounds(r.start, r.End()) == r
  {
  }

  /** A range built from bounds is valid iff 0 <= start <= end, and empty iff start == end. */
  lemma FromBoundsValidity(start: real, end: real)
    ensures MediaRange.FromBounds(start, end).IsValid() <==> 0.0 <= start <= end
    ensures MediaRange.FromBounds(start, end).IsEmpty() <==> start == end
  {
  }

  /** The union contains both operands and does not depend on their order. */
  lemma UnionContainsBoth(x: MediaRange, y: MediaRange)
    ensures x.Union(y).ContainsRange(x) && x.Union(y).ContainsRange(y)
    ensures x.Union(y) == y.Union(x)
  {
  }

  /** The union is the smallest range containing both: any range containing both contains it. */
  lemma UnionIsLeast(x: MediaRange, y: MediaRange, z: MediaRange)
    requires z.ContainsRange(x) && z.ContainsRange(y)
    ensures z.ContainsRange(x.Union(y))
  {
  }

  /** The intersection lies inside both operands; it is commutative. */
  lemma IntersectionContained(x: MediaRange, y: MediaRange)
    ensures x.ContainsRange(x.Intersection(y)) && y.ContainsRange(x.Intersection(y))
    ensures x.Intersection(y) == y.Intersection(x)
  {
  }

  /**
   * Without clamping, ranges that are disjoint (one ends before the other starts) have an
   * intersection with negative duration, which `isValid` rejects.
   */
  lemma DisjointIntersectionInvalid(x: MediaRange, y: MediaRange)
    requires x.duration >= 0.0 && y.duration >= 0.0
    requires x.End() < y.start
    ensures x.Intersection(y).duration < 0.0
    ensures !x.Intersection(y).IsValid()
  {
  }

  /** A time lies in the intersection exactly when it lies in both ranges. */
  lemma IntersectionContainsTime(x: MediaRange, y: MediaRange, t: real)
    ensures x.Intersection(y).ContainsTime(t) <==> x.ContainsTime(t) && y.ContainsTime(t)
  {
  }

  /** `containsTime` includes both the start and the end of a range of non-negative duration. */
  lemma ContainsBothEnds(r: MediaRange)
    requires r.duration >= 0.0
    ensures r.ContainsTime(r.start) && r.ContainsTime(r.End())
    ensures forall t :: r.ContainsTime(t) <==> r.start <= t <= r.End()
  {
  }

  /** `==` compares exactly start and duration. */
  lemma EqualityIsFieldwise(x: MediaRange, y: MediaRange)
    ensures x == y <==> x.start == y.start && x.duration == y.duration
  {
  }
}
