/**
 * CoreMedia time (`CMTime`) and time ranges (`CMTimeRange`) as used by the builders.
 * A CMTime is a value over a timescale, i.e. a rational number of seconds; it is modelled
 * as an exact `real`. Time ranges are a start and a duration, as in CoreMedia.
 */
module Timing {

  type Time = real

  function Min(x: Time, y: Time): Time { if x <= y then x else y }
  function Max(x: Time, y: Time): Time { if x >= y then x else y }

  /** `CMTimeMultiplyByFloat64`, without the rounding to the operand's timescale. */
  function Scale(duration: Time, factor: real): Time {
    duration * factor
  }

  datatype TimeRange = TimeRange(start: Time, duration: Time) {

    function End(): Time {
      start + duration
    }

    /** `CMTimeRange.isEmpty`: a range of zero duration. */
    predicate IsEmpty() {
      duration == 0.0
    }

    /** `CMTimeRangeGetUnion`: the smallest range from the smaller start to the larger end. */
    function Union(other: TimeRange): (r: TimeRange)
      ensures r.start == Min(start, other.start) && r.End() == Max(End(), other.End())
    {
      var s := Min(start, other.start);
      TimeRange(s, Max(End(), other.End()) - s)
    }

    /**
     * `CMTimeRangeGetIntersection`: the overlap of the two ranges, or `kCMTimeRangeZero`
     * when they do not overlap.
     */
    function Intersection(other: TimeRange): (r: TimeRange)
      ensures Max(start, other.start) < Min(End(), other.End()) ==>
                r.start == Max(start, other.start) && r.End() == Min(End(), other.End())
      ensures Max(start, other.start) >= Min(End(), other.End()) ==> r == ZeroRange
    {
      var s := Max(start, other.start);
      var e := Min(End(), other.End());
      if s < e then TimeRange(s, e - s) else ZeroRange
    }

    /** Membership of a time, start inclusive and end exclusive (CMTimeRangeContainsTime). */
    predicate ContainsTime(t: Time) {
      start <= t < End()
    }
  }

  /** `kCMTimeRangeZero`. */
  const ZeroRange := TimeRange(0.0, 0.0)

  /** Two ranges share a stretch of positive length. */
  predicate Overlap(x: TimeRange, y: TimeRange) {
    Max(x.start, y.start) < Min(x.End(), y.End())
  }

  /** The intersection is non-empty exactly when the ranges overlap; it is commutative. */
  lemma IntersectionNonEmptyIffOverlap(x: TimeRange, y: TimeRange)
    ensures !x.Intersection(y).IsEmpty() <==> Overlap(x, y)
    ensures x.Intersection(y) == y.Intersection(x)
  {
  }

  /** Ranges that meet end to start (as consecutive pieces of a timeline do) do not overlap. */
  lemma AdjacentRangesDoNotOverlap(x: TimeRange, y: TimeRange)
    requires x.End() == y.start && x.duration >= 0.0 && y.duration >= 0.0
    ensures !Overlap(x, y) && x.Intersection(y).IsEmpty()
  {
  }
}
