/**
 * Video transitions (Photon/Source/Media/VideoTransition.swift): a duration and a kind
 * (`none`, `fade`, `dissolve`). The Swift `.none` kind is written `NoneKind` here.
 */
module Transitions {
  import opened Timing

  datatype VideoTransitionType = NoneKind | Fade | Dissolve

  datatype VideoTransition = VideoTransition(timeRange: TimeRange, duration: Time, kind: VideoTransitionType) {

    /** `init(duration:type:)`: the time range is always `kCMTimeRangeZero`. */
    static function Make(duration: Time, kind: VideoTransitionType): (r: VideoTransition)
      ensures r.duration == duration && r.kind == kind && r.timeRange == ZeroRange
    {
      VideoTransition(ZeroRange, duration, kind)
    }

    /** `dissolve(duration:)`. */
    static function DissolveOf(duration: Time): (r: VideoTransition)
      ensures r.kind == Dissolve && r.duration == duration && r.timeRange == ZeroRange
    {
      Make(duration, Dissolve)
    }

    /** `fade(duration:)`. */
    static function FadeOf(duration: Time): (r: VideoTransition)
      ensures r.kind == Fade && r.duration == duration && r.timeRange == ZeroRange
    {
      Make(duration, Fade)
    }
  }

  /** `VideoTransition.none`: zero duration, kind `.none`. */
  function NoTransition(): (r: VideoTransition)
    ensures r.duration == 0.0 && r.kind == NoneKind && r.timeRange == ZeroRange
  {
    VideoTransition.Make(0.0, NoneKind)
  }

  /** The default `headTransition` of a `VideoTransitionable` is `.none`. */
  function DefaultHeadTransition(): (r: VideoTransition)
    ensures r == NoTransition()
  {
    NoTransition()
  }

  /** The default `tailTransition` of a `VideoTransitionable` is `.none`. */
  function DefaultTailTransition(): (r: VideoTransition)
    ensures r == NoTransition()
  {
    NoTransition()
  }

  /** A transition takes part in layout only when its kind is not `.none`; `.none` itself never does. */
  predicate IsEffective(t: VideoTransition) {
    t.kind != NoneKind
  }

  /** The constructors give effective transitions exactly for `fade` and `dissolve`. */
  lemma ConstructorsEffective(d: Time)
    ensures IsEffective(VideoTransition.DissolveOf(d)) && IsEffective(VideoTransition.FadeOf(d))
    ensures !IsEffective(NoTransition())
    ensures VideoTransition.Make(0.0, NoneKind) == NoTransition()
  {
  }
}
