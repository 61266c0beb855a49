/**
 * Segments of the Neutrino layout (Photon/Source/Builder/Track/Segment.swift): one clip placed
 * at `atTime` on the timeline, cut into a head transition, a pass-through and a tail transition,
 * with the volume ramps its audio gets.
 */
module Segments {
  import opened Optional
  import opened Timing
  import opened Geometry
  import opened Transitions
  import opened Volume

  /** The audio part of a segment: where it starts, its volume and whether it is muted. */
  datatype AudioSegment = AudioSegment(atTime: Time, volume: real, isMuted: bool)

  /** The video part of a segment: orientation and size of the source track and its transitions. */
  datatype VideoSegment = VideoSegment(
    orientation: ImageOrientation,
    naturalSize: Size,
    atTime: Time,
    headTransition: Option<VideoTransition>,
    tailTransition: Option<VideoTransition>)

  /** A transition takes part in layout when it exists and its kind is not `.none`. */
  predicate Takes(t: Option<VideoTransition>) {
    t.Some? && IsEffective(t.value)
  }

  datatype Segment = Segment(
    id: int,
    assetID: Option<string>,
    scaleFactor: real,
    atTime: Time,
    timeRange: TimeRange,
    video: Option<VideoSegment>,
    audio: Option<AudioSegment>)
  {
    /** The length the segment plays for: the source duration scaled by the speed factor. */
    function ScaledDuration(): Time {
      Scale(timeRange.duration, scaleFactor)
    }

    predicate HasHead() {
      video.Some? && Takes(video.value.headTransition)
    }

    predicate HasTail() {
      video.Some? && Takes(video.value.tailTransition)
    }

    /** `headTransitionTimeRange`: starts at `atTime`; lasts the head's duration only when there is an effective head. */
    function HeadTransitionTimeRange(): (r: TimeRange)
      ensures r.start == atTime
      ensures HasHead() ==> r.duration == video.value.headTransition.value.duration
      ensures !HasHead() ==> r.duration == 0.0
    {
      if HasHead() then TimeRange(atTime, video.value.headTransition.value.duration)
      else TimeRange(atTime, 0.0)
    }

    /**
     * `passthroughTimeRange`: starts where the head ends and lasts the scaled duration minus the
     * head and, when there is an effective tail, minus the tail.
     */
    function PassthroughTimeRange(): (r: TimeRange)
      ensures r.start == HeadTransitionTimeRange().End()
      ensures HasTail() ==>
                r.duration == ScaledDuration() - HeadTransitionTimeRange().duration - video.value.tailTransition.value.duration
      ensures !HasTail() ==> r.duration == ScaledDuration() - HeadTransitionTimeRange().duration
    {
      var head := HeadTransitionTimeRange().duration;
      var duration := ScaledDuration() - head;
      TimeRange(atTime + head, if HasTail() then duration - video.value.tailTransition.value.duration else duration)
    }

    /** `tailTransitionTimeRange`: starts where the pass-through ends; lasts the tail only when it is effective. */
    function TailTransitionTimeRange(): (r: TimeRange)
      ensures r.start == PassthroughTimeRange().End()
      ensures HasTail() ==> r.duration == video.value.tailTransition.value.duration
      ensures !HasTail() ==> r.duration == 0.0
    {
      var passthrough := PassthroughTimeRange();
      TimeRange(passthrough.End(), if HasTail() then video.value.tailTransition.value.duration else 0.0)
    }

    /** `insertedTimeRange`: the union of head, pass-through and tail. */
    function InsertedTimeRange(): (r: TimeRange)
      ensures r.start == Min(Min(atTime, PassthroughTimeRange().start), TailTransitionTimeRange().start)
      ensures r.End() == Max(Max(HeadTransitionTimeRange().End(), PassthroughTimeRange().End()), TailTransitionTimeRange().End())
    {
      HeadTransitionTimeRange().Union(PassthroughTimeRange()).Union(TailTransitionTimeRange())
    }

    /** The audio is heard: the segment has video and audio and the audio is not muted. */
    predicate Audible() {
      video.Some? && audio.Some? && !audio.value.isMuted
    }

    /**
     * `volumeAutomations`: an inaudible segment gets a single 0 -> 0 ramp over its inserted range.
     * Otherwise: a fade-in 0 -> volume over the head range whenever a head object exists (even one
     * of kind `.none`, whose range is empty), a sustain at the volume over the pass-through, and a
     * fade-out volume -> 0 over the tail range whenever a tail object exists.
     */
    function VolumeAutomations(): (r: seq<VolumeAutomation>)
      ensures !Audible() ==> r == [VolumeAutomation(InsertedTimeRange(), 0.0, 0.0)]
      ensures Audible() ==>
                |r| == 1 + (if video.value.headTransition.Some? then 1 else 0)
                         + (if video.value.tailTransition.Some? then 1 else 0)
      ensures Audible() && video.value.headTransition.Some? ==>
                r[0] == VolumeAutomation(HeadTransitionTimeRange(), 0.0, audio.value.volume)
      ensures Audible() && video.value.tailTransition.Some? ==>
                r[|r| - 1] == VolumeAutomation(TailTransitionTimeRange(), audio.value.volume, 0.0)
      ensures Audible() ==>
                VolumeAutomation(PassthroughTimeRange(), audio.value.volume, audio.value.volume)
                  == r[if video.value.headTransition.Some? then 1 else 0]
    {
      if !Audible() then
        [VolumeAutomation(InsertedTimeRange(), 0.0, 0.0)]
      else
        var volume := audio.value.volume;
        var fadeIn := if video.value.headTransition.Some? then [VolumeAutomation(HeadTransitionTimeRange(), 0.0, volume)] else [];
        var sustain := [VolumeAutomation(PassthroughTimeRange(), volume, volume)];
        var fadeOut := if video.value.tailTransition.Some? then [VolumeAutomation(TailTransitionTimeRange(), volume, 0.0)] else [];
        fadeIn + sustain + fadeOut
    }
  }

  /**
   * Head, pass-through and tail follow each other without gap or overlap and together cover
   * exactly the scaled duration, starting at `atTime`.
   */
  lemma PiecesTile(s: Segment)
    ensures s.HeadTransitionTimeRange().start == s.atTime
    ensures s.HeadTransitionTimeRange().End() == s.PassthroughTimeRange().start
    ensures s.PassthroughTimeRange().End() == s.TailTransitionTimeRange().start
    ensures s.TailTransitionTimeRange().End() == s.atTime + s.ScaledDuration()
  {
  }

  /**
   * When no piece has a negative length the inserted range is exactly `[atTime, atTime + scaled)`.
   * (In this model, where a union is plain min/max arithmetic, a negative pass-through makes the
   * union reach past that end.)
   */
  lemma InsertedIsScaledSpan(s: Segment)
    requires s.HeadTransitionTimeRange().duration >= 0.0
    requires s.PassthroughTimeRange().duration >= 0.0
    requires s.TailTransitionTimeRange().duration >= 0.0
    ensures s.InsertedTimeRange() == TimeRange(s.atTime, s.ScaledDuration())
  {
    PiecesTile(s);
  }

  /** Consecutive ramps sit end to start on the timeline and hand the volume level over unchanged. */
  predicate Continuous(ramps: seq<VolumeAutomation>) {
    forall k :: 0 <= k < |ramps| - 1 ==>
      ramps[k].timeRange.End() == ramps[k + 1].timeRange.start && ramps[k].end == ramps[k + 1].start
  }

  /**
   * An audible segment's ramps are continuous and span exactly the segment: they start at
   * `atTime` (at level 0 when there is a head object), end at `atTime + scaled` (at level 0 when
   * there is a tail object), and hold the volume in between.
   */
  lemma AudibleRampsAreContinuous(s: Segment)
    requires s.Audible()
    ensures Continuous(s.VolumeAutomations())
    ensures s.VolumeAutomations()[0].timeRange.start == s.atTime
    ensures s.VolumeAutomations()[|s.VolumeAutomations()| - 1].timeRange.End() == s.atTime + s.ScaledDuration()
    ensures s.VolumeAutomations()[0].start == (if s.video.value.headTransition.Some? then 0.0 else s.audio.value.volume)
    ensures s.VolumeAutomations()[|s.VolumeAutomations()| - 1].end ==
              (if s.video.value.tailTransition.Some? then 0.0 else s.audio.value.volume)
  {
    PiecesTile(s);
    var r := s.VolumeAutomations();
    var h := if s.video.value.headTransition.Some? then 1 else 0;
    forall k | 0 <= k < |r| - 1
      ensures r[k].timeRange.End() == r[k + 1].timeRange.start && r[k].end == r[k + 1].start
    {
      if k < h {
        assert r[k].timeRange == s.HeadTransitionTimeRange();
        assert r[k + 1].timeRange == s.PassthroughTimeRange();
      } else {
        assert r[k].timeRange == s.PassthroughTimeRange();
        assert r[k + 1].timeRange == s.TailTransitionTimeRange();
      }
    }
  }
}
