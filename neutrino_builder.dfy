/**
 * `NeutrinoCompositionBuilder.build(with:)`
 * (Photon/Source/Builder/Composition/Neutrino/NeutrinoCompositionBuilder.swift): lays the items
 * out one after another on two alternating lanes (A/B) per media type, with a cursor that moves
 * by each item's unscaled duration minus its tail transition, and records one segment per item.
 */
module NeutrinoBuilders {
  import opened Optional
  import opened Timing
  import opened Geometry
  import opened Transitions
  import opened MediaTypes
  import opened VideoItems
  import opened Segments
  import opened Compositions
  import opened NeutrinoCompositions
  import opened Lanes

  /** The segment item `s` becomes at position `index` when the cursor stands at `atTime`. */
  function SegmentFor(s: ItemState, index: nat, atTime: Time): (r: Segment)
    ensures r.id == index && r.assetID == Some(s.url) && r.atTime == atTime
    ensures r.timeRange == s.timeRange && r.scaleFactor == s.scaleFactor
    ensures r.audio.Some? <==> s.asset.audioTrack.Some?
    ensures r.audio.Some? ==> r.audio.value == AudioSegment(atTime, s.volume, s.isMuted)
    ensures r.video.Some? <==> s.asset.videoTrack.Some?
    ensures r.video.Some? ==>
              r.video.value.headTransition == Some(s.headTransition) &&
              r.video.value.tailTransition == Some(s.tailTransition) &&
              r.video.value.atTime == atTime &&
              r.video.value.orientation == OrientationOf(s.asset.videoTrack.value.preferredTransform) &&
              r.video.value.naturalSize == s.asset.videoTrack.value.naturalSize
  {
    var audio := if s.asset.audioTrack.Some? then Some(AudioSegment(atTime, s.volume, s.isMuted)) else None;
    var video :=
      if s.asset.videoTrack.Some? then
        var track := s.asset.videoTrack.value;
        Some(VideoSegment(OrientationOf(track.preferredTransform), track.naturalSize, atTime,
                          Some(s.headTransition), Some(s.tailTransition)))
      else None;
    Segment(index, Some(s.url), s.scaleFactor, atTime, s.timeRange, video, audio)
  }

  /** Where the cursor stands after the given items: each moves it by its unscaled duration minus its tail. */
  function Cursor(states: seq<ItemState>): Time
  {
    if |states| == 0 then 0.0
    else
      var last := states[|states| - 1];
      Cursor(states[..|states| - 1]) + last.timeRange.duration - last.tailTransition.duration
  }

  /** The segments of the given items, in order. */
  function Layout(states: seq<ItemState>): (r: seq<Segment>)
    ensures |r| == |states|
  {
    if |states| == 0 then []
    else
      var prefix := states[..|states| - 1];
      Layout(prefix) + [SegmentFor(states[|states| - 1], |states| - 1, Cursor(prefix))]
  }

  /** Every insertion made while laying out the items, in order. */
  function Insertions(states: seq<ItemState>, audio: seq<int>, video: seq<int>): seq<Insertion>
    requires LanesFit(|states|, audio, video)
  {
    if |states| == 0 then []
    else
      var prefix := states[..|states| - 1];
      Insertions(prefix, audio, video)
        + ItemInsertions(states[|states| - 1], |states| - 1, Cursor(prefix), audio, video)
  }

  /**
   * `build(with:)`. Audio lane A and video lane A always exist, lane B of each only for more
   * than one item. Item `i` is placed on lanes `i % 2` at the cursor, its audio inserted when its
   * asset has an audio track and its video when it has a video track. When no item has audio,
   * the audio lanes are removed again. Failures of AVFoundation to add a track or insert a
   * range are not modelled.
   */
  method Build(items: seq<VideoItem>) returns (c: NeutrinoComposition)
    ensures fresh(c.composition) && c.composition.Valid()
    ensures c.segments == Layout(old(States(items)))
    ensures c.videoTracks == VideoLanes(|items|)
    ensures c.audioTracks == if HasAnyAudio(old(States(items))) then AudioLanes(|items|) else []
    ensures c.composition.insertions == Insertions(old(States(items)), AudioLanes(|items|), VideoLanes(|items|))
    ensures forall t :: t in c.composition.tracks <==>
              (t.mediaType == Video && t.id in c.videoTracks) || (t.mediaType == Audio && t.id in c.audioTracks)
  {
    ghost var states := States(items);
    var composition := new MutableComposition();
    var audioTracks, videoTracks := AddLanes(composition, |items|);
    var segments, hasAudioTrack := PlaceItems(composition, items, states, audioTracks, videoTracks);
    audioTracks := KeepAudioLanesIfUsed(composition, hasAudioTrack, |items|);
    c := NeutrinoComposition(composition, videoTracks, audioTracks, segments);
  }

  /** The loop of `build(with:)`: one segment per item at the cursor, and the insertions on lanes `i % 2`. */
  method PlaceItems(composition: MutableComposition, items: seq<VideoItem>, ghost states: seq<ItemState>,
                    audioTracks: seq<int>, videoTracks: seq<int>)
    returns (segments: seq<Segment>, hasAudioTrack: bool)
    requires |states| == |items| && forall i :: 0 <= i < |items| ==> states[i] == items[i].State()
    requires composition.insertions == []
    requires LanesFit(|items|, audioTracks, videoTracks)
    modifies composition`insertions
    ensures segments == Layout(states)
    ensures hasAudioTrack <==> HasAnyAudio(states)
    ensures composition.insertions == Insertions(states, audioTracks, videoTracks)
    ensures !hasAudioTrack ==> forall x :: x in composition.insertions ==> x.track in videoTracks
  {
    hasAudioTrack := false;
    var atTime := 0.0;
    segments := [];
    for index := 0 to |items|
      invariant segments == Layout(states[..index]) && atTime == Cursor(states[..index])
      invariant hasAudioTrack <==> HasAnyAudio(states[..index])
      invariant composition.insertions == Insertions(states[..index], audioTracks, videoTracks)
    {
      var item := items[index];
      PrefixStep(states, index, audioTracks, videoTracks);
      var segment := PlaceItem(composition, item, states[index], index, atTime, audioTracks, videoTracks);
      segments := segments + [segment];
      atTime := atTime + item.timeRange.duration;
      atTime := atTime - item.tailTransition.duration;
      if item.asset.audioTrack.Some? {
        hasAudioTrack := true;
      }
    }
    assert states[..|items|] == states;
    if !hasAudioTrack {
      NoAudioMeansVideoOnly(states, audioTracks, videoTracks);
    }
  }

  /** One turn of the loop of `build(with:)`: item `index` becomes a segment at `atTime`, its tracks inserted on lanes `index % 2`. */
  method PlaceItem(composition: MutableComposition, item: VideoItem, ghost s: ItemState, index: nat, atTime: Time,
                   audioTracks: seq<int>, videoTracks: seq<int>) returns (segment: Segment)
    requires s == item.State()
    requires index == 0 || (|audioTracks| >= 2 && |videoTracks| >= 2)
    requires |audioTracks| >= 1 && |videoTracks| >= 1
    modifies composition`insertions
    ensures segment == SegmentFor(s, index, atTime)
    ensures composition.insertions == old(composition.insertions) + ItemInsertions(s, index, atTime, audioTracks, videoTracks)
  {
    var lane := index % 2;
    var asset := item.asset;
    segment := Segment(index, Some(item.Id()), item.scaleFactor, atTime, item.timeRange, None, None);
    if asset.audioTrack.Some? {
      composition.InsertTimeRange(item.timeRange, audioTracks[lane], atTime);
      segment := segment.(audio := Some(AudioSegment(atTime, item.volume, item.IsMuted())));
    }
    if asset.videoTrack.Some? {
      var videoTrack := asset.videoTrack.value;
      composition.InsertTimeRange(item.timeRange, videoTracks[lane], atTime);
      var trackOrientation := OrientationOf(videoTrack.preferredTransform);
      segment := segment.(video := Some(VideoSegment(trackOrientation, videoTrack.naturalSize, atTime,
                                                     Some(item.headTransition), Some(item.tailTransition))));
    }
  }

  /** How the layout, the cursor, the audio presence and the insertions grow by one item. */
  lemma PrefixStep(states: seq<ItemState>, index: nat, audio: seq<int>, video: seq<int>)
    requires index < |states|
    requires LanesFit(|states|, audio, video)
    ensures Layout(states[..index + 1]) == Layout(states[..index]) + [SegmentFor(states[index], index, Cursor(states[..index]))]
    ensures Cursor(states[..index + 1])
              == Cursor(states[..index]) + states[index].timeRange.duration - states[index].tailTransition.duration
    ensures HasAnyAudio(states[..index + 1]) <==> HasAnyAudio(states[..index]) || states[index].asset.audioTrack.Some?
    ensures Insertions(states[..index + 1], audio, video)
              == Insertions(states[..index], audio, video) + ItemInsertions(states[index], index, Cursor(states[..index]), audio, video)
  {
    assert states[..index + 1][..index] == states[..index];
  }

  /** Without audio in any item, every insertion is on a video lane. */
  lemma {:induction false} NoAudioMeansVideoOnly(states: seq<ItemState>, audio: seq<int>, video: seq<int>)
    requires LanesFit(|states|, audio, video)
    requires !HasAnyAudio(states)
    ensures forall x :: x in Insertions(states, audio, video) ==> x.track in video
    decreases |states|
  {
    if |states| > 0 {
      var prefix := states[..|states| - 1];
      NoAudioMeansVideoOnly(prefix, audio, video);
    }
  }

  /** Segment `i` is item `i` made into a segment at the cursor left by the items before it. */
  lemma {:induction false} LayoutAt(states: seq<ItemState>, i: nat)
    requires i < |states|
    ensures Layout(states)[i] == SegmentFor(states[i], i, Cursor(states[..i]))
    decreases |states|
  {
    var prefix := states[..|states| - 1];
    if i < |prefix| {
      LayoutAt(prefix, i);
      assert prefix[..i] == states[..i];
    }
  }

  /**
   * The first segment starts at zero and every later one where the one before it started,
   * moved on by that item's unscaled duration less its tail transition's duration.
   */
  lemma {:induction false} SegmentsFollow(states: seq<ItemState>, i: nat)
    requires i + 1 < |states|
    ensures Layout(states)[0].atTime == 0.0
    ensures Layout(states)[i + 1].atTime
              == Layout(states)[i].atTime + states[i].timeRange.duration - states[i].tailTransition.duration
  {
    LayoutAt(states, 0);
    LayoutAt(states, i);
    LayoutAt(states, i + 1);
    assert states[..i + 1][..i] == states[..i];
  }

  /**
   * The next segment starts where this segment's tail transition starts, shifted by the
   * difference between the unscaled and the scaled duration: the cursor moves by the unscaled
   * duration while the segment's pieces are laid out over the scaled one. At normal speed
   * the two meet exactly.
   */
  lemma {:induction false} NextStartsAtTail(states: seq<ItemState>, i: nat)
    requires i + 1 < |states|
    requires Layout(states)[i].HasTail()
    ensures Layout(states)[i + 1].atTime
              == Layout(states)[i].TailTransitionTimeRange().start
                 + (states[i].timeRange.duration - Layout(states)[i].ScaledDuration())
    ensures states[i].scaleFactor == 1.0 ==>
              Layout(states)[i + 1].atTime == Layout(states)[i].TailTransitionTimeRange().start
  {
    SegmentsFollow(states, i);
    LayoutAt(states, i);
    PiecesTile(Layout(states)[i]);
  }

  /**
   * Every segment of the layout carries both transition objects, so an audible one gets
   * exactly three ramps: fade-in, sustain, fade-out.
   */
  lemma {:induction false} AudibleSegmentHasThreeRamps(states: seq<ItemState>, i: nat)
    requires i < |states|
    requires Layout(states)[i].Audible()
    ensures |Layout(states)[i].VolumeAutomations()| == 3
  {
    LayoutAt(states, i);
  }

  /** A segment has audio exactly when its item's asset has an audio track, and video likewise. */
  lemma {:induction false} SegmentMedia(states: seq<ItemState>, i: nat)
    requires i < |states|
    ensures Layout(states)[i].audio.Some? <==> states[i].asset.audioTrack.Some?
    ensures Layout(states)[i].video.Some? <==> states[i].asset.videoTrack.Some?
    ensures Layout(states)[i].id == i
  {
    LayoutAt(states, i);
  }
}
