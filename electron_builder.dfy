/**
 * `ElectronCompositionBuilder.build(with:)`
 * (Photon/Source/Builder/Composition/Electron/ElectronCompositionBuilder.swift): lays the items
 * out on the A/B lanes with one fixed transition duration `T` between neighbours. The cursor
 * moves by each item's duration minus `T`; the pass-through ranges and the transition ranges
 * are written into two arrays of one entry per item.
 */
module ElectronBuilders {
  import opened Optional
  import opened Timing
  import opened Geometry
  import opened MediaTypes
  import opened VideoItems
  import opened Compositions
  import opened ElectronCompositions
  import opened Lanes

  /** Where the cursor stands after the given items: each moves it by its duration minus `T`. */
  function Cursor(states: seq<ItemState>, T: Time): Time
  {
    if |states| == 0 then 0.0
    else Cursor(states[..|states| - 1], T) + states[|states| - 1].timeRange.duration - T
  }

  /** The sum of the items' durations. */
  function TotalDuration(states: seq<ItemState>): Time
  {
    if |states| == 0 then 0.0
    else TotalDuration(states[..|states| - 1]) + states[|states| - 1].timeRange.duration
  }

  /**
   * The pass-through range of item `i`: from the cursor plus `T` when a transition leads into
   * it, for its duration less `T` for each transition it takes part in.
   */
  function PassthroughRange(states: seq<ItemState>, T: Time, i: nat): (r: TimeRange)
    requires i < |states|
    ensures r.start == Cursor(states[..i], T) + (if i > 0 then T else 0.0)
    ensures r.duration == states[i].timeRange.duration - (if i > 0 then T else 0.0) - (if i + 1 < |states| then T else 0.0)
  {
    var range := TimeRange(Cursor(states[..i], T), states[i].timeRange.duration);
    var led := if i > 0 then TimeRange(range.start + T, range.duration - T) else range;
    if i + 1 < |states| then led.(duration := led.duration - T) else led
  }

  /** The transition range after item `i`: `T` long from the cursor after it, and zero for the last item. */
  function TransitionRange(states: seq<ItemState>, T: Time, i: nat): (r: TimeRange)
    requires i < |states|
    ensures i + 1 < |states| ==> r == TimeRange(Cursor(states[..i + 1], T), T)
    ensures i + 1 == |states| ==> r == ZeroRange
  {
    if i + 1 < |states| then TimeRange(Cursor(states[..i + 1], T), T) else ZeroRange
  }

  /** The electron item `s` becomes at position `index`, placed at `atTime` on the given lane tracks. */
  function ElectronFor(s: ItemState, index: nat, atTime: Time, audioTrack: int, videoTrack: int): (e: Electron)
    ensures e.id == index && e.assetID == Some(s.url) && e.scaleFactor == s.scaleFactor
    ensures e.atTime == atTime && e.timeRange == s.timeRange && e.filter == s.filter
    ensures e.hasAudioTrack <==> s.asset.audioTrack.Some?
    ensures e.hasAudioTrack ==> e.volume == s.volume && e.isMuted == s.isMuted && e.audioTrackID == audioTrack
    ensures !e.hasAudioTrack ==> e.volume == 1.0 && !e.isMuted && e.audioTrackID == InvalidTrackID
    ensures e.hasVideoTrack <==> s.asset.videoTrack.Some?
    ensures e.hasVideoTrack ==>
              e.orientation == OrientationOf(s.asset.videoTrack.value.preferredTransform) &&
              e.naturalSize == s.asset.videoTrack.value.naturalSize && e.videoTrackID == videoTrack
    ensures !e.hasVideoTrack ==> e.orientation == Up && e.naturalSize == ZeroSize && e.videoTrackID == InvalidTrackID
  {
    var e := NewElectron(index, Some(s.url), s.scaleFactor, atTime, s.timeRange, s.filter);
    var e' := if s.asset.audioTrack.Some? then
                e.(hasAudioTrack := true, volume := s.volume, isMuted := s.isMuted, audioTrackID := audioTrack)
              else e;
    if s.asset.videoTrack.Some? then
      var track := s.asset.videoTrack.value;
      e'.(hasVideoTrack := true, orientation := OrientationOf(track.preferredTransform),
          naturalSize := track.naturalSize, videoTrackID := videoTrack)
    else e'
  }

  /** The electrons of the given items, in order, item `i` on lanes `i % 2`. */
  function Electrons(states: seq<ItemState>, T: Time, audio: seq<int>, video: seq<int>): (r: seq<Electron>)
    requires LanesFit(|states|, audio, video)
    ensures |r| == |states|
  {
    if |states| == 0 then []
    else
      var prefix := states[..|states| - 1];
      var i := |states| - 1;
      Electrons(prefix, T, audio, video) + [ElectronFor(states[i], i, Cursor(prefix, T), audio[i % 2], video[i % 2])]
  }

  /** Every insertion made while laying out the items, in order. */
  function Insertions(states: seq<ItemState>, T: Time, audio: seq<int>, video: seq<int>): seq<Insertion>
    requires LanesFit(|states|, audio, video)
  {
    if |states| == 0 then []
    else
      var prefix := states[..|states| - 1];
      Insertions(prefix, T, audio, video) + ItemInsertions(states[|states| - 1], |states| - 1, Cursor(prefix, T), audio, video)
  }

  /**
   * `build(with:)`, for a builder whose `transitionDuration` is `T`. The lanes are those of
   * `Lanes`; both range arrays have one entry per item. Failures of AVFoundation to add a track
   * or insert a range are not modelled.
   */
  method Build(items: seq<VideoItem>, T: Time) returns (c: ElectronComposition)
    ensures fresh(c.composition) && c.composition.Valid()
    ensures c.electrons == Electrons(old(States(items)), T, AudioLanes(|items|), VideoLanes(|items|))
    ensures |c.passthroughTimeRanges| == |items| && |c.transitionTimeRanges| == |items|
    ensures forall i :: 0 <= i < |items| ==>
              c.passthroughTimeRanges[i] == PassthroughRange(old(States(items)), T, i) &&
              c.transitionTimeRanges[i] == TransitionRange(old(States(items)), T, i)
    ensures c.videoTracks == VideoLanes(|items|)
    ensures c.audioTracks == if HasAnyAudio(old(States(items))) then AudioLanes(|items|) else []
    ensures c.composition.insertions == Insertions(old(States(items)), T, AudioLanes(|items|), VideoLanes(|items|))
    ensures forall t :: t in c.composition.tracks <==>
              (t.mediaType == Video && t.id in c.videoTracks) || (t.mediaType == Audio && t.id in c.audioTracks)
  {
    ghost var states := States(items);
    var composition := new MutableComposition();
    var audioTracks, videoTracks := AddLanes(composition, |items|);
    var electrons, hasAudioTrack, passthrough, transition :=
      PlaceAll(composition, items, states, T, audioTracks, videoTracks);
    audioTracks := KeepAudioLanesIfUsed(composition, hasAudioTrack, |items|);
    c := ElectronComposition(composition, videoTracks, audioTracks, passthrough, transition, electrons);
  }

  /** The two range arrays of `build(with:)`, created zeroed and filled by the loop. */
  method PlaceAll(composition: MutableComposition, items: seq<VideoItem>, ghost states: seq<ItemState>, T: Time,
                  audioTracks: seq<int>, videoTracks: seq<int>)
    returns (electrons: seq<Electron>, hasAudioTrack: bool, passthrough: seq<TimeRange>, transition: seq<TimeRange>)
    requires |states| == |items| && forall i :: 0 <= i < |items| ==> states[i] == items[i].State()
    requires composition.insertions == []
    requires LanesFit(|items|, audioTracks, videoTracks)
    modifies composition`insertions
    ensures electrons == Electrons(states, T, audioTracks, videoTracks)
    ensures hasAudioTrack <==> HasAnyAudio(states)
    ensures composition.insertions == Insertions(states, T, audioTracks, videoTracks)
    ensures !hasAudioTrack ==> forall x :: x in composition.insertions ==> x.track in videoTracks
    ensures |passthrough| == |items| && |transition| == |items|
    ensures forall k :: 0 <= k < |items| ==>
              passthrough[k] == PassthroughRange(states, T, k) && transition[k] == TransitionRange(states, T, k)
  {
    var passthroughs := new TimeRange[|items|](_ => ZeroRange);
    var transitions := new TimeRange[|items|](_ => ZeroRange);
    electrons, hasAudioTrack :=
      PlaceItems(composition, items, states, T, audioTracks, videoTracks, passthroughs, transitions);
    passthrough, transition := passthroughs[..], transitions[..];
  }

  /**
   * The loop of `build(with:)`: item `index` becomes an electron at the cursor, its tracks are
   * inserted on lanes `index % 2`, and its pass-through and transition ranges are written.
   */
  method PlaceItems(composition: MutableComposition, items: seq<VideoItem>, ghost states: seq<ItemState>, T: Time,
                    audioTracks: seq<int>, videoTracks: seq<int>, passthrough: array<TimeRange>, transition: array<TimeRange>)
    returns (electrons: seq<Electron>, hasAudioTrack: bool)
    requires |states| == |items| && forall i :: 0 <= i < |items| ==> states[i] == items[i].State()
    requires composition.insertions == []
    requires LanesFit(|items|, audioTracks, videoTracks)
    requires passthrough.Length == |items| && transition.Length == |items| && passthrough != transition
    requires forall k :: 0 <= k < |items| ==> transition[k] == ZeroRange
    modifies composition`insertions, passthrough, transition
    ensures electrons == Electrons(states, T, audioTracks, videoTracks)
    ensures hasAudioTrack <==> HasAnyAudio(states)
    ensures composition.insertions == Insertions(states, T, audioTracks, videoTracks)
    ensures !hasAudioTrack ==> forall x :: x in composition.insertions ==> x.track in videoTracks
    ensures forall k :: 0 <= k < |items| ==>
              passthrough[k] == PassthroughRange(states, T, k) && transition[k] == TransitionRange(states, T, k)
  {
    hasAudioTrack := false;
    var atTime := 0.0;
    electrons := [];
    for index := 0 to |items|
      invariant electrons == Electrons(states[..index], T, audioTracks, videoTracks) && atTime == Cursor(states[..index], T)
      invariant hasAudioTrack <==> HasAnyAudio(states[..index])
      invariant composition.insertions == Insertions(states[..index], T, audioTracks, videoTracks)
      invariant forall k :: 0 <= k < index ==>
                  passthrough[k] == PassthroughRange(states, T, k) && transition[k] == TransitionRange(states, T, k)
      invariant index < |items| ==> transition[|items| - 1] == ZeroRange
    {
      var item := items[index];
      PrefixStep(states, T, index, audioTracks, videoTracks);
      var electron := PlaceItem(composition, item, states[index], index, atTime, audioTracks, videoTracks);
      electrons := electrons + [electron];
      if item.asset.audioTrack.Some? {
        hasAudioTrack := true;
      }
      atTime := WriteRanges(passthrough, transition, states, index, atTime, item.timeRange.duration, T);
    }
    assert states[..|items|] == states;
    if !hasAudioTrack {
      NoAudioMeansVideoOnly(states, T, audioTracks, videoTracks);
    }
  }

  /** One turn of the loop: the electron of item `index` at `atTime`, its tracks inserted on lanes `index % 2`. */
  method PlaceItem(composition: MutableComposition, item: VideoItem, ghost s: ItemState, index: nat, atTime: Time,
                   audioTracks: seq<int>, videoTracks: seq<int>) returns (electron: Electron)
    requires s == item.State()
    requires index == 0 || (|audioTracks| >= 2 && |videoTracks| >= 2)
    requires |audioTracks| >= 1 && |videoTracks| >= 1
    modifies composition`insertions
    ensures electron == ElectronFor(s, index, atTime, audioTracks[index % 2], videoTracks[index % 2])
    ensures composition.insertions == old(composition.insertions) + ItemInsertions(s, index, atTime, audioTracks, videoTracks)
  {
    var lane := index % 2;
    var asset := item.asset;
    electron := NewElectron(index, Some(item.Id()), item.scaleFactor, atTime, item.timeRange, item.filter);
    if asset.audioTrack.Some? {
      composition.InsertTimeRange(item.timeRange, audioTracks[lane], atTime);
      electron := electron.(hasAudioTrack := true, volume := item.volume, isMuted := item.IsMuted(),
                            audioTrackID := audioTracks[lane]);
    }
    if asset.videoTrack.Some? {
      var videoTrack := asset.videoTrack.value;
      composition.InsertTimeRange(item.timeRange, videoTracks[lane], atTime);
      electron := electron.(hasVideoTrack := true, orientation := OrientationOf(videoTrack.preferredTransform),
                            naturalSize := videoTrack.naturalSize, videoTrackID := videoTracks[lane]);
    }
  }

  /**
   * The range bookkeeping of one turn: pass-through `index` starts at the cursor and lasts the
   * item's duration, moved on by `T` when a transition leads into it and shortened by `T` when
   * one leads out; the cursor moves by the duration less `T`; the transition after a non-last
   * item starts at the new cursor and lasts `T`, and the last entry is left as it was.
   */
  method WriteRanges(passthrough: array<TimeRange>, transition: array<TimeRange>, ghost states: seq<ItemState>,
                     index: nat, atTime: Time, duration: Time, T: Time) returns (next: Time)
    requires index < |states| && passthrough.Length == |states| && transition.Length == |states|
    requires passthrough != transition
    requires atTime == Cursor(states[..index], T) && duration == states[index].timeRange.duration
    requires index + 1 == |states| ==> transition[index] == ZeroRange
    modifies passthrough, transition
    ensures next == Cursor(states[..index + 1], T)
    ensures passthrough[index] == PassthroughRange(states, T, index)
    ensures transition[index] == TransitionRange(states, T, index)
    ensures forall k :: 0 <= k < |states| && k != index ==>
              passthrough[k] == old(passthrough[k]) && transition[k] == old(transition[k])
  {
    assert states[..index + 1][..index] == states[..index];
    passthrough[index] := TimeRange(atTime, duration);
    if index > 0 {
      passthrough[index] := TimeRange(passthrough[index].start + T, passthrough[index].duration - T);
    }
    if index + 1 < passthrough.Length {
      passthrough[index] := passthrough[index].(duration := passthrough[index].duration - T);
    }
    next := atTime + duration;
    next := next - T;
    if index + 1 < transition.Length {
      transition[index] := TimeRange(next, T);
    }
  }

  /** How the electrons, the cursor, the audio presence and the insertions grow by one item. */
  lemma PrefixStep(states: seq<ItemState>, T: Time, index: nat, audio: seq<int>, video: seq<int>)
    requires index < |states|
    requires LanesFit(|states|, audio, video)
    ensures Electrons(states[..index + 1], T, audio, video)
              == Electrons(states[..index], T, audio, video)
                 + [ElectronFor(states[index], index, Cursor(states[..index], T), audio[index % 2], video[index % 2])]
    ensures Cursor(states[..index + 1], T) == Cursor(states[..index], T) + states[index].timeRange.duration - T
    ensures HasAnyAudio(states[..index + 1]) <==> HasAnyAudio(states[..index]) || states[index].asset.audioTrack.Some?
    ensures Insertions(states[..index + 1], T, audio, video)
              == Insertions(states[..index], T, audio, video)
                 + ItemInsertions(states[index], index, Cursor(states[..index], T), audio, video)
  {
    assert states[..index + 1][..index] == states[..index];
  }

  /** Without audio in any item, every insertion is on a video lane. */
  lemma {:induction false} NoAudioMeansVideoOnly(states: seq<ItemState>, T: Time, audio: seq<int>, video: seq<int>)
    requires LanesFit(|states|, audio, video)
    requires !HasAnyAudio(states)
    ensures forall x :: x in Insertions(states, T, audio, video) ==> x.track in video
    decreases |states|
  {
    if |states| > 0 {
      NoAudioMeansVideoOnly(states[..|states| - 1], T, audio, video);
    }
  }

  /** The cursor after the items is their total duration less `T` for each of them. */
  lemma {:induction false} CursorIsSum(states: seq<ItemState>, T: Time)
    ensures Cursor(states, T) == TotalDuration(states) - (|states| as real) * T
    decreases |states|
  {
    if |states| > 0 {
      CursorIsSum(states[..|states| - 1], T);
    }
  }

  /**
   * The ranges tile the timeline: pass-through `i` ends where transition `i` starts, and
   * transition `i` ends where pass-through `i + 1` starts.
   */
  lemma {:induction false} RangesAreContiguous(states: seq<ItemState>, T: Time, i: nat)
    requires i + 1 < |states|
    ensures PassthroughRange(states, T, i).End() == TransitionRange(states, T, i).start
    ensures TransitionRange(states, T, i).End() == PassthroughRange(states, T, i + 1).start
  {
    assert states[..i + 1][..i] == states[..i];
  }

  /**
   * The first pass-through starts at zero and the last one ends at the total duration less
   * `T` for each of the `n - 1` transitions.
   */
  lemma {:induction false} RangesSpanTimeline(states: seq<ItemState>, T: Time)
    requires |states| > 0
    ensures PassthroughRange(states, T, 0).start == 0.0
    ensures PassthroughRange(states, T, |states| - 1).End() == TotalDuration(states) - ((|states| - 1) as real) * T
  {
    var n := |states|;
    assert states[..n] == states;
    assert states[..0] == [];
    CursorIsSum(states, T);
  }

  /** Electron `i` stands at the cursor after the items before it, on lanes `i % 2`. */
  lemma {:induction false} ElectronAt(states: seq<ItemState>, T: Time, audio: seq<int>, video: seq<int>, i: nat)
    requires LanesFit(|states|, audio, video)
    requires i < |states|
    ensures Electrons(states, T, audio, video)[i]
              == ElectronFor(states[i], i, Cursor(states[..i], T), audio[i % 2], video[i % 2])
    decreases |states|
  {
    var last := |states| - 1;
    var prefix := states[..last];
    if i < last {
      ElectronAt(prefix, T, audio, video, i);
      assert prefix[..i] == states[..i];
    }
  }
}
