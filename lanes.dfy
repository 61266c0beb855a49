/**
 * The A/B lanes both composition builders (Neutrino and Electron) set up on a fresh
 * `AVMutableComposition`: audio lane A, audio lane B for more than one item, then video lane A
 * and video lane B likewise; item `i` goes to lane `i % 2`; the audio lanes are removed again
 * when no item has audio. The two builders repeat this code in
 * Photon/Source/Builder/Composition/Neutrino/NeutrinoCompositionBuilder.swift and
 * Photon/Source/Builder/Composition/Electron/ElectronCompositionBuilder.swift; it is stated once here.
 */
module Lanes {
  import opened Timing
  import opened MediaTypes
  import opened VideoItems
  import opened Compositions

  /** Some item has an audio track. */
  predicate HasAnyAudio(states: seq<ItemState>) {
    |states| > 0 && (HasAnyAudio(states[..|states| - 1]) || states[|states| - 1].asset.audioTrack.Some?)
  }

  /** The track ids of the audio lanes a fresh composition hands out: A, and B when there are several items. */
  function AudioLanes(count: nat): (r: seq<int>)
    ensures |r| == (if count > 1 then 2 else 1)
  {
    if count > 1 then [1, 2] else [1]
  }

  /** The track ids of the video lanes, created after the audio ones. */
  function VideoLanes(count: nat): (r: seq<int>)
    ensures |r| == (if count > 1 then 2 else 1)
  {
    if count > 1 then [3, 4] else [2]
  }

  /** The tracks a fresh composition holds once the lanes are added. */
  function LaneTracks(count: nat): seq<Track> {
    if count > 1 then [Track(1, Audio), Track(2, Audio), Track(3, Video), Track(4, Video)]
    else [Track(1, Audio), Track(2, Video)]
  }

  /** The lane tracks are the audio lanes as audio tracks and the video lanes as video tracks. */
  lemma LaneTrackMembership(count: nat)
    ensures forall t :: t in LaneTracks(count) <==>
              (t.mediaType == Video && t.id in VideoLanes(count)) || (t.mediaType == Audio && t.id in AudioLanes(count))
    ensures forall t :: t in LaneTracks(count) && t.id !in AudioLanes(count) <==>
              t.mediaType == Video && t.id in VideoLanes(count)
  {
  }

  /** Lane ids are valid and audio and video lanes never share an id. */
  lemma LanesDistinct(count: nat)
    ensures forall a :: a in AudioLanes(count) ==> a != InvalidTrackID && a !in VideoLanes(count)
    ensures forall v :: v in VideoLanes(count) ==> v != InvalidTrackID
  {
  }

  /** There is a lane A of each media type, and a lane B of each when there are several items. */
  predicate LanesFit(count: nat, audio: seq<int>, video: seq<int>) {
    |audio| >= 1 && |video| >= 1 && (count > 1 ==> |audio| >= 2 && |video| >= 2)
  }

  /** What placing one item inserts: its range on the audio lane `index % 2` and on the video lane `index % 2`. */
  function ItemInsertions(s: ItemState, index: nat, atTime: Time, audio: seq<int>, video: seq<int>): seq<Insertion>
    requires index == 0 || (|audio| >= 2 && |video| >= 2)
    requires |audio| >= 1 && |video| >= 1
  {
    (if s.asset.audioTrack.Some? then [Insertion(audio[index % 2], s.timeRange, atTime)] else [])
      + (if s.asset.videoTrack.Some? then [Insertion(video[index % 2], s.timeRange, atTime)] else [])
  }

  /** The end of `build(with:)` in both layouts: when no item had audio, the audio lanes are removed. */
  method KeepAudioLanesIfUsed(composition: MutableComposition, used: bool, count: nat) returns (audioTracks: seq<int>)
    requires composition.Valid() && composition.tracks == LaneTracks(count)
    requires !used ==> forall x :: x in composition.insertions ==> x.track in VideoLanes(count)
    modifies composition`tracks, composition`insertions
    ensures composition.Valid()
    ensures composition.insertions == old(composition.insertions)
    ensures audioTracks == if used then AudioLanes(count) else []
    ensures forall t :: t in composition.tracks <==>
              (t.mediaType == Video && t.id in VideoLanes(count)) || (t.mediaType == Audio && t.id in audioTracks)
  {
    LaneTrackMembership(count);
    audioTracks := AudioLanes(count);
    if !used {
      LanesDistinct(count);
      RemoveTracks(composition, audioTracks);
      audioTracks := [];
    }
  }

  /** The lane tracks of a fresh composition: audio A (and B), then video A (and B) for several items. */
  method AddLanes(composition: MutableComposition, count: nat) returns (audioTracks: seq<int>, videoTracks: seq<int>)
    requires composition.Valid() && composition.tracks == [] && composition.nextTrackID == 1
    modifies composition`tracks, composition`nextTrackID
    ensures composition.Valid()
    ensures audioTracks == AudioLanes(count) && videoTracks == VideoLanes(count)
    ensures composition.tracks == LaneTracks(count)
  {
    audioTracks := AddLanePair(composition, count, Audio);
    videoTracks := AddLanePair(composition, count, Video);
  }

  /** Lane A of one media type, and lane B after it when there are several items. */
  method AddLanePair(composition: MutableComposition, count: nat, mediaType: MediaType) returns (ids: seq<int>)
    requires composition.Valid()
    modifies composition`tracks, composition`nextTrackID
    ensures composition.Valid()
    ensures var first := old(composition.nextTrackID);
            ids == (if count > 1 then [first, first + 1] else [first]) &&
            composition.nextTrackID == first + |ids| &&
            composition.tracks == old(composition.tracks) +
              (if count > 1 then [Track(first, mediaType), Track(first + 1, mediaType)] else [Track(first, mediaType)])
  {
    var trackA := composition.AddMutableTrack(mediaType);
    ids := [trackA];
    if count > 1 {
      var trackB := composition.AddMutableTrack(mediaType);
      ids := ids + [trackB];
    }
  }

  /** `for track in audioTracks { composition.removeTrack(track) }`, for tracks nothing was inserted on. */
  method RemoveTracks(composition: MutableComposition, ids: seq<int>)
    requires composition.Valid()
    requires forall x :: x in composition.insertions ==> x.track !in ids
    modifies composition`tracks, composition`insertions
    ensures composition.Valid()
    ensures composition.insertions == old(composition.insertions)
    ensures forall t :: t in composition.tracks <==> t in old(composition.tracks) && t.id !in ids
  {
    for k := 0 to |ids|
      invariant composition.Valid()
      invariant composition.insertions == old(composition.insertions)
      invariant forall t :: t in composition.tracks <==> t in old(composition.tracks) && t.id !in ids[..k]
    {
      WithoutUnusedTrack(composition.insertions, ids[k]);
      composition.RemoveTrack(ids[k]);
      assert ids[..k + 1] == ids[..k] + [ids[k]];
    }
    assert ids[..|ids|] == ids;
  }

  /** `HasAnyAudio` holds exactly when some item has an audio track. */
  lemma {:induction false} HasAnyAudioMeansSomeItem(states: seq<ItemState>)
    ensures HasAnyAudio(states) <==> exists k :: 0 <= k < |states| && states[k].asset.audioTrack.Some?
    decreases |states|
  {
    if |states| > 0 {
      var prefix := states[..|states| - 1];
      HasAnyAudioMeansSomeItem(prefix);
      if HasAnyAudio(prefix) {
        var k :| 0 <= k < |prefix| && prefix[k].asset.audioTrack.Some?;
        assert states[k] == prefix[k];
      }
      if exists k :: 0 <= k < |states| && states[k].asset.audioTrack.Some? {
        var k :| 0 <= k < |states| && states[k].asset.audioTrack.Some?;
        if k < |prefix| {
          assert prefix[k] == states[k];
        }
      }
    }
  }
}
