/**
 * The parts of `AVMutableComposition` the composition builders drive: tracks are created with
 * `addMutableTrack(withMediaType:preferredTrackID: kCMPersistentTrackID_Invalid)`, filled with
 * `insertTimeRange(_:of:at:)` and dropped with `removeTrack`. Tracks are identified by their
 * persistent track id; media data is not modelled, an insertion is recorded as the source range
 * and the time it is placed at.
 */
module Compositions {
  import opened Timing
  import opened MediaTypes

  /** `kCMPersistentTrackID_Invalid`. */
  const InvalidTrackID: int := 0

  datatype Track = Track(id: int, mediaType: MediaType)

  /** One `insertTimeRange` call: source range `range` of some asset track placed at `at` on `track`. */
  datatype Insertion = Insertion(track: int, range: TimeRange, at: Time)

  /** The ids of a list of tracks, in order. */
  function Ids(tracks: seq<Track>): (r: seq<int>)
    ensures |r| == |tracks|
    ensures forall k :: 0 <= k < |tracks| ==> r[k] == tracks[k].id
  {
    if |tracks| == 0 then [] else Ids(tracks[..|tracks| - 1]) + [tracks[|tracks| - 1].id]
  }

  /** The tracks other than `id`, in order. */
  function WithoutTrack(tracks: seq<Track>, id: int): (r: seq<Track>)
    ensures forall t :: t in r <==> t in tracks && t.id != id
    ensures |r| <= |tracks|
  {
    if |tracks| == 0 then []
    else
      var rest := WithoutTrack(tracks[..|tracks| - 1], id);
      var last := tracks[|tracks| - 1];
      assert forall t :: t in tracks <==> t in tracks[..|tracks| - 1] || t == last;
      if last.id == id then rest else rest + [last]
  }

  /** The insertions not made on track `id`, in order. */
  function WithoutInsertionsOn(insertions: seq<Insertion>, id: int): (r: seq<Insertion>)
    ensures forall x :: x in r <==> x in insertions && x.track != id
  {
    if |insertions| == 0 then []
    else
      var rest := WithoutInsertionsOn(insertions[..|insertions| - 1], id);
      var last := insertions[|insertions| - 1];
      assert forall x :: x in insertions <==> x in insertions[..|insertions| - 1] || x == last;
      if last.track == id then rest else rest + [last]
  }

  /** Dropping the insertions of a track that has none leaves the list as it is. */
  lemma {:induction false} WithoutUnusedTrack(insertions: seq<Insertion>, id: int)
    requires forall x :: x in insertions ==> x.track != id
    ensures WithoutInsertionsOn(insertions, id) == insertions
    decreases |insertions|
  {
    if |insertions| > 0 {
      var prefix := insertions[..|insertions| - 1];
      assert forall x :: x in prefix ==> x in insertions;
      WithoutUnusedTrack(prefix, id);
      assert prefix + [insertions[|insertions| - 1]] == insertions;
    }
  }

  class MutableComposition {
    var tracks: seq<Track>
    var insertions: seq<Insertion>
    /** The id the next track created with an invalid preferred id receives. */
    var nextTrackID: int

    /** Track ids are valid, distinct and below `nextTrackID`. */
    predicate Valid()
      reads this
    {
      InvalidTrackID < nextTrackID &&
      (forall k :: 0 <= k < |tracks| ==> InvalidTrackID < tracks[k].id < nextTrackID) &&
      (forall j, k :: 0 <= j < k < |tracks| ==> tracks[j].id != tracks[k].id)
    }

    /** `AVMutableComposition()`: no tracks, nothing inserted. */
    constructor ()
      ensures tracks == [] && insertions == [] && nextTrackID == 1
      ensures Valid()
    {
      tracks := [];
      insertions := [];
      nextTrackID := 1;
    }

    /**
     * `addMutableTrack(withMediaType:preferredTrackID: kCMPersistentTrackID_Invalid)`: appends a
     * track with a new id. Track ids are handed out in increasing order from 1.
     */
    method AddMutableTrack(mediaType: MediaType) returns (id: int)
      requires Valid()
      modifies this`tracks, this`nextTrackID
      ensures Valid()
      ensures id == old(nextTrackID) && nextTrackID == id + 1
      ensures tracks == old(tracks) + [Track(id, mediaType)]
      ensures id != InvalidTrackID && id !in Ids(old(tracks))
    {
      id := nextTrackID;
      assert forall k :: 0 <= k < |tracks| ==> Ids(tracks)[k] < id;
      tracks := tracks + [Track(id, mediaType)];
      nextTrackID := nextTrackID + 1;
    }

    /** `insertTimeRange(_:of:at:)` on track `track`: records the insertion after the earlier ones. */
    method InsertTimeRange(range: TimeRange, track: int, at: Time)
      modifies this`insertions
      ensures insertions == old(insertions) + [Insertion(track, range, at)]
    {
      insertions := insertions + [Insertion(track, range, at)];
    }

    /** `removeTrack`: the track and everything inserted on it are gone; the rest keeps its order. */
    method RemoveTrack(id: int)
      requires Valid()
      modifies this`tracks, this`insertions
      ensures Valid()
      ensures tracks == WithoutTrack(old(tracks), id)
      ensures insertions == WithoutInsertionsOn(old(insertions), id)
    {
      WithoutTrackKeepsDistinct(tracks, id);
      tracks := WithoutTrack(tracks, id);
      insertions := WithoutInsertionsOn(insertions, id);
    }
  }

  /** Removing a track keeps the remaining track ids distinct. */
  lemma {:induction false} WithoutTrackKeepsDistinct(tracks: seq<Track>, id: int)
    requires forall j, k :: 0 <= j < k < |tracks| ==> tracks[j].id != tracks[k].id
    ensures forall j, k :: 0 <= j < k < |WithoutTrack(tracks, id)| ==>
              WithoutTrack(tracks, id)[j].id != WithoutTrack(tracks, id)[k].id
    decreases |tracks|
  {
    if |tracks| > 0 {
      var prefix := tracks[..|tracks| - 1];
      var last := tracks[|tracks| - 1];
      WithoutTrackKeepsDistinct(prefix, id);
      var rest := WithoutTrack(prefix, id);
      forall t | t in rest
        ensures t.id != last.id
      {
        var k :| 0 <= k < |prefix| && prefix[k] == t;
      }
    }
  }
}
