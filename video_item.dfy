/**
 * `VideoItem` (Photon/Source/Media/VideoItem.swift): one clip of a project. It is a class whose
 * time range, selection, transitions, status and mute flag are overwritten in place by the
 * builders; url, scale factor, fill mode and asset never change.
 */
module VideoItems {
  import opened Optional
  import opened Timing
  import opened Geometry
  import opened MediaRanges
  import opened Transitions
  import opened MediaTypes

  /** The values of a video item's fields at one moment, as the builders read them. */
  datatype ItemState = ItemState(
    url: string,
    volume: real,
    scaleFactor: real,
    filter: Option<string>,
    timeRange: TimeRange,
    isMuted: bool,
    headTransition: VideoTransition,
    tailTransition: VideoTransition,
    asset: Asset)

  class VideoItem {
    const url: string
    var volume: real
    const scaleFactor: real
    const fillMode: FillMode
    /** The filter, by name. */
    var filter: Option<string>
    var selectedRange: Option<MediaRange>
    var startTime: Time
    var timeRange: TimeRange
    var isMutedWhenVarispeed: bool
    const asset: Asset
    var status: MediaStatus
    var headTransition: VideoTransition
    var tailTransition: VideoTransition

    /**
     * `init(url:volume:scaleFactor:fillMode:filter:)`; the asset the url opens is passed in.
     * A new item has no transitions, a zero time range and start time, no selection,
     * status `.unknown` and is not muted when varispeed.
     */
    constructor (url: string, asset: Asset, volume: real := 1.0, scaleFactor: real := 1.0,
                 fillMode: FillMode := AspectFit, filter: Option<string> := None)
      ensures this.url == url && this.asset == asset && this.volume == volume
      ensures this.scaleFactor == scaleFactor && this.fillMode == fillMode && this.filter == filter
      ensures headTransition == NoTransition() && tailTransition == NoTransition()
      ensures timeRange == ZeroRange && startTime == 0.0 && selectedRange == None
      ensures !isMutedWhenVarispeed && status == MediaStatus.Unknown
    {
      this.url := url;
      this.volume := volume;
      this.asset := asset;
      this.fillMode := fillMode;
      this.filter := filter;
      this.startTime := 0.0;
      this.timeRange := ZeroRange;
      this.scaleFactor := scaleFactor;
      this.headTransition := NoTransition();
      this.tailTransition := NoTransition();
      this.isMutedWhenVarispeed := false;
      this.selectedRange := None;
      this.status := MediaStatus.Unknown;
    }

    /** `id`: the item's hash; the url stands for it here (Swift hashing is not modelled). */
    function Id(): string
    {
      url
    }

    /** `isMuted`: muted only when asked to mute on varispeed and actually played at another speed. */
    predicate IsMuted()
      reads this
    {
      isMutedWhenVarispeed && scaleFactor != 1.0
    }

    /** The item's fields as the builders read them. */
    function State(): (s: ItemState)
      reads this
      ensures s.timeRange == timeRange && s.scaleFactor == scaleFactor && s.volume == volume
      ensures s.headTransition == headTransition && s.tailTransition == tailTransition
      ensures s.isMuted <==> isMutedWhenVarispeed && scaleFactor != 1.0
      ensures s.asset == asset && s.url == url && s.filter == filter
    {
      ItemState(url, volume, scaleFactor, filter, timeRange, IsMuted(), headTransition, tailTransition, asset)
    }

    /** `updateTimeRange`: replaces the time range and nothing else. */
    method UpdateTimeRange(range: TimeRange)
      modifies this`timeRange
      ensures timeRange == range
    {
      timeRange := range;
    }

    /** `==`: two items are equal when url and time range agree, whatever their other fields. */
    predicate Equals(other: VideoItem)
      reads this, other
    {
      url == other.url && timeRange == other.timeRange
    }
  }

  /** A playback speed of exactly 1 is never muted; otherwise muting follows `isMutedWhenVarispeed`. */
  lemma MuteRule(item: VideoItem)
    ensures item.scaleFactor == 1.0 ==> !item.IsMuted()
    ensures item.scaleFactor != 1.0 ==> (item.IsMuted() <==> item.isMutedWhenVarispeed)
  {
  }

  /** Item equality ignores everything but url and time range, and is an equivalence. */
  lemma EqualsIsEquivalence(x: VideoItem, y: VideoItem, z: VideoItem)
    ensures x.Equals(x)
    ensures x.Equals(y) ==> y.Equals(x)
    ensures x.Equals(y) && y.Equals(z) ==> x.Equals(z)
    ensures x.Equals(y) <==> x.url == y.url && x.timeRange == y.timeRange
  {
  }

  /** The states of a list of items, in order. */
  function States(items: seq<VideoItem>): (r: seq<ItemState>)
    reads items
    ensures |r| == |items|
    ensures forall i :: 0 <= i < |items| ==> r[i] == items[i].State()
  {
    if |items| == 0 then [] else States(items[..|items| - 1]) + [items[|items| - 1].State()]
  }

  /** No item object occurs twice in the list. */
  predicate Distinct(items: seq<VideoItem>) {
    forall i, j :: 0 <= i < j < |items| ==> items[i] != items[j]
  }
}
