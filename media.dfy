/**
 * Media statuses, the facts an asset yields once loaded, and the time-range choice made by
 * `loadValuesAsynchronously` (Photon/Source/Media/Media.swift).
 */
module MediaTypes {
  import opened Optional
  import opened Results
  import opened Timing
  import opened Geometry
  import opened MediaRanges

  datatype MediaType = Video | Audio

  datatype MediaStatus = Unknown | Loading | Loaded | Failed

  /** The first video track of an asset: its preferred transform and natural size. */
  datatype AssetVideoTrack = AssetVideoTrack(preferredTransform: AffineTransform, naturalSize: Size)

  /** The first audio track of an asset: the time range it covers in the asset. */
  datatype AssetAudioTrack = AssetAudioTrack(timeRange: TimeRange)

  /**
   * What an `AVAsset` reports once asked to load its `duration` and `tracks` keys: whether each
   * key loaded, the error reported otherwise (if any), the duration, and its first audio and
   * video tracks. Loading itself is asynchronous I/O outside this model.
   */
  datatype Asset = Asset(
    durationLoaded: bool,
    tracksLoaded: bool,
    loadError: Option<Fault>,
    duration: Time,
    audioTrack: Option<AssetAudioTrack>,
    videoTrack: Option<AssetVideoTrack>)
  {
    predicate LoadsValues() {
      durationLoaded && tracksLoaded
    }

    /** The error handed to the handler when loading fails: the reported one or `PhotonError.unknown`. */
    function LoadFault(): Fault {
      match loadError
      case Some(e) => e
      case None => Results.Unknown
    }
  }

  /** A user selection counts only when its start or its duration is non-zero. */
  predicate HasSelection(selected: Option<MediaRange>) {
    selected.Some? && (selected.value.start != 0.0 || selected.value.duration != 0.0)
  }

  /**
   * The time range an item gets once its asset has loaded: the selected range when there is a
   * selection, the whole asset `[0, asset.duration)` otherwise (no selection, or a (0, 0) one).
   */
  function SelectedTimeRange(selected: Option<MediaRange>, assetDuration: Time): (r: TimeRange)
    ensures HasSelection(selected) ==>
              r.start == selected.value.start && r.End() == selected.value.start + selected.value.duration
    ensures !HasSelection(selected) ==> r.start == 0.0 && r.duration == assetDuration
  {
    if HasSelection(selected) then TimeRange(selected.value.start, selected.value.duration)
    else TimeRange(0.0, assetDuration)
  }
}
