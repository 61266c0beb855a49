/**
 * `Media.loadValuesAsynchronously(handler:)` (Photon/Source/Media/Media.swift) for a video item.
 * The asynchronous key loading is outside the model: the asset's loaded facts are given, and the
 * value handed to the completion handler is returned.
 */
module MediaLoading {
  import opened Optional
  import opened Results
  import opened MediaRanges
  import opened Timing
  import opened MediaTypes
  import opened VideoItems

  /**
   * When either key fails to load, the handler gets the failure and the time range is untouched.
   * Otherwise the time range becomes the selection (or the whole asset) before the handler
   * receives `.loaded`.
   */
  method LoadValues(item: VideoItem) returns (r: Result<MediaStatus>)
    modifies item`timeRange
    ensures !item.asset.LoadsValues() ==> r == Failure(item.asset.LoadFault()) && item.timeRange == old(item.timeRange)
    ensures item.asset.LoadsValues() ==>
              r == Success(Loaded) && item.timeRange == SelectedTimeRange(item.selectedRange, item.asset.duration)
  {
    if !(item.asset.durationLoaded && item.asset.tracksLoaded) {
      return Failure(item.asset.LoadFault());
    }
    if HasSelection(item.selectedRange) {
      var selected := item.selectedRange.value;
      item.UpdateTimeRange(TimeRange(selected.start, selected.duration));
    } else {
      item.UpdateTimeRange(TimeRange(0.0, item.asset.duration));
    }
    r := Success(Loaded);
  }

  /** The time range a successful load gives: the selection verbatim, or the whole asset. */
  lemma LoadedRangeChoice(selected: Option<MediaRange>, assetDuration: Time)
    ensures HasSelection(selected) ==>
              SelectedTimeRange(selected, assetDuration) == TimeRange(selected.value.start, selected.value.duration)
    ensures selected == None || selected == Some(MediaRange(0.0, 0.0)) ==>
              SelectedTimeRange(selected, assetDuration) == TimeRange(0.0, assetDuration)
  {
  }
}
