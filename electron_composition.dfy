/**
 * The fixed-transition layout ("Electron",
 * Photon/Source/Builder/Composition/Electron/ElectronComposition.swift): one `Electron` record per
 * clip and the composition that holds them with the pass-through and transition time ranges.
 */
module ElectronCompositions {
  import opened Optional
  import opened Timing
  import opened Geometry
  import opened Volume
  import opened Compositions

  /** One clip placed on the timeline; the filter is kept by name. */
  datatype Electron = Electron(
    id: int,
    assetID: Option<string>,
    scaleFactor: real,
    atTime: Time,
    timeRange: TimeRange,
    filter: Option<string>,
    volume: real,
    isMuted: bool,
    hasAudioTrack: bool,
    audioTrackID: int,
    hasVideoTrack: bool,
    orientation: ImageOrientation,
    naturalSize: Size,
    videoTrackID: int)

  /**
   * `Electron.init(id:assetID:scaleFactor:atTime:timeRange:filter:)`: the given values are kept;
   * the audio part starts at full volume, unmuted, without a track, and the video part starts
   * without a track, oriented `.up`, with a zero natural size.
   */
  function NewElectron(id: int, assetID: Option<string>, scaleFactor: real, atTime: Time,
                       timeRange: TimeRange, filter: Option<string>): (e: Electron)
    ensures e.id == id && e.assetID == assetID && e.scaleFactor == scaleFactor
    ensures e.atTime == atTime && e.timeRange == timeRange && e.filter == filter
    ensures e.volume == 1.0 && !e.isMuted && !e.hasAudioTrack && e.audioTrackID == InvalidTrackID
    ensures !e.hasVideoTrack && e.orientation == Up && e.naturalSize == ZeroSize && e.videoTrackID == InvalidTrackID
  {
    Electron(id, assetID, scaleFactor, atTime, timeRange, filter,
             1.0, false, false, InvalidTrackID, false, Up, ZeroSize, InvalidTrackID)
  }

  datatype ElectronComposition = ElectronComposition(
    composition: MutableComposition,
    videoTracks: seq<int>,
    audioTracks: seq<int>,
    passthroughTimeRanges: seq<TimeRange>,
    transitionTimeRanges: seq<TimeRange>,
    electrons: seq<Electron>)
  {
    /**
     * `volumeAutomations(at:)`: the loop over the electrons has its body commented out, so no
     * lane ever gets an automation, with or without audio tracks.
     */
    function VolumeAutomationsAt(index: int): (r: seq<VolumeAutomation>)
      ensures r == []
    {
      []
    }

    /** `volumeAutomations`: empty without audio tracks, and stubbed to empty with them. */
    function VolumeAutomations(): (r: seq<VolumeAutomation>)
      ensures r == []
    {
      []
    }
  }
}
