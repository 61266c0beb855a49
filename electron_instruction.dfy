/**
 * The custom-compositor instruction of the Electron path
 * (Photon/Source/Builder/VideoComposition/Electron/Compositors/ElectronVideoCompositionInstruction.swift)
 * and the layer instruction it carries. Every public property is a thin accessor over an
 * `override…` backing field; the two initialisers set up a pass-through or a compositing
 * instruction.
 */
module ElectronInstructions {
  import opened Optional
  import opened Timing
  import opened Compositions

  /**
   * `ElectronVideoCompositionLayerInstruction`: the lane it reads, the filter applied to it (by
   * name) and its opacity. The preferred transform it copies from the track is not modelled.
   */
  datatype LayerInstruction = LayerInstruction(trackID: int, filter: Option<string>, opacity: real)

  /** `init(assetTrack:filter:)`: the lane and the filter are kept, and the layer has opacity 1. */
  function LayerFor(trackID: int, filter: Option<string>): (l: LayerInstruction)
    ensures l.trackID == trackID && l.filter == filter && l.opacity == 1.0
  {
    LayerInstruction(trackID, filter, 1.0)
  }

  /** The observable state of one instruction object, as its accessors report it. */
  datatype InstructionRecord = InstructionRecord(
    foregroundTrackID: int,
    backgroundTrackID: int,
    layerInstructions: seq<LayerInstruction>,
    timeRange: TimeRange,
    enablePostProcessing: bool,
    containsTweening: bool,
    requiredSourceTrackIDs: Option<seq<int>>,
    passthroughTrackID: int)

  class ElectronVideoCompositionInstruction {
    var foregroundTrackID: int
    var backgroundTrackID: int
    var layerInstructions: seq<LayerInstruction>
    var overrideTimeRange: TimeRange
    var overrideEnablePostProcessing: bool
    var overrideContainsTweening: bool
    var overrideRequiredSourceTrackIDs: Option<seq<int>>
    var overridePassthroughTrackID: int

    function PassthroughTrackID(): int
      reads this
    {
      overridePassthroughTrackID
    }

    function RequiredSourceTrackIDs(): Option<seq<int>>
      reads this
    {
      overrideRequiredSourceTrackIDs
    }

    function TimeRange(): TimeRange
      reads this
    {
      overrideTimeRange
    }

    function EnablePostProcessing(): bool
      reads this
    {
      overrideEnablePostProcessing
    }

    function ContainsTweening(): bool
      reads this
    {
      overrideContainsTweening
    }

    /** What the accessors report, all at once. */
    function Snapshot(): InstructionRecord
      reads this
    {
      InstructionRecord(foregroundTrackID, backgroundTrackID, layerInstructions, TimeRange(),
                        EnablePostProcessing(), ContainsTweening(), RequiredSourceTrackIDs(), PassthroughTrackID())
    }

    /**
     * `init(passthroughTrackID:timeRange:)`: the track and the range are kept; no source track
     * is required, there is no tweening and no post-processing; the foreground and background
     * tracks stay invalid and there are no layers.
     */
    constructor Passthrough(passthroughTrackID: int, timeRange: TimeRange)
      ensures Snapshot() == InstructionRecord(InvalidTrackID, InvalidTrackID, [], timeRange, false, false, Some([]), passthroughTrackID)
    {
      foregroundTrackID, backgroundTrackID, layerInstructions := InvalidTrackID, InvalidTrackID, [];
      overrideTimeRange, overrideEnablePostProcessing, overrideContainsTweening := ZeroRange, false, false;
      overrideRequiredSourceTrackIDs, overridePassthroughTrackID := None, 0;
      new;
      SetPassthroughTrackID(passthroughTrackID);
      SetTimeRange(timeRange);
      SetRequiredSourceTrackIDs(Some([]));
      SetContainsTweening(false);
      SetEnablePostProcessing(false);
    }

    /**
     * `init(sourceTrackIDs:timeRange:)`: the source tracks and the range are kept; there is no
     * pass-through track, the instruction tweens and skips post-processing; the foreground and
     * background tracks stay invalid and there are no layers.
     */
    constructor Source(sourceTrackIDs: seq<int>, timeRange: TimeRange)
      ensures Snapshot() == InstructionRecord(InvalidTrackID, InvalidTrackID, [], timeRange, false, true, Some(sourceTrackIDs), InvalidTrackID)
    {
      foregroundTrackID, backgroundTrackID, layerInstructions := InvalidTrackID, InvalidTrackID, [];
      overrideTimeRange, overrideEnablePostProcessing, overrideContainsTweening := ZeroRange, false, false;
      overrideRequiredSourceTrackIDs, overridePassthroughTrackID := None, 0;
      new;
      SetRequiredSourceTrackIDs(Some(sourceTrackIDs));
      SetTimeRange(timeRange);
      SetPassthroughTrackID(InvalidTrackID);
      SetContainsTweening(true);
      SetEnablePostProcessing(false);
    }

    /** The `passthroughTrackID` setter: the getter then reports `v`, and nothing else changes. */
    method SetPassthroughTrackID(v: int)
      modifies this
      ensures PassthroughTrackID() == v
      ensures Snapshot() == old(Snapshot()).(passthroughTrackID := v)
    {
      overridePassthroughTrackID := v;
    }

    /** The `requiredSourceTrackIDs` setter: the getter then reports `v`, and nothing else changes. */
    method SetRequiredSourceTrackIDs(v: Option<seq<int>>)
      modifies this
      ensures RequiredSourceTrackIDs() == v
      ensures Snapshot() == old(Snapshot()).(requiredSourceTrackIDs := v)
    {
      overrideRequiredSourceTrackIDs := v;
    }

    /** The `timeRange` setter: the getter then reports `v`, and nothing else changes. */
    method SetTimeRange(v: TimeRange)
      modifies this
      ensures TimeRange() == v
      ensures Snapshot() == old(Snapshot()).(timeRange := v)
    {
      overrideTimeRange := v;
    }

    /** The `enablePostProcessing` setter: the getter then reports `v`, and nothing else changes. */
    method SetEnablePostProcessing(v: bool)
      modifies this
      ensures EnablePostProcessing() == v
      ensures Snapshot() == old(Snapshot()).(enablePostProcessing := v)
    {
      overrideEnablePostProcessing := v;
    }

    /** The `containsTweening` setter: the getter then reports `v`, and nothing else changes. */
    method SetContainsTweening(v: bool)
      modifies this
      ensures ContainsTweening() == v
      ensures Snapshot() == old(Snapshot()).(containsTweening := v)
    {
      overrideContainsTweening := v;
    }
  }
}
