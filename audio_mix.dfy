/**
 * `AudioMixBuilder` (Photon/Source/Builder/AudioMix/AudioMixBuilder.swift): one input-parameters
 * entry per audio lane of a composition, each carrying that lane's volume automations as volume
 * ramps. A new ramp is skipped when the ramp already set at its start time intersects it.
 *
 * `AVMutableAudioMixInputParameters` is modelled as the list of ramps set on it, with
 * `getVolumeRamp(for:)` as a lookup of the first ramp whose range holds the time.
 */
module AudioMixes {
  import opened Optional
  import opened Timing
  import opened Volume

  /** `getVolumeRamp(for:...)`: the first ramp whose range holds `t` (start inclusive, end exclusive), if any. */
  function RampAt(ramps: seq<VolumeAutomation>, t: Time): (r: Option<VolumeAutomation>)
    ensures r.Some? ==> r.value in ramps && r.value.timeRange.ContainsTime(t)
    ensures r.None? ==> forall k :: 0 <= k < |ramps| ==> !ramps[k].timeRange.ContainsTime(t)
    ensures r.Some? ==> exists i :: 0 <= i < |ramps| && ramps[i] == r.value &&
                                   forall j :: 0 <= j < i ==> !ramps[j].timeRange.ContainsTime(t)
  {
    if |ramps| == 0 then None
    else if ramps[0].timeRange.ContainsTime(t) then Some(ramps[0])
    else RampAt(ramps[1..], t)
  }

  /** The ramp found at the automation's start intersects the automation's range. */
  predicate Blocked(ramps: seq<VolumeAutomation>, a: VolumeAutomation)
  {
    var found := RampAt(ramps, a.timeRange.start);
    found.Some? && !a.timeRange.Intersection(found.value.timeRange).IsEmpty()
  }

  /**
   * One turn of `set(volumeAutomations:to:)`: a blocked automation is skipped, any other one is
   * added as it is. The ramps already set are never changed.
   */
  function Place(ramps: seq<VolumeAutomation>, a: VolumeAutomation): (r: seq<VolumeAutomation>)
    ensures ramps <= r && |r| <= |ramps| + 1
    ensures |r| > |ramps| ==> r[|ramps|] == a
  {
    if Blocked(ramps, a) then ramps else ramps + [a]
  }

  /**
   * An automation is only skipped when a ramp set earlier holds its start and overlaps it, and
   * one that starts where no ramp is set is always added.
   */
  lemma PlaceSkipsOnlyOverlaps(ramps: seq<VolumeAutomation>, a: VolumeAutomation)
    ensures |Place(ramps, a)| == |ramps| ==>
              exists k :: 0 <= k < |ramps| && ramps[k].timeRange.ContainsTime(a.timeRange.start) &&
                          !a.timeRange.Intersection(ramps[k].timeRange).IsEmpty()
    ensures (forall k :: 0 <= k < |ramps| ==> !ramps[k].timeRange.ContainsTime(a.timeRange.start)) ==>
              Place(ramps, a) == ramps + [a]
  {
  }

  /** The ramps after `set(volumeAutomations:to:)` on parameters holding `ramps`: the automations placed in order. */
  function SetRamps(ramps: seq<VolumeAutomation>, automations: seq<VolumeAutomation>): seq<VolumeAutomation>
  {
    if |automations| == 0 then ramps
    else Place(SetRamps(ramps, automations[..|automations| - 1]), automations[|automations| - 1])
  }

  /** The input parameters of one audio track, as stored in the mix. */
  datatype Parameters = Parameters(trackID: int, ramps: seq<VolumeAutomation>)

  /** `AVMutableAudioMixInputParameters`: the track it applies to and the ramps set on it. */
  class InputParameters {
    const trackID: int
    var ramps: seq<VolumeAutomation>

    /** `init(track:)`: no ramps yet. */
    constructor (trackID: int)
      ensures this.trackID == trackID && ramps == []
    {
      this.trackID := trackID;
      ramps := [];
    }

    /** `getVolumeRamp(for:startVolume:endVolume:timeRange:)`. */
    function VolumeRampAt(t: Time): Option<VolumeAutomation>
      reads this
    {
      RampAt(ramps, t)
    }

    /** `setVolumeRamp(fromStartVolume:toEndVolume:timeRange:)`: the ramp is recorded after the others. */
    method SetVolumeRamp(start: real, end: real, timeRange: TimeRange)
      modifies this
      ensures ramps == old(ramps) + [VolumeAutomation(timeRange, start, end)]
    {
      ramps := ramps + [VolumeAutomation(timeRange, start, end)];
    }

    function Record(): Parameters
      reads this
    {
      Parameters(trackID, ramps)
    }
  }

  /** `AVMutableAudioMix`: its list of input parameters. */
  class AudioMix {
    var inputParameters: seq<Parameters>

    constructor ()
      ensures inputParameters == []
    {
      inputParameters := [];
    }
  }

  /** `set(volumeAutomations:to:)`: each automation, in order, is set unless blocked by the ramp at its start. */
  method SetVolumeAutomations(automations: seq<VolumeAutomation>, parameters: InputParameters)
    modifies parameters
    ensures parameters.ramps == SetRamps(old(parameters.ramps), automations)
  {
    for i := 0 to |automations|
      invariant parameters.ramps == SetRamps(old(parameters.ramps), automations[..i])
    {
      assert automations[..i + 1][..i] == automations[..i];
      var automation := automations[i];
      var found := parameters.VolumeRampAt(automation.timeRange.start);
      if found.Some? && !automation.timeRange.Intersection(found.value.timeRange).IsEmpty() {
        continue;
      }
      parameters.SetVolumeRamp(automation.start, automation.end, automation.timeRange);
    }
    assert automations[..|automations|] == automations;
  }

  /**
   * `add(audioTrack:with:)`: new parameters for the track, carrying the automations, go after all
   * the existing ones; the track id is returned.
   */
  method Add(mix: AudioMix, trackID: int, automations: seq<VolumeAutomation>) returns (id: int)
    modifies mix
    ensures mix.inputParameters == old(mix.inputParameters) + [Parameters(trackID, SetRamps([], automations))]
    ensures id == trackID
  {
    var parameters := new InputParameters(trackID);
    SetVolumeAutomations(automations, parameters);
    var inputParameters: seq<Parameters> := [];
    if |mix.inputParameters| > 0 {
      inputParameters := inputParameters + mix.inputParameters;
    }
    inputParameters := inputParameters + [parameters.Record()];
    mix.inputParameters := inputParameters;
    id := parameters.trackID;
  }

  /**
   * `build(in:)`: nothing without audio tracks; otherwise one entry per audio track `k`, in
   * order, carrying `laneAutomations[k]`, the composition's `volumeAutomations(at: k)`.
   */
  method Build(mix: AudioMix, audioTracks: seq<int>, laneAutomations: seq<seq<VolumeAutomation>>)
    requires |laneAutomations| == |audioTracks|
    modifies mix
    ensures |audioTracks| == 0 ==> mix.inputParameters == old(mix.inputParameters)
    ensures |mix.inputParameters| == |old(mix.inputParameters)| + |audioTracks|
    ensures mix.inputParameters[..|old(mix.inputParameters)|] == old(mix.inputParameters)
    ensures forall k :: 0 <= k < |audioTracks| ==>
              mix.inputParameters[|old(mix.inputParameters)| + k] == Parameters(audioTracks[k], SetRamps([], laneAutomations[k]))
  {
    if |audioTracks| == 0 {
      return;
    }
    for index := 0 to |audioTracks|
      invariant |mix.inputParameters| == |old(mix.inputParameters)| + index
      invariant mix.inputParameters[..|old(mix.inputParameters)|] == old(mix.inputParameters)
      invariant forall k :: 0 <= k < index ==>
                  mix.inputParameters[|old(mix.inputParameters)| + k] == Parameters(audioTracks[k], SetRamps([], laneAutomations[k]))
    {
      var _ := Add(mix, audioTracks[index], laneAutomations[index]);
    }
  }

  /**
   * Ramps already set are never replaced, and every ramp added is one of the automations: on a
   * conflict the earlier ramp wins.
   */
  lemma {:induction false} SetRampsKeepsEarlier(ramps: seq<VolumeAutomation>, automations: seq<VolumeAutomation>)
    ensures |ramps| <= |SetRamps(ramps, automations)| <= |ramps| + |automations|
    ensures SetRamps(ramps, automations)[..|ramps|] == ramps
    ensures forall p :: |ramps| <= p < |SetRamps(ramps, automations)| ==> SetRamps(ramps, automations)[p] in automations
    decreases |automations|
  {
    if |automations| > 0 {
      var init := automations[..|automations| - 1];
      SetRampsKeepsEarlier(ramps, init);
      var prev := SetRamps(ramps, init);
      forall p | |ramps| <= p < |SetRamps(ramps, automations)|
        ensures SetRamps(ramps, automations)[p] in automations
      {
        if p < |prev| {
          assert prev[p] in init;
        }
      }
    }
  }

  /**
   * Every ramp the automations add passed the start check against the ramps before it: none
   * starts inside an earlier ramp that it intersects.
   */
  lemma {:induction false} AddedRampsPassedCheck(ramps: seq<VolumeAutomation>, automations: seq<VolumeAutomation>)
    ensures forall p :: |ramps| <= p < |SetRamps(ramps, automations)| ==>
              !Blocked(SetRamps(ramps, automations)[..p], SetRamps(ramps, automations)[p])
    decreases |automations|
  {
    if |automations| > 0 {
      var init := automations[..|automations| - 1];
      AddedRampsPassedCheck(ramps, init);
      SetRampsKeepsEarlier(ramps, init);
      var prev := SetRamps(ramps, init);
      var r := SetRamps(ramps, automations);
      forall p | |ramps| <= p < |r|
        ensures !Blocked(r[..p], r[p])
      {
        if p < |prev| {
          assert r[..p] == prev[..p];
        }
      }
    }
  }

  /**
   * The check only looks at the ramp holding the new automation's start: an automation that
   * starts before an existing ramp and runs into it is still added, and the two overlap.
   */
  lemma StartOnlyCheck()
    ensures var existing := VolumeAutomation(TimeRange(2.0, 2.0), 1.0, 1.0);
            var incoming := VolumeAutomation(TimeRange(1.0, 2.0), 0.0, 1.0);
            SetRamps([existing], [incoming]) == [existing, incoming] &&
            Overlap(existing.timeRange, incoming.timeRange)
  {
    var existing := VolumeAutomation(TimeRange(2.0, 2.0), 1.0, 1.0);
    var incoming := VolumeAutomation(TimeRange(1.0, 2.0), 0.0, 1.0);
    assert [incoming][..0] == [];
    assert RampAt([existing], 1.0) == None;
  }
}
