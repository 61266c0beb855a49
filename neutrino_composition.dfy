/**
 * `NeutrinoComposition` (Photon/Source/Builder/Composition/Neutrino/NeutrinoComposition.swift):
 * the composition, its video and audio lanes and the laid-out segments, and the volume ramps
 * gathered per audio lane.
 */
module NeutrinoCompositions {
  import opened Volume
  import opened Segments
  import opened Compositions

  /** The entries of every group whose position `i` has `i % lanes == index`, in order. */
  function LaneOf<T>(groups: seq<seq<T>>, lanes: nat, index: int): seq<T>
  {
    if lanes == 0 || |groups| == 0 then []
    else
      var last := |groups| - 1;
      LaneOf(groups[..last], lanes, index) + (if index == last % lanes then groups[last] else [])
  }

  /** The entries of all groups, in order. */
  function Concat<T>(groups: seq<seq<T>>): seq<T>
  {
    if |groups| == 0 then [] else Concat(groups[..|groups| - 1]) + groups[|groups| - 1]
  }

  /** The automations of each segment, one group per segment. */
  function AutomationsOf(segments: seq<Segment>): (r: seq<seq<VolumeAutomation>>)
    ensures |r| == |segments| && forall i :: 0 <= i < |segments| ==> r[i] == segments[i].VolumeAutomations()
  {
    seq(|segments|, i requires 0 <= i < |segments| => segments[i].VolumeAutomations())
  }

  /** The automations of every segment whose position `i` has `i % lanes == index`, in segment order. */
  function LaneAutomations(segments: seq<Segment>, lanes: nat, index: int): seq<VolumeAutomation>
  {
    LaneOf(AutomationsOf(segments), lanes, index)
  }

  /** The automations of all segments, in segment order. */
  function AllAutomations(segments: seq<Segment>): seq<VolumeAutomation>
  {
    Concat(AutomationsOf(segments))
  }

  datatype NeutrinoComposition = NeutrinoComposition(
    composition: MutableComposition,
    videoTracks: seq<int>,
    audioTracks: seq<int>,
    segments: seq<Segment>)
  {
    /**
     * `volumeAutomations(at:)`: nothing without audio lanes; otherwise, walking the segments in
     * order, the automations of those placed on lane `index`.
     */
    method VolumeAutomationsAt(index: int) returns (automations: seq<VolumeAutomation>)
      ensures automations == LaneAutomations(segments, |audioTracks|, index)
    {
      if |audioTracks| == 0 {
        return [];
      }
      ghost var groups := AutomationsOf(segments);
      automations := [];
      for i := 0 to |segments|
        invariant automations == LaneOf(groups[..i], |audioTracks|, index)
      {
        assert groups[..i + 1][..i] == groups[..i];
        if index == i % |audioTracks| {
          automations := automations + segments[i].VolumeAutomations();
        }
      }
      assert groups[..|segments|] == groups;
    }

    /** `volumeAutomations`: nothing without audio lanes, else every segment's automations in order. */
    function VolumeAutomations(): (r: seq<VolumeAutomation>)
      ensures |audioTracks| == 0 ==> r == []
      ensures |audioTracks| > 0 ==> r == AllAutomations(segments)
      ensures |audioTracks| == 1 ==> r == LaneAutomations(segments, 1, 0)
      ensures |audioTracks| == 2 ==>
                multiset(r) == multiset(LaneAutomations(segments, 2, 0)) + multiset(LaneAutomations(segments, 2, 1))
    {
      if |audioTracks| == 0 then [] else
        SingleLaneIsAll(segments);
        TwoLanesPartition(segments);
        AllAutomations(segments)
    }
  }

  /** With a single lane, that lane holds every group's entries. */
  lemma {:induction false} SingleLaneIsConcat<T>(groups: seq<seq<T>>)
    ensures LaneOf(groups, 1, 0) == Concat(groups)
    decreases |groups|
  {
    if |groups| > 0 {
      SingleLaneIsConcat(groups[..|groups| - 1]);
    }
  }

  /** A lane index outside `0 ..< lanes` (or no lanes at all) collects nothing. */
  lemma {:induction false} NoSuchLaneOf<T>(groups: seq<seq<T>>, lanes: nat, index: int)
    requires index < 0 || index >= lanes
    ensures LaneOf(groups, lanes, index) == []
    decreases |groups|
  {
    if lanes > 0 && |groups| > 0 {
      NoSuchLaneOf(groups[..|groups| - 1], lanes, index);
    }
  }

  /** With two lanes, lanes 0 and 1 together hold every group's entries exactly once. */
  lemma {:induction false} TwoLanesOf<T>(groups: seq<seq<T>>)
    ensures multiset(LaneOf(groups, 2, 0)) + multiset(LaneOf(groups, 2, 1)) == multiset(Concat(groups))
    ensures |LaneOf(groups, 2, 0)| + |LaneOf(groups, 2, 1)| == |Concat(groups)|
    decreases |groups|
  {
    if |groups| > 0 {
      var last := |groups| - 1;
      TwoLanesOf(groups[..last]);
      assert last % 2 == 0 || last % 2 == 1;
    }
  }

  /** With a single lane, that lane carries every segment's automations. */
  lemma SingleLaneIsAll(segments: seq<Segment>)
    ensures LaneAutomations(segments, 1, 0) == AllAutomations(segments)
  {
    SingleLaneIsConcat(AutomationsOf(segments));
  }

  /** A lane index outside `0 ..< lanes` (or no lanes at all) collects nothing. */
  lemma NoSuchLaneIsEmpty(segments: seq<Segment>, lanes: nat, index: int)
    requires index < 0 || index >= lanes
    ensures LaneAutomations(segments, lanes, index) == []
  {
    NoSuchLaneOf(AutomationsOf(segments), lanes, index);
  }

  /**
   * With two lanes, lanes 0 and 1 together hold every segment's automations exactly once:
   * as multisets they add up to all automations, and their lengths add up to its length.
   */
  lemma TwoLanesPartition(segments: seq<Segment>)
    ensures multiset(LaneAutomations(segments, 2, 0)) + multiset(LaneAutomations(segments, 2, 1))
              == multiset(AllAutomations(segments))
    ensures |LaneAutomations(segments, 2, 0)| + |LaneAutomations(segments, 2, 1)| == |AllAutomations(segments)|
  {
    TwoLanesOf(AutomationsOf(segments));
  }
}
