/**
 * `ElectronVideoCompositionBuilder`
 * (Photon/Source/Builder/VideoComposition/Electron/ElectronVideoCompositionBuilder.swift): turns
 * an Electron composition into the video composition's settings and its instruction list,
 * cycling "pass through A", "transition from A to B", "pass through B", ...
 */
module ElectronVideoBuilders {
  import opened Optional
  import opened Timing
  import opened Geometry
  import opened Compositions
  import opened ElectronCompositions
  import opened ElectronInstructions
  import VideoItems
  import ElectronBuilders

  /**
   * One emitted instruction: with a custom compositor, the state of an
   * `ElectronVideoCompositionInstruction`; without one, a plain AVFoundation instruction, kept as
   * its range and the lanes of its layers.
   */
  datatype Instruction =
    | Custom(record: InstructionRecord)
    | Plain(range: TimeRange, layerTracks: seq<int>)
  {
    function TimeRange(): TimeRange
    {
      match this
      case Custom(record) => record.timeRange
      case Plain(range, _) => range
    }

    function LayerTracks(): seq<int>
    {
      match this
      case Custom(record) => seq(|record.layerInstructions|, k requires 0 <= k < |record.layerInstructions| => record.layerInstructions[k].trackID)
      case Plain(_, tracks) => tracks
    }
  }

  /**
   * The settings `build(in:)` gives the mutable video composition: the frame duration (unset on
   * a fresh one), the render size, whether a custom compositor class is set, and the instructions.
   */
  datatype VideoComposition = VideoComposition(
    frameDuration: Option<Time>,
    renderSize: Size,
    customCompositor: bool,
    instructions: seq<Instruction>)

  /** A fresh `AVMutableVideoComposition`. */
  const EmptyVideoComposition := VideoComposition(None, ZeroSize, false, [])

  /** The protocol's default `preferredFrameDuration`: 30 frames per second. */
  const PreferredFrameDuration: Time := 1.0 / 30.0

  /**
   * What the builder relies on of the composition: one pass-through and one transition range per
   * electron, one video lane once there is an electron and two once there are two.
   */
  predicate WellFormed(c: ElectronComposition)
  {
    |c.passthroughTimeRanges| == |c.electrons| && |c.transitionTimeRanges| == |c.electrons| &&
    (|c.electrons| >= 1 ==> |c.videoTracks| >= 1) && (|c.electrons| >= 2 ==> |c.videoTracks| >= 2)
  }

  /**
   * The pass-through instruction for electron `i`, on lane `i % 2`. With a custom compositor it
   * has no pass-through track (so the compositor still runs to apply the filter), requires that
   * lane alone and carries one layer with the electron's filter.
   */
  function PassthroughInstruction(c: ElectronComposition, custom: bool, i: nat): (r: Instruction)
    requires WellFormed(c) && i < |c.electrons|
    ensures r.TimeRange() == c.passthroughTimeRanges[i]
    ensures r.LayerTracks() == [c.videoTracks[i % 2]]
    ensures r.Custom? <==> custom
    ensures custom ==>
              r.record.requiredSourceTrackIDs == Some([c.videoTracks[i % 2]]) &&
              r.record.passthroughTrackID == InvalidTrackID && !r.record.containsTweening &&
              r.record.layerInstructions[0].filter == c.electrons[i].filter
  {
    var lane := c.videoTracks[i % 2];
    if custom then
      Custom(InstructionRecord(InvalidTrackID, InvalidTrackID, [LayerFor(lane, c.electrons[i].filter)],
                               c.passthroughTimeRanges[i], false, false, Some([lane]), InvalidTrackID))
    else
      Plain(c.passthroughTimeRanges[i], [lane])
  }

  /**
   * The transition instruction after electron `i`: from lane `i % 2` to the other one. With a
   * custom compositor it requires both lanes, tweens, and names the foreground and background.
   */
  function TransitionInstruction(c: ElectronComposition, custom: bool, i: nat): (r: Instruction)
    requires WellFormed(c) && i + 1 < |c.electrons|
    ensures r.TimeRange() == c.transitionTimeRanges[i]
    ensures r.LayerTracks() == [c.videoTracks[i % 2], c.videoTracks[1 - i % 2]]
    ensures r.Custom? <==> custom
    ensures custom ==>
              r.record.requiredSourceTrackIDs == Some([c.videoTracks[0], c.videoTracks[1]]) &&
              r.record.foregroundTrackID == c.videoTracks[i % 2] &&
              r.record.backgroundTrackID == c.videoTracks[1 - i % 2] &&
              r.record.passthroughTrackID == InvalidTrackID && r.record.containsTweening
  {
    var from := c.videoTracks[i % 2];
    var to := c.videoTracks[1 - i % 2];
    if custom then
      Custom(InstructionRecord(from, to, [LayerFor(from, None), LayerFor(to, None)],
                               c.transitionTimeRanges[i], false, true, Some([c.videoTracks[0], c.videoTracks[1]]), InvalidTrackID))
    else
      Plain(c.transitionTimeRanges[i], [from, to])
  }

  /**
   * The first `k` entries of `passes`, each followed by the entry of `transitions` at the same
   * position unless it is the last of `passes`.
   */
  function Interleave<T>(passes: seq<T>, transitions: seq<T>, k: nat): seq<T>
    requires k <= |passes| <= |transitions| + 1
  {
    if k == 0 then []
    else
      Interleave(passes, transitions, k - 1) + [passes[k - 1]]
        + (if k < |passes| then [transitions[k - 1]] else [])
  }

  /** The pass-through instruction of every electron, in order. */
  function Passthroughs(c: ElectronComposition, custom: bool): (r: seq<Instruction>)
    requires WellFormed(c)
    ensures |r| == |c.electrons|
  {
    seq(|c.electrons|, i requires 0 <= i < |c.electrons| => PassthroughInstruction(c, custom, i))
  }

  /** The transition instruction after every electron but the last, in order. */
  function Transitions(c: ElectronComposition, custom: bool): (r: seq<Instruction>)
    requires WellFormed(c)
    ensures |r| + 1 == |c.electrons| || (|r| == 0 && |c.electrons| == 0)
  {
    seq(if |c.electrons| == 0 then 0 else |c.electrons| - 1,
        i requires 0 <= i && i + 1 < |c.electrons| => TransitionInstruction(c, custom, i))
  }

  /** The instructions for the first `k` electrons: each pass-through, followed by its transition unless last. */
  function InstructionsUpTo(c: ElectronComposition, custom: bool, k: nat): seq<Instruction>
    requires WellFormed(c) && k <= |c.electrons|
  {
    Interleave(Passthroughs(c, custom), Transitions(c, custom), k)
  }

  /** The whole instruction list. */
  function Instructions(c: ElectronComposition, custom: bool): seq<Instruction>
    requires WellFormed(c)
  {
    InstructionsUpTo(c, custom, |c.electrons|)
  }

  /**
   * `build(in:)`: without electrons, a fresh video composition; otherwise 30 frames per second,
   * the preferred size or else the first electron's natural size, the compositor setting, and
   * the alternating instructions.
   */
  method Build(c: ElectronComposition, preferredVideoSize: Size, custom: bool) returns (v: VideoComposition)
    requires WellFormed(c)
    ensures |c.electrons| == 0 ==> v == EmptyVideoComposition
    ensures |c.electrons| > 0 ==>
              v.frameDuration == Some(PreferredFrameDuration) &&
              v.renderSize == (if preferredVideoSize == ZeroSize then c.electrons[0].naturalSize else preferredVideoSize) &&
              v.customCompositor == custom &&
              v.instructions == Instructions(c, custom)
  {
    v := EmptyVideoComposition;
    if |c.electrons| == 0 {
      return;
    }
    v := v.(frameDuration := Some(PreferredFrameDuration));
    if preferredVideoSize == ZeroSize {
      v := v.(renderSize := c.electrons[0].naturalSize);
    } else {
      v := v.(renderSize := preferredVideoSize);
    }
    v := v.(customCompositor := custom);
    var instructions := MakeTransitionInstructions(c, custom);
    v := v.(instructions := instructions);
  }

  /** `makeTransitionInstructions(in:composition:)`: the loop over the electrons. */
  method MakeTransitionInstructions(c: ElectronComposition, custom: bool) returns (instructions: seq<Instruction>)
    requires WellFormed(c)
    ensures instructions == Instructions(c, custom)
  {
    instructions := [];
    for i := 0 to |c.electrons|
      invariant instructions == InstructionsUpTo(c, custom, i)
    {
      var alternatingIndex := i % 2;
      var passthrough := MakePassthrough(c, custom, i, alternatingIndex);
      instructions := instructions + [passthrough];
      if i + 1 < |c.electrons| {
        var transition := MakeTransition(c, custom, i, alternatingIndex);
        instructions := instructions + [transition];
      }
    }
  }

  /** The pass-through step of one turn, building the instruction object when a compositor is set. */
  method MakePassthrough(c: ElectronComposition, custom: bool, i: nat, alternatingIndex: nat) returns (r: Instruction)
    requires WellFormed(c) && i < |c.electrons| && alternatingIndex == i % 2
    ensures r == PassthroughInstruction(c, custom, i)
  {
    var lane := c.videoTracks[alternatingIndex];
    if custom {
      var instruction := new ElectronVideoCompositionInstruction.Passthrough(InvalidTrackID, c.passthroughTimeRanges[i]);
      instruction.SetRequiredSourceTrackIDs(Some([lane]));
      instruction.layerInstructions := [LayerFor(lane, c.electrons[i].filter)];
      r := Custom(instruction.Snapshot());
    } else {
      r := Plain(c.passthroughTimeRanges[i], [lane]);
    }
  }

  /** The transition step of one turn, building the instruction object when a compositor is set. */
  method MakeTransition(c: ElectronComposition, custom: bool, i: nat, alternatingIndex: nat) returns (r: Instruction)
    requires WellFormed(c) && i + 1 < |c.electrons| && alternatingIndex == i % 2
    ensures r == TransitionInstruction(c, custom, i)
  {
    var from := c.videoTracks[alternatingIndex];
    var to := c.videoTracks[1 - alternatingIndex];
    if custom {
      var instruction := new ElectronVideoCompositionInstruction.Source([c.videoTracks[0], c.videoTracks[1]], c.transitionTimeRanges[i]);
      instruction.foregroundTrackID := from;
      instruction.backgroundTrackID := to;
      instruction.layerInstructions := [LayerFor(from, None), LayerFor(to, None)];
      r := Custom(instruction.Snapshot());
    } else {
      r := Plain(c.transitionTimeRanges[i], [from, to]);
    }
  }

  /** Interleaving `k` entries gives `2k` of them, one fewer once the last is included. */
  lemma {:induction false} InterleaveLength<T>(passes: seq<T>, transitions: seq<T>, k: nat)
    requires k <= |passes| <= |transitions| + 1
    ensures |Interleave(passes, transitions, k)| == if k == |passes| && k > 0 then 2 * k - 1 else 2 * k
  {
    if k > 0 {
      InterleaveLength(passes, transitions, k - 1);
    }
  }

  /** Interleaving fewer entries gives a prefix of interleaving more. */
  lemma {:induction false} InterleavePrefix<T>(passes: seq<T>, transitions: seq<T>, j: nat, k: nat)
    requires j <= k <= |passes| <= |transitions| + 1
    ensures Interleave(passes, transitions, j) <= Interleave(passes, transitions, k)
    decreases k
  {
    if j < k {
      InterleavePrefix(passes, transitions, j, k - 1);
    }
  }

  /** Entry `2i` of the interleaving is `passes[i]`, and entry `2i + 1` is `transitions[i]`. */
  lemma InterleaveAt<T>(passes: seq<T>, transitions: seq<T>, k: nat, i: nat)
    requires i < k <= |passes| <= |transitions| + 1
    ensures 2 * i < |Interleave(passes, transitions, k)|
    ensures Interleave(passes, transitions, k)[2 * i] == passes[i]
    ensures i + 1 < |passes| ==>
              2 * i + 1 < |Interleave(passes, transitions, k)| &&
              Interleave(passes, transitions, k)[2 * i + 1] == transitions[i]
  {
    InterleaveLength(passes, transitions, i);
    InterleavePrefix(passes, transitions, i + 1, k);
  }

  /** There are `2k` instructions for the first `k` electrons, one fewer once the last is included. */
  lemma InstructionsUpToLength(c: ElectronComposition, custom: bool, k: nat)
    requires WellFormed(c) && k <= |c.electrons|
    ensures |InstructionsUpTo(c, custom, k)| == if k == |c.electrons| && k > 0 then 2 * k - 1 else 2 * k
  {
    InterleaveLength(Passthroughs(c, custom), Transitions(c, custom), k);
  }

  /** `n` electrons give `2n - 1` instructions, and none give none. */
  lemma InstructionCount(c: ElectronComposition, custom: bool)
    requires WellFormed(c)
    ensures |c.electrons| == 0 ==> Instructions(c, custom) == []
    ensures |c.electrons| > 0 ==> |Instructions(c, custom)| == 2 * |c.electrons| - 1
  {
    InstructionsUpToLength(c, custom, |c.electrons|);
  }

  /**
   * Instruction `2i` is the pass-through of electron `i`, and instruction `2i + 1` the
   * transition after it.
   */
  lemma InstructionAt(c: ElectronComposition, custom: bool, k: nat, i: nat)
    requires WellFormed(c) && i < k <= |c.electrons|
    ensures 2 * i < |InstructionsUpTo(c, custom, k)|
    ensures InstructionsUpTo(c, custom, k)[2 * i] == PassthroughInstruction(c, custom, i)
    ensures i + 1 < |c.electrons| ==>
              2 * i + 1 < |InstructionsUpTo(c, custom, k)| &&
              InstructionsUpTo(c, custom, k)[2 * i + 1] == TransitionInstruction(c, custom, i)
  {
    InterleaveAt(Passthroughs(c, custom), Transitions(c, custom), k, i);
  }

  /** The ranges of `c` are those the Electron composition builder lays out for `states`. */
  predicate LaidOut(c: ElectronComposition, states: seq<VideoItems.ItemState>, T: Time)
    requires WellFormed(c)
  {
    |states| == |c.electrons| &&
    forall i :: 0 <= i < |states| ==>
      c.passthroughTimeRanges[i] == ElectronBuilders.PassthroughRange(states, T, i) &&
      c.transitionTimeRanges[i] == ElectronBuilders.TransitionRange(states, T, i)
  }

  /**
   * For a composition laid out by the Electron composition builder, the instructions tile the
   * timeline: pass-through `i` (instruction `2i`) ends where the transition after it begins, and
   * that transition ends where pass-through `i + 1` (instruction `2i + 2`) begins.
   */
  lemma {:induction false} InstructionsAreContiguous(c: ElectronComposition, custom: bool, states: seq<VideoItems.ItemState>, T: Time, i: nat)
    requires WellFormed(c) && LaidOut(c, states, T)
    requires i + 1 < |c.electrons|
    ensures 2 * i + 2 < |Instructions(c, custom)|
    ensures Instructions(c, custom)[2 * i].TimeRange().End() == Instructions(c, custom)[2 * i + 1].TimeRange().start
    ensures Instructions(c, custom)[2 * i + 1].TimeRange().End() == Instructions(c, custom)[2 * i + 2].TimeRange().start
  {
    InstructionCount(c, custom);
    InstructionAt(c, custom, |c.electrons|, i);
    InstructionAt(c, custom, |c.electrons|, i + 1);
    PassthroughMeetsTransition(c, states, T, i);
    TransitionMeetsPassthrough(c, states, T, i);
  }

  /** Pass-through `i` ends where the transition after it starts. */
  lemma PassthroughMeetsTransition(c: ElectronComposition, states: seq<VideoItems.ItemState>, T: Time, i: nat)
    requires WellFormed(c) && LaidOut(c, states, T) && i + 1 < |c.electrons|
    ensures c.passthroughTimeRanges[i].End() == c.transitionTimeRanges[i].start
  {
    ElectronBuilders.RangesAreContiguous(states, T, i);
  }

  /** The transition after pass-through `i` ends where pass-through `i + 1` starts. */
  lemma TransitionMeetsPassthrough(c: ElectronComposition, states: seq<VideoItems.ItemState>, T: Time, i: nat)
    requires WellFormed(c) && LaidOut(c, states, T) && i + 1 < |c.electrons|
    ensures c.transitionTimeRanges[i].End() == c.passthroughTimeRanges[i + 1].start
  {
    ElectronBuilders.RangesAreContiguous(states, T, i);
  }
}
