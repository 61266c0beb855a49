/**
 * `NeutrinoVideoCompositionBuilder`
 * (Photon/Source/Builder/VideoComposition/Neutrino/NeutrinoVideoCompositionBuilder.swift): takes
 * the instructions AVFoundation derives from the Neutrino composition, finds the transition
 * instructions among them, gives their layers the opacity ramps of the transition's kind, and
 * records where each layer's transform is set and the render size.
 *
 * AVFoundation's own instruction list (from `AVMutableVideoComposition(propertiesOf:)`) is an
 * input here. Instructions and layer instructions are kept as values inside the mutable video
 * composition; a transition instruction refers to its instruction and layers by position.
 */
module NeutrinoVideoBuilders {
  import opened Optional
  import opened Timing
  import opened Geometry
  import opened Transitions
  import opened Segments
  import opened NeutrinoCompositions

  /** An opacity ramp set on a layer instruction. */
  datatype OpacityRamp = OpacityRamp(startOpacity: real, endOpacity: real, timeRange: TimeRange)

  /**
   * A transform set on a layer instruction at time `at`, kept as the inputs of
   * `transform(withOrientation:renderSize:naturalSize:fillMode:)`; the matrix itself is not modelled.
   */
  datatype TransformSetting = TransformSetting(at: Time, orientation: ImageOrientation, naturalSize: Size,
                                               renderSize: Size, fillMode: FillMode)

  /** A layer instruction: the track it shows, and the ramps and transforms set on it so far. */
  datatype LayerInstruction = LayerInstruction(trackID: int, opacityRamps: seq<OpacityRamp>, transforms: seq<TransformSetting>)

  /** A composition instruction: whether it is an `AVMutableVideoCompositionInstruction`, its range and layers. */
  datatype CompositionInstruction = CompositionInstruction(isMutable: bool, timeRange: TimeRange, layers: seq<LayerInstruction>)

  /**
   * `VideoCompositionInstruction`: the composition instruction at position `instruction`, its
   * layers at positions `fromLayer` and `toLayer`, and the transition to play between them.
   */
  datatype TransitionInstruction = TransitionInstruction(instruction: nat, fromLayer: nat, toLayer: nat, transition: VideoTransition)

  /** The loop variables of `makeInstructions`. */
  datatype ScanState = ScanState(layerIndex: nat, isTransitioningLayer: bool, index: nat, found: seq<TransitionInstruction>)

  /** The loop variables before the first instruction: layer index 1, "transitioning", no single-layer instruction seen. */
  const InitialScan := ScanState(1, true, 0, [])

  function Flip(layerIndex: nat): nat
  {
    if layerIndex == 1 then 0 else 1
  }

  /**
   * One turn of `makeInstructions` on the mutable instruction at position `pos`, or `None` where
   * the source traps (a transition before any single-layer instruction, past the segments, or
   * with no tail transition). A multi-layer instruction yields a transition from layer
   * `1 - layerIndex` to layer `layerIndex` with the tail transition of the segment before, and
   * flips the index; a single-layer one counts a segment and flips the index only when it follows
   * another single-layer one.
   */
  function ScanStep(instruction: CompositionInstruction, pos: nat, segments: seq<VideoSegment>, st: ScanState): (r: Option<ScanState>)
    requires st.layerIndex <= 1
    ensures r.Some? ==> r.value.layerIndex <= 1 && r.value.isTransitioningLayer == (|instruction.layers| > 1)
    ensures r.Some? && |instruction.layers| > 1 ==>
              0 < st.index <= |segments| && segments[st.index - 1].tailTransition.Some? &&
              r.value == ScanState(Flip(st.layerIndex), true, st.index,
                                   st.found + [TransitionInstruction(pos, 1 - st.layerIndex, st.layerIndex,
                                                                     segments[st.index - 1].tailTransition.value)])
    ensures |instruction.layers| <= 1 ==>
              r == Some(ScanState(if st.isTransitioningLayer then st.layerIndex else Flip(st.layerIndex), false,
                                  st.index + 1, st.found))
    ensures r.None? <==> |instruction.layers| > 1 && (st.index == 0 || st.index > |segments| || segments[st.index - 1].tailTransition.None?)
  {
    if |instruction.layers| > 1 then
      if st.index == 0 || st.index > |segments| || segments[st.index - 1].tailTransition.None? then None
      else
        var t := TransitionInstruction(pos, 1 - st.layerIndex, st.layerIndex, segments[st.index - 1].tailTransition.value);
        Some(ScanState(Flip(st.layerIndex), true, st.index, st.found + [t]))
    else
      Some(ScanState(if st.isTransitioningLayer then st.layerIndex else Flip(st.layerIndex), false, st.index + 1, st.found))
  }

  /** `makeInstructions` from position `pos` on: stops at the end or at the first non-mutable instruction. */
  function ScanFrom(instructions: seq<CompositionInstruction>, segments: seq<VideoSegment>, pos: nat, st: ScanState): Option<seq<TransitionInstruction>>
    requires pos <= |instructions| && st.layerIndex <= 1
    decreases |instructions| - pos
  {
    if pos == |instructions| || !instructions[pos].isMutable then Some(st.found)
    else
      match ScanStep(instructions[pos], pos, segments, st)
      case None => None
      case Some(next) => ScanFrom(instructions, segments, pos + 1, next)
  }

  /** The transition instructions `makeInstructions` finds, or `None` where it traps. */
  function Scan(instructions: seq<CompositionInstruction>, segments: seq<VideoSegment>): Option<seq<TransitionInstruction>>
  {
    ScanFrom(instructions, segments, 0, InitialScan)
  }

  /** `makeInstructions(in:videoSegments:)`. */
  method MakeInstructions(instructions: seq<CompositionInstruction>, videoSegments: seq<VideoSegment>)
    returns (r: Option<seq<TransitionInstruction>>)
    ensures r == Scan(instructions, videoSegments)
  {
    var transitionInstructions: seq<TransitionInstruction> := [];
    var layerInstructionIndex: nat := 1;
    var isTransitioningLayer := true;
    var index: nat := 0;
    var pos := 0;
    while pos < |instructions|
      invariant pos <= |instructions| && layerInstructionIndex <= 1
      invariant Scan(instructions, videoSegments)
                == ScanFrom(instructions, videoSegments, pos,
                            ScanState(layerInstructionIndex, isTransitioningLayer, index, transitionInstructions))
      decreases |instructions| - pos
    {
      var instruction := instructions[pos];
      if !instruction.isMutable {
        break;
      }
      if |instruction.layers| > 1 {
        if index == 0 || index > |videoSegments| || videoSegments[index - 1].tailTransition.None? {
          return None;
        }
        var transition := videoSegments[index - 1].tailTransition.value;
        transitionInstructions := transitionInstructions
          + [TransitionInstruction(pos, 1 - layerInstructionIndex, layerInstructionIndex, transition)];
        layerInstructionIndex := if layerInstructionIndex == 1 then 0 else 1;
      } else {
        if !isTransitioningLayer {
          layerInstructionIndex := if layerInstructionIndex == 1 then 0 else 1;
        }
        index := index + 1;
      }
      isTransitioningLayer := |instruction.layers| > 1;
      pos := pos + 1;
    }
    return Some(transitionInstructions);
  }

  /** Where the scan from `pos` stops: the end, or the first non-mutable instruction. */
  function Stop(instructions: seq<CompositionInstruction>, pos: nat): (stop: nat)
    requires pos <= |instructions|
    ensures pos <= stop <= |instructions|
    decreases |instructions| - pos
  {
    if pos == |instructions| || !instructions[pos].isMutable then pos else Stop(instructions, pos + 1)
  }

  /** The positions of the multi-layer instructions the scan from `pos` visits, in order. */
  function MultiLayerPositions(instructions: seq<CompositionInstruction>, pos: nat): seq<nat>
    requires pos <= |instructions|
    decreases |instructions| - pos
  {
    if pos == |instructions| || !instructions[pos].isMutable then []
    else (if |instructions[pos].layers| > 1 then [pos] else []) + MultiLayerPositions(instructions, pos + 1)
  }

  /** The scan from `pos` visits only mutable instructions and stops at the first one that is not. */
  lemma {:induction false} StopIsFirstImmutable(instructions: seq<CompositionInstruction>, pos: nat)
    requires pos <= |instructions|
    ensures forall q :: pos <= q < Stop(instructions, pos) ==> instructions[q].isMutable
    ensures Stop(instructions, pos) < |instructions| ==> !instructions[Stop(instructions, pos)].isMutable
    decreases |instructions| - pos
  {
    if pos < |instructions| && instructions[pos].isMutable {
      StopIsFirstImmutable(instructions, pos + 1);
    }
  }

  /** The positions are exactly the multi-layer instructions before the stop. */
  lemma {:induction false} MultiLayerMembers(instructions: seq<CompositionInstruction>, pos: nat)
    requires pos <= |instructions|
    ensures forall q :: q in MultiLayerPositions(instructions, pos) <==>
              pos <= q < Stop(instructions, pos) && |instructions[q].layers| > 1
    decreases |instructions| - pos
  {
    if pos < |instructions| && instructions[pos].isMutable {
      MultiLayerMembers(instructions, pos + 1);
    }
  }

  /** The positions come in increasing order. */
  lemma {:induction false} MultiLayerSorted(instructions: seq<CompositionInstruction>, pos: nat)
    requires pos <= |instructions|
    ensures forall j, k :: 0 <= j < k < |MultiLayerPositions(instructions, pos)| ==>
              MultiLayerPositions(instructions, pos)[j] < MultiLayerPositions(instructions, pos)[k]
    decreases |instructions| - pos
  {
    if pos < |instructions| && instructions[pos].isMutable {
      MultiLayerSorted(instructions, pos + 1);
      var rest := MultiLayerPositions(instructions, pos + 1);
      if |instructions[pos].layers| > 1 {
        MultiLayerMembers(instructions, pos + 1);
        forall k | 0 <= k < |rest|
          ensures pos < rest[k]
        {
          assert rest[k] in rest;
        }
        assert MultiLayerPositions(instructions, pos) == [pos] + rest;
      }
    }
  }

  /**
   * `Stop` is the first non-mutable instruction, and the positions are exactly the multi-layer
   * instructions before it, in increasing order.
   */
  lemma MultiLayerPositionsAre(instructions: seq<CompositionInstruction>, pos: nat)
    requires pos <= |instructions|
    ensures forall q :: pos <= q < Stop(instructions, pos) ==> instructions[q].isMutable
    ensures Stop(instructions, pos) < |instructions| ==> !instructions[Stop(instructions, pos)].isMutable
    ensures forall q :: q in MultiLayerPositions(instructions, pos) <==>
              pos <= q < Stop(instructions, pos) && |instructions[q].layers| > 1
    ensures forall j, k :: 0 <= j < k < |MultiLayerPositions(instructions, pos)| ==>
              MultiLayerPositions(instructions, pos)[j] < MultiLayerPositions(instructions, pos)[k]
  {
    StopIsFirstImmutable(instructions, pos);
    MultiLayerMembers(instructions, pos);
    MultiLayerSorted(instructions, pos);
  }

  /**
   * `out` is `found` followed by one transition instruction per position in `positions`, in
   * order, each reading layers `1 - k` and `k` for some `k` in {0, 1}.
   */
  predicate Emits(out: seq<TransitionInstruction>, found: seq<TransitionInstruction>, positions: seq<nat>)
  {
    |out| == |found| + |positions| && out[..|found|] == found &&
    (forall j :: 0 <= j < |positions| ==>
       out[|found| + j].instruction == positions[j] &&
       out[|found| + j].toLayer <= 1 && out[|found| + j].fromLayer == 1 - out[|found| + j].toLayer)
  }

  /** Emitting `t` and then `rest` is emitting `[t.instruction] + rest`. */
  lemma EmitsCons(out: seq<TransitionInstruction>, found: seq<TransitionInstruction>, t: TransitionInstruction, rest: seq<nat>)
    requires Emits(out, found + [t], rest)
    requires t.toLayer <= 1 && t.fromLayer == 1 - t.toLayer
    ensures Emits(out, found, [t.instruction] + rest)
  {
    var n := |found|;
    var positions := [t.instruction] + rest;
    assert out[..n] == (found + [t])[..n] == found;
    forall j | 0 <= j < |positions|
      ensures out[n + j].instruction == positions[j] &&
              out[n + j].toLayer <= 1 && out[n + j].fromLayer == 1 - out[n + j].toLayer
    {
      if j == 0 {
        assert out[n] == (found + [t])[n];
      } else {
        assert out[n + j] == out[|found + [t]| + (j - 1)];
      }
    }
  }

  /**
   * From any point, the scan appends one transition instruction per multi-layer instruction it
   * visits, in order, each reading layers `1 - k` and `k` for some `k` in {0, 1}.
   */
  lemma {:induction false} ScanFromEmits(instructions: seq<CompositionInstruction>, segments: seq<VideoSegment>, pos: nat, st: ScanState)
    requires pos <= |instructions| && st.layerIndex <= 1
    requires ScanFrom(instructions, segments, pos, st).Some?
    ensures Emits(ScanFrom(instructions, segments, pos, st).value, st.found, MultiLayerPositions(instructions, pos))
    decreases |instructions| - pos
  {
    if pos < |instructions| && instructions[pos].isMutable {
      var next := ScanStep(instructions[pos], pos, segments, st).value;
      var out := ScanFrom(instructions, segments, pos + 1, next).value;
      var rest := MultiLayerPositions(instructions, pos + 1);
      ScanFromEmits(instructions, segments, pos + 1, next);
      assert Emits(out, next.found, rest);
      if |instructions[pos].layers| > 1 {
        assert MultiLayerPositions(instructions, pos) == [pos] + rest;
        EmitsCons(out, st.found, next.found[|st.found|], rest);
      } else {
        assert MultiLayerPositions(instructions, pos) == rest;
      }
    }
  }

  /**
   * The transition instructions point at distinct multi-layer instructions, in increasing order,
   * and read two different layers among the first two.
   */
  predicate WellAimed(instructions: seq<CompositionInstruction>, ts: seq<TransitionInstruction>)
  {
    (forall j :: 0 <= j < |ts| ==>
       ts[j].instruction < |instructions| && |instructions[ts[j].instruction].layers| >= 2 &&
       ts[j].toLayer <= 1 && ts[j].fromLayer == 1 - ts[j].toLayer) &&
    (forall j, k :: 0 <= j < k < |ts| ==> ts[j].instruction < ts[k].instruction)
  }

  /**
   * `makeInstructions` yields exactly one transition instruction per multi-layer instruction
   * before the first non-mutable one, in order; so they are well aimed.
   */
  lemma ScanFindsEachMultiLayer(instructions: seq<CompositionInstruction>, segments: seq<VideoSegment>)
    requires Scan(instructions, segments).Some?
    ensures var out := Scan(instructions, segments).value;
            var positions := MultiLayerPositions(instructions, 0);
            |out| == |positions| && (forall j :: 0 <= j < |out| ==> out[j].instruction == positions[j]) &&
            WellAimed(instructions, out)
  {
    var out := Scan(instructions, segments).value;
    var positions := MultiLayerPositions(instructions, 0);
    ScanFromEmits(instructions, segments, 0, InitialScan);
    assert Emits(out, [], positions);
    MultiLayerPositionsAre(instructions, 0);
    forall j | 0 <= j < |out|
      ensures out[j].instruction == positions[j]
      ensures out[j].instruction < |instructions| && |instructions[out[j].instruction].layers| >= 2
      ensures out[j].toLayer <= 1 && out[j].fromLayer == 1 - out[j].toLayer
    {
      assert out[0 + j].instruction == positions[j];
      assert positions[j] in positions;
    }
    forall j, k | 0 <= j < k < |out|
      ensures out[j].instruction < out[k].instruction
    {
      assert out[j].instruction == positions[j] && out[k].instruction == positions[k];
    }
  }

  /**
   * The instruction pattern of a two-lane Neutrino layout: single-layer pass-through instructions
   * at even positions and two-layer transition instructions between them, all mutable, one
   * pass-through per segment, and a tail transition on every segment but the last.
   */
  predicate Alternating(instructions: seq<CompositionInstruction>, segments: seq<VideoSegment>)
  {
    |segments| >= 1 && |instructions| == 2 * |segments| - 1 &&
    (forall p :: 0 <= p < |instructions| ==>
       instructions[p].isMutable && |instructions[p].layers| == (if p % 2 == 0 then 1 else 2)) &&
    (forall k :: 0 <= k < |segments| - 1 ==> segments[k].tailTransition.Some?)
  }

  /** The `k`-th transition expected of the alternating pattern: from lane `k % 2` to the other, with segment `k`'s tail. */
  function Expected(segments: seq<VideoSegment>, k: nat): TransitionInstruction
    requires k < |segments| && segments[k].tailTransition.Some?
  {
    TransitionInstruction(2 * k + 1, k % 2, 1 - k % 2, segments[k].tailTransition.value)
  }

  /** The scan of the alternating pattern from pass-through `m` on. */
  lemma {:induction false} AlternatingFrom(instructions: seq<CompositionInstruction>, segments: seq<VideoSegment>,
                                           m: nat, found: seq<TransitionInstruction>) returns (rest: seq<TransitionInstruction>)
    requires Alternating(instructions, segments) && m < |segments|
    ensures ScanFrom(instructions, segments, 2 * m, ScanState(1 - m % 2, true, m, found)) == Some(found + rest)
    ensures |rest| == |segments| - 1 - m
    ensures forall k :: 0 <= k < |rest| ==> rest[k] == Expected(segments, m + k)
    decreases |segments| - m
  {
    var st := ScanState(1 - m % 2, true, m, found);
    var afterPass := ScanState(1 - m % 2, false, m + 1, found);
    assert ScanStep(instructions[2 * m], 2 * m, segments, st) == Some(afterPass);
    if m == |segments| - 1 {
      rest := [];
      assert found + rest == found;
    } else {
      var t := Expected(segments, m);
      var afterTransition := ScanState(1 - (m + 1) % 2, true, m + 1, found + [t]);
      assert ScanStep(instructions[2 * m + 1], 2 * m + 1, segments, afterPass) == Some(afterTransition);
      var more := AlternatingFrom(instructions, segments, m + 1, found + [t]);
      assert 2 * (m + 1) == 2 * m + 1 + 1;
      rest := [t] + more;
      assert found + [t] + more == found + rest;
    }
  }

  /**
   * For the alternating pattern, `makeInstructions` finds one transition per pair of
   * neighbouring segments: transition `k` is instruction `2k + 1`, goes from layer `k % 2` to
   * layer `1 - k % 2`, and plays segment `k`'s tail transition.
   */
  lemma AlternatingScan(instructions: seq<CompositionInstruction>, segments: seq<VideoSegment>)
    requires Alternating(instructions, segments)
    ensures Scan(instructions, segments).Some?
    ensures |Scan(instructions, segments).value| == |segments| - 1
    ensures forall k :: 0 <= k < |segments| - 1 ==> Scan(instructions, segments).value[k] == Expected(segments, k)
  {
    var rest := AlternatingFrom(instructions, segments, 0, []);
    assert [] + rest == rest;
  }

  /**
   * The opacity policy of `applyTransition` for a transition of kind `kind` over `range`: the
   * ramps for the from layer and for the to layer. A fade ramps both, a dissolve only fades the
   * from layer out, and `.none` sets no ramp.
   */
  function Ramps(kind: VideoTransitionType, range: TimeRange): (r: (seq<OpacityRamp>, seq<OpacityRamp>))
    ensures kind == Fade ==> r == ([OpacityRamp(1.0, 0.0, range)], [OpacityRamp(0.0, 1.0, range)])
    ensures kind == Dissolve ==> r == ([OpacityRamp(1.0, 0.0, range)], [])
    ensures kind == NoneKind ==> r == ([], [])
  {
    match kind
    case Fade => ([OpacityRamp(1.0, 0.0, range)], [OpacityRamp(0.0, 1.0, range)])
    case Dissolve => ([OpacityRamp(1.0, 0.0, range)], [])
    case NoneKind => ([], [])
  }

  /** A transition instruction that reads two different layers, among the first two, of a multi-layer instruction. */
  predicate AimsAt(instructions: seq<CompositionInstruction>, t: TransitionInstruction)
  {
    t.instruction < |instructions| && |instructions[t.instruction].layers| >= 2 &&
    t.toLayer <= 1 && t.fromLayer == 1 - t.toLayer
  }

  /**
   * The instruction after `applyTransition` has handled `t`: the ramps of the transition's kind
   * are added to the from and to layers, over the instruction's own range, and the layers become
   * exactly [from, to]; the range and the mutability stay.
   */
  function Applied(instruction: CompositionInstruction, t: TransitionInstruction): (r: CompositionInstruction)
    requires t.fromLayer < |instruction.layers| && t.toLayer < |instruction.layers|
    ensures r.isMutable == instruction.isMutable && r.timeRange == instruction.timeRange
    ensures |r.layers| == 2
    ensures var (fromRamps, toRamps) := Ramps(t.transition.kind, instruction.timeRange);
            r.layers[0] == instruction.layers[t.fromLayer].(opacityRamps := instruction.layers[t.fromLayer].opacityRamps + fromRamps) &&
            r.layers[1] == instruction.layers[t.toLayer].(opacityRamps := instruction.layers[t.toLayer].opacityRamps + toRamps)
  {
    var (fromRamps, toRamps) := Ramps(t.transition.kind, instruction.timeRange);
    var from := instruction.layers[t.fromLayer];
    var to := instruction.layers[t.toLayer];
    instruction.(layers := [from.(opacityRamps := from.opacityRamps + fromRamps), to.(opacityRamps := to.opacityRamps + toRamps)])
  }

  /** `applyTransition` from transition instruction `j` on. */
  function TransitionedFrom(instructions: seq<CompositionInstruction>, ts: seq<TransitionInstruction>, j: nat): (r: seq<CompositionInstruction>)
    requires j <= |ts| && forall k :: j <= k < |ts| ==> AimsAt(instructions, ts[k])
    ensures |r| == |instructions|
    decreases |ts| - j
  {
    if j == |ts| then instructions
    else
      assert AimsAt(instructions, ts[j]);
      var p := ts[j].instruction;
      ApplyingKeepsAim(instructions, ts, j);
      TransitionedFrom(instructions[p := Applied(instructions[p], ts[j])], ts, j + 1)
  }

  /** Handling transition `j` leaves every later transition instruction aimed. */
  lemma ApplyingKeepsAim(instructions: seq<CompositionInstruction>, ts: seq<TransitionInstruction>, j: nat)
    requires j < |ts| && AimsAt(instructions, ts[j]) && forall k :: j < k < |ts| ==> AimsAt(instructions, ts[k])
    ensures var p := ts[j].instruction;
            forall k :: j < k < |ts| ==> AimsAt(instructions[p := Applied(instructions[p], ts[j])], ts[k])
  {
    var p := ts[j].instruction;
    var next := instructions[p := Applied(instructions[p], ts[j])];
    forall k | j < k < |ts|
      ensures AimsAt(next, ts[k])
    {
      assert AimsAt(instructions, ts[k]);
    }
  }

  /** The instructions after `applyTransition(to: ts)`. */
  function Transitioned(instructions: seq<CompositionInstruction>, ts: seq<TransitionInstruction>): (r: seq<CompositionInstruction>)
    requires WellAimed(instructions, ts)
    ensures |r| == |instructions|
  {
    TransitionedFrom(instructions, ts, 0)
  }

  /**
   * With the transition instructions in increasing order, each aimed instruction ends up as
   * `Applied` to its original self, and every other instruction is left alone.
   */
  lemma {:induction false} TransitionedFromIs(instructions: seq<CompositionInstruction>, ts: seq<TransitionInstruction>, j: nat)
    requires j <= |ts| && forall k :: j <= k < |ts| ==> AimsAt(instructions, ts[k])
    requires forall k, l :: j <= k < l < |ts| ==> ts[k].instruction < ts[l].instruction
    ensures forall k :: j <= k < |ts| ==>
              TransitionedFrom(instructions, ts, j)[ts[k].instruction] == Applied(instructions[ts[k].instruction], ts[k])
    ensures forall p :: 0 <= p < |instructions| && (forall k :: j <= k < |ts| ==> ts[k].instruction != p) ==>
              TransitionedFrom(instructions, ts, j)[p] == instructions[p]
    decreases |ts| - j
  {
    if j < |ts| {
      assert AimsAt(instructions, ts[j]);
      var p := ts[j].instruction;
      var next := instructions[p := Applied(instructions[p], ts[j])];
      ApplyingKeepsAim(instructions, ts, j);
      TransitionedFromIs(next, ts, j + 1);
      var r := TransitionedFrom(instructions, ts, j);
      assert r == TransitionedFrom(next, ts, j + 1);
      forall k | j <= k < |ts|
        ensures r[ts[k].instruction] == Applied(instructions[ts[k].instruction], ts[k])
      {
        if k > j {
          assert ts[k].instruction != p;
        }
      }
    }
  }

  /**
   * After `applyTransition`, every transition instruction's composition instruction holds
   * exactly its from and to layers with the ramps of its kind, and the other instructions are
   * unchanged.
   */
  lemma TransitionedIs(instructions: seq<CompositionInstruction>, ts: seq<TransitionInstruction>)
    requires WellAimed(instructions, ts)
    ensures forall k :: 0 <= k < |ts| ==>
              Transitioned(instructions, ts)[ts[k].instruction] == Applied(instructions[ts[k].instruction], ts[k])
    ensures forall p :: 0 <= p < |instructions| && (forall k :: 0 <= k < |ts| ==> ts[k].instruction != p) ==>
              Transitioned(instructions, ts)[p] == instructions[p]
  {
    TransitionedFromIs(instructions, ts, 0);
  }

  /** Where `applyTransform` stands after one instruction: the updated instruction, the segment index and the render size. */
  datatype TransformStepResult = TransformStepResult(instruction: CompositionInstruction, index: nat, renderSize: Size)

  /** Adds a transform setting to a layer. */
  function WithTransform(layer: LayerInstruction, setting: TransformSetting): LayerInstruction
  {
    layer.(transforms := layer.transforms + [setting])
  }

  /** `after` shows the same tracks with the same opacity ramps as `before`; only transforms may differ. */
  predicate KeepsLayers(before: CompositionInstruction, after: CompositionInstruction)
  {
    after.isMutable == before.isMutable && after.timeRange == before.timeRange && |after.layers| == |before.layers| &&
    forall l :: 0 <= l < |before.layers| ==>
      after.layers[l].trackID == before.layers[l].trackID && after.layers[l].opacityRamps == before.layers[l].opacityRamps
  }

  /**
   * One turn of `applyTransform` on a mutable instruction with layers, or `None` where the source
   * traps (a segment index out of range, or a pass-through segment without a head transition).
   * A single-layer instruction is the pass-through of segment `index`: the render size is fixed
   * from it if still zero, and its layer gets a transform at the segment's start plus its head
   * duration. A multi-layer instruction is the transition into segment `index`: its first two
   * layers get the from and to segments' transforms at the to segment's start.
   */
  function TransformStep(instruction: CompositionInstruction, segments: seq<VideoSegment>, index: nat,
                         renderSize: Size, fillMode: FillMode): (r: Option<TransformStepResult>)
    requires |instruction.layers| >= 1
    ensures r.Some? ==> KeepsLayers(instruction, r.value.instruction) &&
                        forall l :: 2 <= l < |instruction.layers| ==> r.value.instruction.layers[l] == instruction.layers[l]
    ensures r.Some? && |instruction.layers| == 1 ==>
              index < |segments| && segments[index].headTransition.Some? &&
              r.value.index == index + 1 &&
              r.value.renderSize == (if renderSize == ZeroSize then DisplaySize(segments[index].orientation, segments[index].naturalSize) else renderSize) &&
              r.value.instruction.layers[0].transforms == instruction.layers[0].transforms +
                [TransformSetting(segments[index].atTime + segments[index].headTransition.value.duration,
                                  segments[index].orientation, segments[index].naturalSize, r.value.renderSize, fillMode)]
    ensures r.Some? && |instruction.layers| > 1 ==>
              0 < index < |segments| && r.value.index == index && r.value.renderSize == renderSize &&
              r.value.instruction.layers[0].transforms == instruction.layers[0].transforms +
                [TransformSetting(segments[index].atTime, segments[index - 1].orientation, segments[index - 1].naturalSize, renderSize, fillMode)] &&
              r.value.instruction.layers[1].transforms == instruction.layers[1].transforms +
                [TransformSetting(segments[index].atTime, segments[index].orientation, segments[index].naturalSize, renderSize, fillMode)]
    ensures r.None? <==> if |instruction.layers| == 1 then index >= |segments| || segments[index].headTransition.None?
                         else index == 0 || index >= |segments|
  {
    if |instruction.layers| == 1 then
      if index >= |segments| then None
      else
        var segment := segments[index];
        var size := if renderSize == ZeroSize then DisplaySize(segment.orientation, segment.naturalSize) else renderSize;
        if segment.headTransition.None? then None
        else
          var setting := TransformSetting(segment.atTime + segment.headTransition.value.duration,
                                          segment.orientation, segment.naturalSize, size, fillMode);
          Some(TransformStepResult(instruction.(layers := instruction.layers[0 := WithTransform(instruction.layers[0], setting)]),
                                   index + 1, size))
    else
      if index == 0 || index >= |segments| then None
      else
        var from := segments[index - 1];
        var to := segments[index];
        var fromSetting := TransformSetting(to.atTime, from.orientation, from.naturalSize, renderSize, fillMode);
        var toSetting := TransformSetting(to.atTime, to.orientation, to.naturalSize, renderSize, fillMode);
        var layers := instruction.layers[0 := WithTransform(instruction.layers[0], fromSetting)];
        Some(TransformStepResult(instruction.(layers := layers[1 := WithTransform(layers[1], toSetting)]), index, renderSize))
  }

  /** The instructions and render size `applyTransform` leaves. */
  datatype Transformed = Transformed(instructions: seq<CompositionInstruction>, renderSize: Size)

  /**
   * `applyTransform` from position `pos` on: stops at the end or at the first non-mutable or empty
   * instruction. The positions before `pos` are left alone.
   */
  function TransformFrom(instructions: seq<CompositionInstruction>, segments: seq<VideoSegment>, pos: nat, index: nat,
                         renderSize: Size, fillMode: FillMode): (r: Option<Transformed>)
    requires pos <= |instructions|
    ensures r.Some? ==> |r.value.instructions| == |instructions| &&
                        (forall p :: 0 <= p < pos ==> r.value.instructions[p] == instructions[p])
    decreases |instructions| - pos
  {
    if pos == |instructions| || !instructions[pos].isMutable || |instructions[pos].layers| == 0 then
      Some(Transformed(instructions, renderSize))
    else
      match TransformStep(instructions[pos], segments, index, renderSize, fillMode)
      case None => None
      case Some(step) =>
        TransformFrom(instructions[pos := step.instruction], segments, pos + 1, step.index, step.renderSize, fillMode)
  }

  /** `applyTransform` changes no layer's track or opacity ramps, and no instruction's range or layer count. */
  lemma {:induction false} TransformKeepsLayers(instructions: seq<CompositionInstruction>, segments: seq<VideoSegment>, pos: nat,
                                                index: nat, renderSize: Size, fillMode: FillMode)
    requires pos <= |instructions| && TransformFrom(instructions, segments, pos, index, renderSize, fillMode).Some?
    ensures forall p :: pos <= p < |instructions| ==>
              KeepsLayers(instructions[p], TransformFrom(instructions, segments, pos, index, renderSize, fillMode).value.instructions[p])
    decreases |instructions| - pos
  {
    if pos < |instructions| && instructions[pos].isMutable && |instructions[pos].layers| > 0 {
      var step := TransformStep(instructions[pos], segments, index, renderSize, fillMode).value;
      var next := instructions[pos := step.instruction];
      TransformKeepsLayers(next, segments, pos + 1, step.index, step.renderSize, fillMode);
      var r := TransformFrom(next, segments, pos + 1, step.index, step.renderSize, fillMode).value.instructions;
      assert r[pos] == step.instruction;
      forall p | pos < p < |instructions|
        ensures KeepsLayers(instructions[p], r[p])
      {
        assert next[p] == instructions[p];
      }
    }
  }

  /** `applyTransform(to:videoSegments:)` for a builder with the given preferred size and fill mode. */
  function Transform(instructions: seq<CompositionInstruction>, segments: seq<VideoSegment>,
                     preferredVideoSize: Size, fillMode: FillMode): Option<Transformed>
  {
    TransformFrom(instructions, segments, 0, 0, preferredVideoSize, fillMode)
  }

  /** Once the render size is not zero, no later instruction changes it. */
  lemma {:induction false} RenderSizeSticks(instructions: seq<CompositionInstruction>, segments: seq<VideoSegment>, pos: nat, index: nat,
                                            renderSize: Size, fillMode: FillMode)
    requires pos <= |instructions| && renderSize != ZeroSize
    requires TransformFrom(instructions, segments, pos, index, renderSize, fillMode).Some?
    ensures TransformFrom(instructions, segments, pos, index, renderSize, fillMode).value.renderSize == renderSize
    decreases |instructions| - pos
  {
    if pos < |instructions| && instructions[pos].isMutable && |instructions[pos].layers| > 0 {
      var step := TransformStep(instructions[pos], segments, index, renderSize, fillMode).value;
      RenderSizeSticks(instructions[pos := step.instruction], segments, pos + 1, step.index, step.renderSize, fillMode);
    }
  }

  /**
   * The render size: a non-zero preferred size is kept; with a zero preferred size and the
   * pass-through of the first segment first, it is that segment's natural size as displayed
   * (width and height exchanged for `.up` and `.down`), unless that is zero too.
   */
  lemma RenderSizeIs(instructions: seq<CompositionInstruction>, segments: seq<VideoSegment>,
                     preferredVideoSize: Size, fillMode: FillMode)
    requires Transform(instructions, segments, preferredVideoSize, fillMode).Some?
    ensures preferredVideoSize != ZeroSize ==>
              Transform(instructions, segments, preferredVideoSize, fillMode).value.renderSize == preferredVideoSize
    ensures preferredVideoSize == ZeroSize && |instructions| > 0 && instructions[0].isMutable &&
            |instructions[0].layers| == 1 && DisplaySize(segments[0].orientation, segments[0].naturalSize) != ZeroSize ==>
              Transform(instructions, segments, preferredVideoSize, fillMode).value.renderSize
                == DisplaySize(segments[0].orientation, segments[0].naturalSize)
  {
    if preferredVideoSize != ZeroSize {
      RenderSizeSticks(instructions, segments, 0, 0, preferredVideoSize, fillMode);
    } else if |instructions| > 0 && instructions[0].isMutable && |instructions[0].layers| == 1 {
      var step := TransformStep(instructions[0], segments, 0, preferredVideoSize, fillMode).value;
      if step.renderSize != ZeroSize {
        RenderSizeSticks(instructions[0 := step.instruction], segments, 1, step.index, step.renderSize, fillMode);
      }
    }
  }

  /**
   * For the alternating pattern, `applyTransition` turns transition instruction `2k + 1` into
   * [layer `k % 2`, layer `1 - k % 2`] with the ramps of segment `k`'s tail transition, and leaves
   * the pass-through instructions as they are.
   */
  lemma AlternatingTransitions(instructions: seq<CompositionInstruction>, segments: seq<VideoSegment>)
    requires Alternating(instructions, segments)
    ensures Scan(instructions, segments).Some? && WellAimed(instructions, Scan(instructions, segments).value)
    ensures forall k :: 0 <= k < |segments| - 1 ==>
              Transitioned(instructions, Scan(instructions, segments).value)[2 * k + 1]
                == Applied(instructions[2 * k + 1], Expected(segments, k))
    ensures forall m :: 0 <= m < |segments| ==>
              Transitioned(instructions, Scan(instructions, segments).value)[2 * m] == instructions[2 * m]
  {
    AlternatingScan(instructions, segments);
    ExpectedTransitioned(instructions, segments, Scan(instructions, segments).value);
  }

  /** The expected transitions of the alternating pattern are well aimed. */
  lemma ExpectedWellAimed(instructions: seq<CompositionInstruction>, segments: seq<VideoSegment>, ts: seq<TransitionInstruction>)
    requires Alternating(instructions, segments)
    requires |ts| == |segments| - 1 && forall k :: 0 <= k < |ts| ==> ts[k] == Expected(segments, k)
    ensures WellAimed(instructions, ts)
  {
    forall j | 0 <= j < |ts|
      ensures ts[j].instruction < |instructions| && |instructions[ts[j].instruction].layers| >= 2
      ensures ts[j].toLayer <= 1 && ts[j].fromLayer == 1 - ts[j].toLayer
    {
      assert ts[j] == Expected(segments, j);
      assert ts[j].instruction == 2 * j + 1 && (2 * j + 1) % 2 == 1;
    }
    forall j, k | 0 <= j < k < |ts|
      ensures ts[j].instruction < ts[k].instruction
    {
      assert ts[j] == Expected(segments, j) && ts[k] == Expected(segments, k);
    }
  }

  /** `applyTransition` with the expected transitions of the alternating pattern. */
  lemma ExpectedTransitioned(instructions: seq<CompositionInstruction>, segments: seq<VideoSegment>, ts: seq<TransitionInstruction>)
    requires Alternating(instructions, segments)
    requires |ts| == |segments| - 1 && forall k :: 0 <= k < |ts| ==> ts[k] == Expected(segments, k)
    ensures WellAimed(instructions, ts)
    ensures forall k :: 0 <= k < |segments| - 1 ==>
              Transitioned(instructions, ts)[2 * k + 1] == Applied(instructions[2 * k + 1], Expected(segments, k))
    ensures forall m :: 0 <= m < |segments| ==> Transitioned(instructions, ts)[2 * m] == instructions[2 * m]
  {
    ExpectedWellAimed(instructions, segments, ts);
    TransitionedIs(instructions, ts);
    forall k | 0 <= k < |segments| - 1
      ensures Transitioned(instructions, ts)[2 * k + 1] == Applied(instructions[2 * k + 1], Expected(segments, k))
    {
      assert ts[k].instruction == 2 * k + 1;
    }
    forall m | 0 <= m < |segments|
      ensures Transitioned(instructions, ts)[2 * m] == instructions[2 * m]
    {
      forall k | 0 <= k < |ts|
        ensures ts[k].instruction != 2 * m
      {
        assert ts[k].instruction == 2 * k + 1;
      }
    }
  }

  /** Every segment has a head transition, which each pass-through's transform time reads. */
  predicate HeadsPresent(segments: seq<VideoSegment>)
  {
    forall k :: 0 <= k < |segments| ==> segments[k].headTransition.Some?
  }

  /**
   * The render size `applyTransform` holds after the pass-throughs of the first `m` segments:
   * the preferred size, replaced by the first of those segments' displayed sizes while it is zero.
   */
  function SizeAfter(segments: seq<VideoSegment>, preferredVideoSize: Size, m: nat): (size: Size)
    requires m <= |segments|
    ensures preferredVideoSize != ZeroSize ==> size == preferredVideoSize
  {
    if m == 0 then preferredVideoSize
    else
      var before := SizeAfter(segments, preferredVideoSize, m - 1);
      if before == ZeroSize then DisplaySize(segments[m - 1].orientation, segments[m - 1].naturalSize) else before
  }

  /** Pass-through `2k` of `r` holds one transform more than in `instructions`: segment `k`'s, at its start plus its head duration. */
  predicate PassThroughSet(instructions: seq<CompositionInstruction>, segments: seq<VideoSegment>,
                           preferredVideoSize: Size, fillMode: FillMode, r: seq<CompositionInstruction>, k: nat)
  {
    k < |segments| && 2 * k < |r| && 2 * k < |instructions| && |instructions[2 * k].layers| >= 1 &&
    segments[k].headTransition.Some? && |r[2 * k].layers| == 1 &&
    r[2 * k].layers[0].transforms == instructions[2 * k].layers[0].transforms +
      [TransformSetting(segments[k].atTime + segments[k].headTransition.value.duration, segments[k].orientation,
                        segments[k].naturalSize, SizeAfter(segments, preferredVideoSize, k + 1), fillMode)]
  }

  /** Transition `2k + 1` of `r` holds one transform more on each layer: segments `k` and `k + 1`'s, at segment `k + 1`'s start. */
  predicate TransitionSet(instructions: seq<CompositionInstruction>, segments: seq<VideoSegment>,
                          preferredVideoSize: Size, fillMode: FillMode, r: seq<CompositionInstruction>, k: nat)
  {
    k + 1 < |segments| && 2 * k + 1 < |r| && 2 * k + 1 < |instructions| && |instructions[2 * k + 1].layers| >= 2 &&
    |r[2 * k + 1].layers| == 2 &&
    r[2 * k + 1].layers[0].transforms == instructions[2 * k + 1].layers[0].transforms +
      [TransformSetting(segments[k + 1].atTime, segments[k].orientation, segments[k].naturalSize,
                        SizeAfter(segments, preferredVideoSize, k + 1), fillMode)] &&
    r[2 * k + 1].layers[1].transforms == instructions[2 * k + 1].layers[1].transforms +
      [TransformSetting(segments[k + 1].atTime, segments[k + 1].orientation, segments[k + 1].naturalSize,
                        SizeAfter(segments, preferredVideoSize, k + 1), fillMode)]
  }

  /** Whether pass-through `2k` or transition `2k + 1` is set depends only on that instruction. */
  lemma SetDependsOnlyOnItself(instructions: seq<CompositionInstruction>, segments: seq<VideoSegment>,
                               preferredVideoSize: Size, fillMode: FillMode, a: seq<CompositionInstruction>,
                               b: seq<CompositionInstruction>, k: nat)
    requires |a| == |b|
    ensures 2 * k < |a| && a[2 * k] == b[2 * k] ==>
              PassThroughSet(instructions, segments, preferredVideoSize, fillMode, a, k) ==
              PassThroughSet(instructions, segments, preferredVideoSize, fillMode, b, k)
    ensures 2 * k + 1 < |a| && a[2 * k + 1] == b[2 * k + 1] ==>
              TransitionSet(instructions, segments, preferredVideoSize, fillMode, a, k) ==
              TransitionSet(instructions, segments, preferredVideoSize, fillMode, b, k)
  {
  }

  /** One turn of `applyTransform`'s loop: a step on a mutable instruction with layers, then the rest of the walk. */
  lemma TransformFromStep(instructions: seq<CompositionInstruction>, segments: seq<VideoSegment>, pos: nat, index: nat,
                          renderSize: Size, fillMode: FillMode)
    requires pos < |instructions| && instructions[pos].isMutable && |instructions[pos].layers| > 0
    requires TransformStep(instructions[pos], segments, index, renderSize, fillMode).Some?
    ensures var step := TransformStep(instructions[pos], segments, index, renderSize, fillMode).value;
            TransformFrom(instructions, segments, pos, index, renderSize, fillMode)
              == TransformFrom(instructions[pos := step.instruction], segments, pos + 1, step.index, step.renderSize, fillMode)
  {
  }

  /** The pass-through of segment `m`, at position `2m`, with segment index `m`. */
  lemma PassThroughTurn(instructions: seq<CompositionInstruction>, segments: seq<VideoSegment>,
                        preferredVideoSize: Size, fillMode: FillMode, current: seq<CompositionInstruction>, m: nat)
    returns (next: seq<CompositionInstruction>)
    requires m < |segments| && segments[m].headTransition.Some?
    requires |current| == |instructions| && 2 * m < |current| && current[2 * m] == instructions[2 * m]
    requires instructions[2 * m].isMutable && |instructions[2 * m].layers| == 1
    ensures |next| == |current| && forall p :: 0 <= p < |next| && p != 2 * m ==> next[p] == current[p]
    ensures PassThroughSet(instructions, segments, preferredVideoSize, fillMode, next, m)
    ensures TransformFrom(current, segments, 2 * m, m, SizeAfter(segments, preferredVideoSize, m), fillMode)
              == TransformFrom(next, segments, 2 * m + 1, m + 1, SizeAfter(segments, preferredVideoSize, m + 1), fillMode)
  {
    var size := SizeAfter(segments, preferredVideoSize, m);
    var step := TransformStep(instructions[2 * m], segments, m, size, fillMode).value;
    assert step.index == m + 1 && step.renderSize == SizeAfter(segments, preferredVideoSize, m + 1);
    TransformFromStep(current, segments, 2 * m, m, size, fillMode);
    next := current[2 * m := step.instruction];
  }

  /** The transition from segment `m` into segment `m + 1`, at position `2m + 1`, with segment index `m + 1`. */
  lemma TransitionTurn(instructions: seq<CompositionInstruction>, segments: seq<VideoSegment>,
                       preferredVideoSize: Size, fillMode: FillMode, current: seq<CompositionInstruction>, m: nat)
    returns (next: seq<CompositionInstruction>)
    requires m + 1 < |segments|
    requires |current| == |instructions| && 2 * m + 1 < |current| && current[2 * m + 1] == instructions[2 * m + 1]
    requires instructions[2 * m + 1].isMutable && |instructions[2 * m + 1].layers| == 2
    ensures |next| == |current| && forall p :: 0 <= p < |next| && p != 2 * m + 1 ==> next[p] == current[p]
    ensures TransitionSet(instructions, segments, preferredVideoSize, fillMode, next, m)
    ensures TransformFrom(current, segments, 2 * m + 1, m + 1, SizeAfter(segments, preferredVideoSize, m + 1), fillMode)
              == TransformFrom(next, segments, 2 * m + 2, m + 1, SizeAfter(segments, preferredVideoSize, m + 1), fillMode)
  {
    var size := SizeAfter(segments, preferredVideoSize, m + 1);
    var step := TransformStep(instructions[2 * m + 1], segments, m + 1, size, fillMode).value;
    TransformFromStep(current, segments, 2 * m + 1, m + 1, size, fillMode);
    next := current[2 * m + 1 := step.instruction];
  }

  /** Turn `m` of the alternating pattern: a mutable pass-through at `2m` and, unless it is the last, a mutable transition at `2m + 1`. */
  predicate TurnShape(instructions: seq<CompositionInstruction>, segments: seq<VideoSegment>, m: nat)
  {
    m < |segments| && segments[m].headTransition.Some? &&
    2 * m < |instructions| && instructions[2 * m].isMutable && |instructions[2 * m].layers| == 1 &&
    (m + 1 == |segments| ==> |instructions| == 2 * m + 1) &&
    (m + 1 < |segments| ==>
       2 * m + 1 < |instructions| && instructions[2 * m + 1].isMutable && |instructions[2 * m + 1].layers| == 2)
  }

  /** Every turn of the alternating pattern has its shape. */
  lemma AlternatingShape(instructions: seq<CompositionInstruction>, segments: seq<VideoSegment>, m: nat)
    requires Alternating(instructions, segments) && HeadsPresent(segments) && m < |segments|
    ensures TurnShape(instructions, segments, m)
  {
    assert (2 * m) % 2 == 0 && (2 * m + 1) % 2 == 1;
    assert |instructions[2 * m].layers| == 1;
    if m + 1 < |segments| {
      assert |instructions[2 * m + 1].layers| == 2;
    }
  }

  /** Turn `m` of the walk: pass-through `2m` and, unless it is the last, transition `2m + 1`. */
  lemma AlternatingTurn(instructions: seq<CompositionInstruction>, segments: seq<VideoSegment>,
                        preferredVideoSize: Size, fillMode: FillMode, current: seq<CompositionInstruction>, m: nat)
    returns (next: seq<CompositionInstruction>)
    requires TurnShape(instructions, segments, m)
    requires |current| == |instructions| && forall p :: 2 * m <= p < |current| ==> current[p] == instructions[p]
    ensures |next| == |instructions| && forall p :: 2 * m + 2 <= p < |next| ==> next[p] == instructions[p]
    ensures PassThroughSet(instructions, segments, preferredVideoSize, fillMode, next, m)
    ensures m + 1 < |segments| ==> TransitionSet(instructions, segments, preferredVideoSize, fillMode, next, m)
    ensures m + 1 == |segments| ==>
              TransformFrom(current, segments, 2 * m, m, SizeAfter(segments, preferredVideoSize, m), fillMode)
                == Some(Transformed(next, SizeAfter(segments, preferredVideoSize, m + 1)))
    ensures m + 1 < |segments| ==>
              TransformFrom(current, segments, 2 * m, m, SizeAfter(segments, preferredVideoSize, m), fillMode)
                == TransformFrom(next, segments, 2 * (m + 1), m + 1, SizeAfter(segments, preferredVideoSize, m + 1), fillMode)
  {
    assert current[2 * m] == instructions[2 * m];
    next := PassThroughTurn(instructions, segments, preferredVideoSize, fillMode, current, m);
    if m + 1 < |segments| {
      assert next[2 * m + 1] == instructions[2 * m + 1];
      var after := TransitionTurn(instructions, segments, preferredVideoSize, fillMode, next, m);
      SetDependsOnlyOnItself(instructions, segments, preferredVideoSize, fillMode, next, after, m);
      next := after;
    }
  }

  /** The walk of `applyTransform` over the alternating pattern from pass-through `m` on, with segment index `m`. */
  lemma {:induction false} AlternatingTransformsFrom(instructions: seq<CompositionInstruction>, segments: seq<VideoSegment>,
                                                     preferredVideoSize: Size, fillMode: FillMode,
                                                     current: seq<CompositionInstruction>, m: nat)
    returns (r: Transformed)
    requires TurnShape(instructions, segments, m) && forall n :: m <= n < |segments| ==> TurnShape(instructions, segments, n)
    requires |current| == |instructions| && forall p :: 2 * m <= p < |current| ==> current[p] == instructions[p]
    ensures TransformFrom(current, segments, 2 * m, m, SizeAfter(segments, preferredVideoSize, m), fillMode) == Some(r)
    ensures |r.instructions| == |instructions| && r.renderSize == SizeAfter(segments, preferredVideoSize, |segments|)
    ensures forall k :: m <= k < |segments| ==> PassThroughSet(instructions, segments, preferredVideoSize, fillMode, r.instructions, k)
    ensures forall k :: m <= k < |segments| - 1 ==> TransitionSet(instructions, segments, preferredVideoSize, fillMode, r.instructions, k)
    decreases |segments| - m
  {
    var next := AlternatingTurn(instructions, segments, preferredVideoSize, fillMode, current, m);
    if m + 1 == |segments| {
      r := Transformed(next, SizeAfter(segments, preferredVideoSize, m + 1));
    } else {
      r := AlternatingTransformsFrom(instructions, segments, preferredVideoSize, fillMode, next, m + 1);
      assert r.instructions[2 * m] == next[2 * m] && r.instructions[2 * m + 1] == next[2 * m + 1];
      SetDependsOnlyOnItself(instructions, segments, preferredVideoSize, fillMode, next, r.instructions, m);
    }
    SetsExtend(instructions, segments, preferredVideoSize, fillMode, r.instructions, m);
  }

  /** The turn at `m` together with the turns after it. */
  lemma SetsExtend(instructions: seq<CompositionInstruction>, segments: seq<VideoSegment>,
                   preferredVideoSize: Size, fillMode: FillMode, r: seq<CompositionInstruction>, m: nat)
    requires PassThroughSet(instructions, segments, preferredVideoSize, fillMode, r, m)
    requires m + 1 < |segments| ==> TransitionSet(instructions, segments, preferredVideoSize, fillMode, r, m)
    requires forall k :: m + 1 <= k < |segments| ==> PassThroughSet(instructions, segments, preferredVideoSize, fillMode, r, k)
    requires forall k :: m + 1 <= k < |segments| - 1 ==> TransitionSet(instructions, segments, preferredVideoSize, fillMode, r, k)
    ensures forall k :: m <= k < |segments| ==> PassThroughSet(instructions, segments, preferredVideoSize, fillMode, r, k)
    ensures forall k :: m <= k < |segments| - 1 ==> TransitionSet(instructions, segments, preferredVideoSize, fillMode, r, k)
  {
  }

  /**
   * For the alternating pattern with a head transition on every segment, `applyTransform` walks
   * every instruction: pass-through `2k` gets one transform, at segment `k`'s start plus its head
   * duration; transition `2k + 1` gets one transform on each of its two layers, for segments `k`
   * and `k + 1`, at segment `k + 1`'s start; every transform uses the render size of that point of
   * the walk, which ends as the render size. No layer changes its track or opacity ramps.
   */
  lemma AlternatingTransforms(instructions: seq<CompositionInstruction>, segments: seq<VideoSegment>,
                              preferredVideoSize: Size, fillMode: FillMode)
    requires Alternating(instructions, segments) && HeadsPresent(segments)
    ensures Transform(instructions, segments, preferredVideoSize, fillMode).Some?
    ensures var r := Transform(instructions, segments, preferredVideoSize, fillMode).value;
            |r.instructions| == |instructions| && r.renderSize == SizeAfter(segments, preferredVideoSize, |segments|) &&
            (forall p :: 0 <= p < |instructions| ==> KeepsLayers(instructions[p], r.instructions[p])) &&
            (forall k :: 0 <= k < |segments| ==>
               |r.instructions[2 * k].layers| == 1 &&
               r.instructions[2 * k].layers[0].transforms == instructions[2 * k].layers[0].transforms +
                 [TransformSetting(segments[k].atTime + segments[k].headTransition.value.duration, segments[k].orientation,
                                   segments[k].naturalSize, SizeAfter(segments, preferredVideoSize, k + 1), fillMode)]) &&
            (forall k :: 0 <= k < |segments| - 1 ==>
               |r.instructions[2 * k + 1].layers| == 2 &&
               r.instructions[2 * k + 1].layers[0].transforms == instructions[2 * k + 1].layers[0].transforms +
                 [TransformSetting(segments[k + 1].atTime, segments[k].orientation, segments[k].naturalSize,
                                   SizeAfter(segments, preferredVideoSize, k + 1), fillMode)] &&
               r.instructions[2 * k + 1].layers[1].transforms == instructions[2 * k + 1].layers[1].transforms +
                 [TransformSetting(segments[k + 1].atTime, segments[k + 1].orientation, segments[k + 1].naturalSize,
                                   SizeAfter(segments, preferredVideoSize, k + 1), fillMode)])
  {
    forall n | 0 <= n < |segments|
      ensures TurnShape(instructions, segments, n)
    {
      AlternatingShape(instructions, segments, n);
    }
    var r := AlternatingTransformsFrom(instructions, segments, preferredVideoSize, fillMode, instructions, 0);
    TransformKeepsLayers(instructions, segments, 0, 0, preferredVideoSize, fillMode);
    forall k | 0 <= k < |segments|
      ensures |r.instructions[2 * k].layers| == 1 &&
              r.instructions[2 * k].layers[0].transforms == instructions[2 * k].layers[0].transforms +
                [TransformSetting(segments[k].atTime + segments[k].headTransition.value.duration, segments[k].orientation,
                                  segments[k].naturalSize, SizeAfter(segments, preferredVideoSize, k + 1), fillMode)]
    {
      assert PassThroughSet(instructions, segments, preferredVideoSize, fillMode, r.instructions, k);
    }
    forall k | 0 <= k < |segments| - 1
      ensures |r.instructions[2 * k + 1].layers| == 2 &&
              r.instructions[2 * k + 1].layers[0].transforms == instructions[2 * k + 1].layers[0].transforms +
                [TransformSetting(segments[k + 1].atTime, segments[k].orientation, segments[k].naturalSize,
                                  SizeAfter(segments, preferredVideoSize, k + 1), fillMode)] &&
              r.instructions[2 * k + 1].layers[1].transforms == instructions[2 * k + 1].layers[1].transforms +
                [TransformSetting(segments[k + 1].atTime, segments[k + 1].orientation, segments[k + 1].naturalSize,
                                  SizeAfter(segments, preferredVideoSize, k + 1), fillMode)]
    {
      assert TransitionSet(instructions, segments, preferredVideoSize, fillMode, r.instructions, k);
    }
  }

  /** `applyTransition` keeps the alternating pattern: its transition instructions keep two layers and stay mutable. */
  lemma TransitionedStaysAlternating(instructions: seq<CompositionInstruction>, segments: seq<VideoSegment>)
    requires Alternating(instructions, segments)
    ensures Scan(instructions, segments).Some? && WellAimed(instructions, Scan(instructions, segments).value)
    ensures Alternating(Transitioned(instructions, Scan(instructions, segments).value), segments)
  {
    AlternatingTransitions(instructions, segments);
    var applied := Transitioned(instructions, Scan(instructions, segments).value);
    forall p | 0 <= p < |applied|
      ensures applied[p].isMutable && |applied[p].layers| == (if p % 2 == 0 then 1 else 2)
    {
      var k := p / 2;
      if p % 2 == 0 {
        assert p == 2 * k && applied[2 * k] == instructions[2 * k];
      } else {
        assert p == 2 * k + 1 && k < |segments| - 1;
        assert applied[2 * k + 1] == Applied(instructions[2 * k + 1], Expected(segments, k));
      }
    }
  }

  /**
   * For the alternating pattern, `applyTransform` after `applyTransition` walks every instruction
   * and keeps what `applyTransition` set: each transition instruction still shows the from and to
   * layers with the opacity ramps of its transition, and each pass-through its own layer.
   */
  lemma AlternatingBuildKeepsRamps(instructions: seq<CompositionInstruction>, segments: seq<VideoSegment>,
                                   preferredVideoSize: Size, fillMode: FillMode)
    requires Alternating(instructions, segments) && HeadsPresent(segments)
    ensures Scan(instructions, segments).Some? && WellAimed(instructions, Scan(instructions, segments).value)
    ensures Transform(Transitioned(instructions, Scan(instructions, segments).value), segments, preferredVideoSize, fillMode).Some?
    ensures var r := Transform(Transitioned(instructions, Scan(instructions, segments).value), segments, preferredVideoSize, fillMode).value;
            |r.instructions| == |instructions| &&
            (forall k :: 0 <= k < |segments| - 1 ==>
               KeepsLayers(Applied(instructions[2 * k + 1], Expected(segments, k)), r.instructions[2 * k + 1])) &&
            (forall k :: 0 <= k < |segments| ==> KeepsLayers(instructions[2 * k], r.instructions[2 * k]))
  {
    TransitionedStaysAlternating(instructions, segments);
    AlternatingTransitions(instructions, segments);
    var applied := Transitioned(instructions, Scan(instructions, segments).value);
    AlternatingTransforms(applied, segments, preferredVideoSize, fillMode);
    var r := Transform(applied, segments, preferredVideoSize, fillMode).value;
    forall k | 0 <= k < |segments| - 1
      ensures KeepsLayers(Applied(instructions[2 * k + 1], Expected(segments, k)), r.instructions[2 * k + 1])
    {
      assert KeepsLayers(applied[2 * k + 1], r.instructions[2 * k + 1]);
    }
    forall k | 0 <= k < |segments|
      ensures KeepsLayers(instructions[2 * k], r.instructions[2 * k])
    {
      assert KeepsLayers(applied[2 * k], r.instructions[2 * k]);
    }
  }

  /** Every segment has a video part, so `build(in:)` can unwrap them all. */
  predicate AllHaveVideo(segments: seq<Segment>) {
    forall i :: 0 <= i < |segments| ==> segments[i].video.Some?
  }

  /** The video parts of the segments, which `build(in:)` unwraps. */
  function VideoSegmentsOf(segments: seq<Segment>): (r: seq<VideoSegment>)
    requires forall i :: 0 <= i < |segments| ==> segments[i].video.Some?
    ensures |r| == |segments| && forall i :: 0 <= i < |segments| ==> r[i] == segments[i].video.value
  {
    seq(|segments|, i requires 0 <= i < |segments| => segments[i].video.value)
  }

  /**
   * The video composition `AVMutableVideoComposition(propertiesOf:)` returns: its instructions
   * and render size, both updated in place by the builder.
   */
  class MutableVideoComposition {
    var instructions: seq<CompositionInstruction>
    var renderSize: Size

    constructor (instructions: seq<CompositionInstruction>, renderSize: Size)
      ensures this.instructions == instructions && this.renderSize == renderSize
    {
      this.instructions := instructions;
      this.renderSize := renderSize;
    }

    /**
     * `applyTransition(to:)`: each transition instruction's layers get the opacity ramps of its
     * kind over the instruction's range and become exactly [from, to].
     */
    method ApplyTransition(ts: seq<TransitionInstruction>)
      requires WellAimed(instructions, ts)
      modifies this
      ensures instructions == Transitioned(old(instructions), ts) && renderSize == old(renderSize)
    {
      for j := 0 to |ts|
        invariant forall k :: j <= k < |ts| ==> AimsAt(instructions, ts[k])
        invariant Transitioned(old(instructions), ts) == TransitionedFrom(instructions, ts, j)
        invariant renderSize == old(renderSize)
      {
        var t := ts[j];
        assert AimsAt(instructions, t);
        var updated := ApplyOne(instructions[t.instruction], t);
        ApplyingKeepsAim(instructions, ts, j);
        instructions := instructions[t.instruction := updated];
      }
    }

    /**
     * `applyTransform(to:videoSegments:)`: walks the instructions, setting the transform times
     * and fixing the render size; `false` where the source traps.
     */
    method ApplyTransform(segments: seq<VideoSegment>, preferredVideoSize: Size, fillMode: FillMode) returns (ok: bool)
      modifies this
      ensures ok <==> Transform(old(instructions), segments, preferredVideoSize, fillMode).Some?
      ensures ok ==> instructions == Transform(old(instructions), segments, preferredVideoSize, fillMode).value.instructions &&
                     renderSize == Transform(old(instructions), segments, preferredVideoSize, fillMode).value.renderSize
    {
      var size := preferredVideoSize;
      var index: nat := 0;
      var pos := 0;
      while pos < |instructions|
        invariant pos <= |instructions|
        invariant Transform(old(instructions), segments, preferredVideoSize, fillMode)
                  == TransformFrom(instructions, segments, pos, index, size, fillMode)
        decreases |instructions| - pos
      {
        var instruction := instructions[pos];
        if !instruction.isMutable || |instruction.layers| == 0 {
          break;
        }
        var step := TransformOne(instruction, segments, index, size, fillMode);
        if step.None? {
          return false;
        }
        instructions := instructions[pos := step.value.instruction];
        index, size := step.value.index, step.value.renderSize;
        pos := pos + 1;
      }
      renderSize := size;
      return true;
    }
  }

  /** The body of `applyTransition`'s loop for one transition instruction, by transition kind. */
  method ApplyOne(instruction: CompositionInstruction, t: TransitionInstruction) returns (updated: CompositionInstruction)
    requires t.fromLayer < |instruction.layers| && t.toLayer < |instruction.layers|
    ensures updated == Applied(instruction, t)
  {
    var timeRange := instruction.timeRange;
    var fromLayer := instruction.layers[t.fromLayer];
    var toLayer := instruction.layers[t.toLayer];
    match t.transition.kind {
      case Fade =>
        fromLayer := fromLayer.(opacityRamps := fromLayer.opacityRamps + [OpacityRamp(1.0, 0.0, timeRange)]);
        toLayer := toLayer.(opacityRamps := toLayer.opacityRamps + [OpacityRamp(0.0, 1.0, timeRange)]);
      case Dissolve =>
        fromLayer := fromLayer.(opacityRamps := fromLayer.opacityRamps + [OpacityRamp(1.0, 0.0, timeRange)]);
      case NoneKind =>
    }
    updated := instruction.(layers := [fromLayer, toLayer]);
    assert fromLayer.opacityRamps == instruction.layers[t.fromLayer].opacityRamps + Ramps(t.transition.kind, timeRange).0;
    assert toLayer.opacityRamps == instruction.layers[t.toLayer].opacityRamps + Ramps(t.transition.kind, timeRange).1;
  }

  /** The body of `applyTransform`'s loop for one mutable instruction with layers; `None` where the source traps. */
  method TransformOne(instruction: CompositionInstruction, segments: seq<VideoSegment>, index: nat,
                      renderSize: Size, fillMode: FillMode) returns (r: Option<TransformStepResult>)
    requires |instruction.layers| >= 1
    ensures r == TransformStep(instruction, segments, index, renderSize, fillMode)
  {
    var size := renderSize;
    if |instruction.layers| == 1 {
      if index >= |segments| {
        return None;
      }
      var segment := segments[index];
      if size == ZeroSize {
        size := DisplaySize(segment.orientation, segment.naturalSize);
      }
      if segment.headTransition.None? {
        return None;
      }
      var atTime := segment.atTime + segment.headTransition.value.duration;
      var layer := WithTransform(instruction.layers[0], TransformSetting(atTime, segment.orientation, segment.naturalSize, size, fillMode));
      r := Some(TransformStepResult(instruction.(layers := instruction.layers[0 := layer]), index + 1, size));
    } else {
      if index == 0 || index >= |segments| {
        return None;
      }
      var fromSegment := segments[index - 1];
      var toSegment := segments[index];
      var atTime := toSegment.atTime;
      var fromLayer := WithTransform(instruction.layers[0], TransformSetting(atTime, fromSegment.orientation, fromSegment.naturalSize, size, fillMode));
      var toLayer := WithTransform(instruction.layers[1], TransformSetting(atTime, toSegment.orientation, toSegment.naturalSize, size, fillMode));
      r := Some(TransformStepResult(instruction.(layers := instruction.layers[0 := fromLayer][1 := toLayer]), index, size));
    }
  }

  /**
   * What `build(in:)` leaves in the video composition: the instructions found by
   * `makeInstructions`, given their transitions and then their transforms; `None` where the
   * source traps, starting with a segment without a video part, which `$0.video!` unwraps.
   */
  function BuildResult(segments: seq<Segment>, instructions: seq<CompositionInstruction>,
                       preferredVideoSize: Size, fillMode: FillMode): (r: Option<Transformed>)
    ensures r.Some? ==> AllHaveVideo(segments)
  {
    if !AllHaveVideo(segments) then None else
    var videoSegments := VideoSegmentsOf(segments);
    match Scan(instructions, videoSegments)
    case None => None
    case Some(ts) =>
      ScanFindsEachMultiLayer(instructions, videoSegments);
      Transform(Transitioned(instructions, ts), videoSegments, preferredVideoSize, fillMode)
  }

  /**
   * `build(in:)`, given the instructions and render size AVFoundation derives from the
   * composition. A segment without a video part traps at the unwrap, which is `None` here.
   */
  method Build(composition: NeutrinoComposition, derivedInstructions: seq<CompositionInstruction>, derivedRenderSize: Size,
               preferredVideoSize: Size, fillMode: FillMode) returns (r: Option<MutableVideoComposition>)
    ensures !AllHaveVideo(composition.segments) ==> r.None?
    ensures r.Some? <==> BuildResult(composition.segments, derivedInstructions, preferredVideoSize, fillMode).Some?
    ensures r.Some? ==>
              fresh(r.value) &&
              r.value.instructions == BuildResult(composition.segments, derivedInstructions, preferredVideoSize, fillMode).value.instructions &&
              r.value.renderSize == BuildResult(composition.segments, derivedInstructions, preferredVideoSize, fillMode).value.renderSize
  {
    var videoComposition := new MutableVideoComposition(derivedInstructions, derivedRenderSize);
    if !AllHaveVideo(composition.segments) {
      return None;
    }
    var videoSegments := VideoSegmentsOf(composition.segments);
    var instructions := MakeInstructions(videoComposition.instructions, videoSegments);
    if instructions.None? {
      return None;
    }
    ScanFindsEachMultiLayer(derivedInstructions, videoSegments);
    videoComposition.ApplyTransition(instructions.value);
    var ok := videoComposition.ApplyTransform(videoSegments, preferredVideoSize, fillMode);
    if !ok {
      return None;
    }
    return Some(videoComposition);
  }
}
