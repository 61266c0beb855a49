/**
 * The bookkeeping of `Editor` (Photon/Source/Editor/Editor.swift): the list of overlay layers,
 * selecting a range of a project's clip, and laying background music over the whole composition
 * as repeated chunks of the music track, each with a one-second fade in and fade out.
 *
 * The composition is represented by its duration and the music track by its id and the list of
 * insertions made into it; an audio asset by the time ranges of its audio tracks.
 */
module Editors {
  import opened Optional
  import opened Timing
  import MediaRanges
  import opened VideoItems
  import opened Volume
  import opened AudioMixes
  import opened SafeCollections

  /**
   * An overlay layer (`LayerProtocol`): the Core Animation layer it wraps, by identity, and the
   * rest of the value.
   */
  datatype Overlay = Overlay(layer: int, content: string)

  /** No Core Animation layer appears twice in the list. */
  predicate DistinctLayers(layers: seq<Overlay>) {
    forall i, j :: 0 <= i < j < |layers| ==> layers[i].layer != layers[j].layer
  }

  /** `index(where: { $0.layer == layer })`: the first position wrapping that layer. */
  function IndexOf(layers: seq<Overlay>, layer: int): (r: Option<nat>)
    ensures r.Some? ==> r.value < |layers| && layers[r.value].layer == layer &&
                        forall j :: 0 <= j < r.value ==> layers[j].layer != layer
    ensures r.None? ==> forall j :: 0 <= j < |layers| ==> layers[j].layer != layer
  {
    if |layers| == 0 then None
    else if layers[0].layer == layer then Some(0)
    else match IndexOf(layers[1..], layer)
      case None => None
      case Some(i) => Some(i + 1)
  }

  /** The list after removing the first entry that wraps `layer`, if there is one. */
  function Without(layers: seq<Overlay>, layer: int): seq<Overlay>
  {
    match IndexOf(layers, layer)
    case None => layers
    case Some(i) => layers[..i] + layers[i + 1..]
  }

  /** The list after the removals of `addLayers`: one per new layer, in order. */
  function WithoutEach(layers: seq<Overlay>, added: seq<Overlay>): seq<Overlay>
  {
    if |added| == 0 then layers
    else Without(WithoutEach(layers, added[..|added| - 1]), added[|added| - 1].layer)
  }

  /**
   * On a list without repeated layers, removing `layer` keeps the others distinct and drops
   * exactly the entries wrapping `layer`.
   */
  lemma WithoutDistinct(layers: seq<Overlay>, layer: int)
    requires DistinctLayers(layers)
    ensures DistinctLayers(Without(layers, layer))
    ensures forall x :: x in Without(layers, layer) <==> x in layers && x.layer != layer
  {
    match IndexOf(layers, layer)
    case None =>
    case Some(i) =>
      RemoveAtDistinct(layers, i);
  }

  /** Removing entry `i` of a list without repeated layers keeps it so and drops exactly the entries wrapping that layer. */
  lemma RemoveAtDistinct(layers: seq<Overlay>, i: nat)
    requires DistinctLayers(layers) && i < |layers|
    ensures DistinctLayers(layers[..i] + layers[i + 1..])
    ensures forall x :: x in layers[..i] + layers[i + 1..] <==> x in layers && x.layer != layers[i].layer
  {
    var r := layers[..i] + layers[i + 1..];
    forall x | x in layers && x.layer != layers[i].layer
      ensures x in r
    {
      var k :| 0 <= k < |layers| && layers[k] == x;
      if k < i {
        assert r[k] == x;
      } else {
        assert r[k - 1] == x;
      }
    }
  }

  /**
   * The removals of `addLayers` on a list without repeated layers: the result has no repeated
   * layers and holds exactly the old entries that wrap none of the added layers.
   */
  lemma {:induction false} WithoutEachDistinct(layers: seq<Overlay>, added: seq<Overlay>)
    requires DistinctLayers(layers)
    ensures DistinctLayers(WithoutEach(layers, added))
    ensures forall x :: x in WithoutEach(layers, added) <==>
              x in layers && forall j :: 0 <= j < |added| ==> x.layer != added[j].layer
  {
    if |added| > 0 {
      var init := added[..|added| - 1];
      var last := added[|added| - 1];
      WithoutEachDistinct(layers, init);
      WithoutDistinct(WithoutEach(layers, init), last.layer);
      forall x
        ensures x in WithoutEach(layers, added) <==>
                x in layers && forall j :: 0 <= j < |added| ==> x.layer != added[j].layer
      {
        if x in layers && forall j :: 0 <= j < |added| ==> x.layer != added[j].layer {
          assert forall j :: 0 <= j < |init| ==> x.layer != init[j].layer by {
            forall j | 0 <= j < |init| ensures x.layer != init[j].layer {
              assert init[j] == added[j];
            }
          }
        }
        if x in WithoutEach(layers, added) {
          forall j | 0 <= j < |added| ensures x.layer != added[j].layer {
            if j < |init| {
              assert init[j] == added[j];
            }
          }
        }
      }
    }
  }

  /** A music insertion: the range of the music track copied and where it lands in the composition. */
  datatype Insertion = Insertion(sourceRange: TimeRange, at: Time)

  /** The music tiling: the insertions into the music track and the volume automations, in order. */
  datatype MusicPlan = MusicPlan(insertions: seq<Insertion>, automations: seq<VolumeAutomation>)

  /** Compositions shorter than this take the music once, unfaded. */
  const ShortComposition: Time := 3.0
  /** The length of each fade. */
  const FadeDuration: Time := 1.0

  /** The fade-in of a chunk: volume 0 to 1 over the first second after `at`. */
  function FadeIn(at: Time): (a: VolumeAutomation)
    ensures a.timeRange.start == at && a.timeRange.duration == FadeDuration
    ensures a.start == 0.0 && a.end == 1.0
  {
    VolumeAutomation(TimeRange(at, FadeDuration), 0.0, 1.0)
  }

  /** The fade-out of a chunk: volume 1 to 0 over the last second before `end`. */
  function FadeOut(end: Time): (a: VolumeAutomation)
    ensures a.timeRange.End() == end && a.timeRange.duration == FadeDuration
    ensures a.start == 1.0 && a.end == 0.0
  {
    VolumeAutomation(TimeRange(end - FadeDuration, FadeDuration), 1.0, 0.0)
  }

  /** The least integer at or above `x`. */
  function Ceil(x: real): int {
    -((-x).Floor)
  }

  lemma MulSign(a: real, m: real)
    requires m > 0.0
    ensures a > 0.0 ==> a * m > 0.0
    ensures a < 0.0 ==> a * m < 0.0
  {
  }

  /** One more full chunk of length `m` lowers the number of chunks still to come by one. */
  lemma CeilStep(x: real, m: real)
    requires m > 0.0 && x > 0.0
    ensures x > m ==> Ceil((x - m) / m) == Ceil(x / m) - 1
    ensures x <= m ==> Ceil(x / m) == 1
    ensures Ceil(x / m) >= 1
  {
    var q := x / m;
    var r := (x - m) / m;
    assert q * m == x;
    assert r * m == x - m;
    MulSign(r - q + 1.0, m);
    MulSign(q, m);
    MulSign(q - 1.0, m);
  }

  /** Where chunk `k` goes when chunk 0 goes at `x` and each takes `m`: `x + k * m`, summed up one chunk at a time. */
  function Slot(x: Time, m: Time, k: nat): Time {
    if k == 0 then x else Slot(x, m, k - 1) + m
  }

  lemma {:induction false} SlotShift(x: Time, m: Time, k: nat)
    ensures Slot(x + m, m, k) == Slot(x, m, k + 1)
  {
    if k > 0 {
      SlotShift(x, m, k - 1);
    }
  }

  lemma {:induction false} SlotIsProduct(x: Time, m: Time, k: nat)
    ensures Slot(x, m, k) == x + (k as real) * m
  {
    if k > 0 {
      SlotIsProduct(x, m, k - 1);
      assert ((k - 1) as real) * m + m == (k as real) * m;
    }
  }

  /**
   * The rest of the tiling loop once `inserted` seconds are covered and the next chunk goes at
   * `at`: while `inserted` is short of `duration`, a chunk of the remainder or of the whole music
   * track, whichever is shorter, then a fade in from `at` and a fade out ending where the chunk
   * ends; `at` moves on by the music's length.
   */
  function TileFrom(duration: Time, music: TimeRange, inserted: Time, at: Time): MusicPlan
    requires music.duration > 0.0
    decreases Ceil((duration - inserted) / music.duration)
  {
    if inserted >= duration then MusicPlan([], [])
    else
      var remainder := duration - inserted;
      var chunk := if remainder <= music.duration then TimeRange(0.0, remainder) else music;
      var next := inserted + chunk.duration;
      CeilStep(remainder, music.duration);
      var rest := TileFrom(duration, music, next, at + music.duration);
      MusicPlan([Insertion(chunk, at)] + rest.insertions, [FadeIn(at), FadeOut(next)] + rest.automations)
  }

  /** The whole tiling of a composition of length `duration` by the music track `music`. */
  function Tile(duration: Time, music: TimeRange): MusicPlan
    requires music.duration > 0.0
  {
    TileFrom(duration, music, 0.0, 0.0)
  }

  function Then(p: MusicPlan, q: MusicPlan): MusicPlan {
    MusicPlan(p.insertions + q.insertions, p.automations + q.automations)
  }

  lemma ThenAssociates(p: MusicPlan, q: MusicPlan, r: MusicPlan)
    ensures Then(Then(p, q), r) == Then(p, Then(q, r))
  {
    assert (p.insertions + q.insertions) + r.insertions == p.insertions + (q.insertions + r.insertions);
    assert (p.automations + q.automations) + r.automations == p.automations + (q.automations + r.automations);
  }

  /** One turn of the tiling loop: the chunk, its two fades, then the rest. */
  lemma TileFromUnfold(duration: Time, music: TimeRange, inserted: Time, at: Time)
    requires music.duration > 0.0 && inserted < duration
    ensures var remainder := duration - inserted;
            var chunk := if remainder <= music.duration then TimeRange(0.0, remainder) else music;
            var next := inserted + chunk.duration;
            TileFrom(duration, music, inserted, at) ==
              Then(MusicPlan([Insertion(chunk, at)], [FadeIn(at), FadeOut(next)]), TileFrom(duration, music, next, at + music.duration))
  {
  }

  /** Chunk `k` goes at `Slot(x, m, k)`. */
  predicate Positions(x: Time, m: Time, insertions: seq<Insertion>) {
    forall k :: 0 <= k < |insertions| ==> insertions[k].at == Slot(x, m, k)
  }

  /**
   * All chunks but the last are the whole music track; the last is what remains of the
   * composition, so that it ends the composition.
   */
  predicate Sizes(duration: Time, music: TimeRange, x: Time, insertions: seq<Insertion>) {
    var n := |insertions|;
    n >= 1 &&
    (forall k :: 0 <= k < n - 1 ==> insertions[k].sourceRange == music) &&
    Slot(x, music.duration, n - 1) < duration <= Slot(x, music.duration, n) &&
    insertions[n - 1].sourceRange == TimeRange(0.0, duration - Slot(x, music.duration, n - 1))
  }

  /** Two automations per chunk: a fade in from where it goes and a fade out where it ends. */
  predicate Fades(p: MusicPlan) {
    |p.automations| == 2 * |p.insertions| &&
    forall k :: 0 <= k < |p.insertions| ==>
      p.automations[2 * k] == FadeIn(p.insertions[k].at) &&
      p.automations[2 * k + 1] == FadeOut(p.insertions[k].at + p.insertions[k].sourceRange.duration)
  }

  /** The shape of the tiling from `x` on, where covered time and insertion point agree. */
  predicate TiledFrom(duration: Time, music: TimeRange, x: Time, p: MusicPlan) {
    Positions(x, music.duration, p.insertions) && Sizes(duration, music, x, p.insertions) && Fades(p)
  }

  lemma PositionsStep(x: Time, m: Time, first: Insertion, rest: seq<Insertion>)
    requires first.at == x && Positions(x + m, m, rest)
    ensures Positions(x, m, [first] + rest)
  {
    var ins := [first] + rest;
    forall k | 1 <= k < |ins| ensures ins[k].at == Slot(x, m, k) {
      SlotShift(x, m, k - 1);
      assert ins[k] == rest[k - 1];
    }
  }

  lemma SizesStep(duration: Time, music: TimeRange, x: Time, rest: seq<Insertion>)
    requires Sizes(duration, music, x + music.duration, rest)
    ensures Sizes(duration, music, x, [Insertion(music, x)] + rest)
  {
    var ins := [Insertion(music, x)] + rest;
    var n := |rest|;
    SlotShift(x, music.duration, n - 1);
    SlotShift(x, music.duration, n);
    assert ins[n] == rest[n - 1];
    forall k | 1 <= k < n ensures ins[k].sourceRange == music {
      assert ins[k] == rest[k - 1];
    }
  }

  lemma FadesStep(first: Insertion, fades: seq<VolumeAutomation>, rest: MusicPlan)
    requires Fades(rest)
    requires fades == [FadeIn(first.at), FadeOut(first.at + first.sourceRange.duration)]
    ensures Fades(MusicPlan([first] + rest.insertions, fades + rest.automations))
  {
    var p := MusicPlan([first] + rest.insertions, fades + rest.automations);
    forall k | 1 <= k < |p.insertions|
      ensures p.automations[2 * k] == FadeIn(p.insertions[k].at)
      ensures p.automations[2 * k + 1] == FadeOut(p.insertions[k].at + p.insertions[k].sourceRange.duration)
    {
      assert p.insertions[k] == rest.insertions[k - 1];
      assert p.automations[2 * k] == rest.automations[2 * (k - 1)];
      assert p.automations[2 * k + 1] == rest.automations[2 * (k - 1) + 1];
    }
  }

  /** A full chunk in front of the tiling from `x + m` on gives the tiling from `x` on. */
  lemma ShapeStep(duration: Time, music: TimeRange, x: Time)
    requires music.duration > 0.0 && duration - x > music.duration
    requires TiledFrom(duration, music, x + music.duration, TileFrom(duration, music, x + music.duration, x + music.duration))
    ensures TiledFrom(duration, music, x, TileFrom(duration, music, x, x))
  {
    var m := music.duration;
    var rest := TileFrom(duration, music, x + m, x + m);
    var first := Insertion(music, x);
    assert TileFrom(duration, music, x, x) == MusicPlan([first] + rest.insertions, [FadeIn(x), FadeOut(x + m)] + rest.automations);
    PositionsStep(x, m, first, rest.insertions);
    SizesStep(duration, music, x, rest.insertions);
    FadesStep(first, [FadeIn(x), FadeOut(x + m)], rest);
  }

  /** When at most one music length remains, the tiling from `x` on is one chunk of the remainder. */
  lemma ShapeLast(duration: Time, music: TimeRange, x: Time)
    requires music.duration > 0.0 && 0.0 < duration - x <= music.duration
    ensures TiledFrom(duration, music, x, TileFrom(duration, music, x, x))
  {
    var m := music.duration;
    assert TileFrom(duration, music, x + (duration - x), x + m) == MusicPlan([], []);
    assert TileFrom(duration, music, x, x) == MusicPlan([Insertion(TimeRange(0.0, duration - x), x)], [FadeIn(x), FadeOut(duration)]);
    assert Slot(x, m, 1) == x + m;
  }

  lemma {:induction false} TileFromShape(duration: Time, music: TimeRange, x: Time)
    requires music.duration > 0.0 && x < duration
    ensures TiledFrom(duration, music, x, TileFrom(duration, music, x, x))
    decreases Ceil((duration - x) / music.duration)
  {
    CeilStep(duration - x, music.duration);
    if duration - x > music.duration {
      TileFromShape(duration, music, x + music.duration);
      ShapeStep(duration, music, x);
    } else {
      ShapeLast(duration, music, x);
    }
  }

  /**
   * The tiling of a composition of positive length: at least one chunk, two automations per
   * chunk; chunk `k` goes at `k` times the music's length, every chunk but the last is the whole
   * music track, and the last one is the remainder, so the chunks together cover exactly the
   * composition; each chunk fades in over its first second and out over its last.
   */
  lemma TilePlan(duration: Time, music: TimeRange)
    requires music.duration > 0.0 && duration > 0.0
    ensures TiledFrom(duration, music, 0.0, Tile(duration, music))
    ensures forall k :: 0 <= k < |Tile(duration, music).insertions| ==>
              Tile(duration, music).insertions[k].at == (k as real) * music.duration
    ensures var p := Tile(duration, music); var last := p.insertions[|p.insertions| - 1];
            last.at + last.sourceRange.duration == duration
  {
    TileFromShape(duration, music, 0.0);
    forall k | 0 <= k < |Tile(duration, music).insertions|
      ensures Tile(duration, music).insertions[k].at == (k as real) * music.duration
    {
      SlotIsProduct(0.0, music.duration, k);
    }
  }

  /** One turn of the tiling loop exactly as written, including for a music track of zero length. */
  function Step(duration: Time, music: TimeRange, inserted: Time): Time {
    var remainder := duration - inserted;
    var chunk := if remainder <= music.duration then TimeRange(0.0, remainder) else music;
    inserted + chunk.duration
  }

  /** The covered time after `n` turns of the loop as written. */
  function Turns(duration: Time, music: TimeRange, inserted: Time, n: nat): Time
    decreases n
  {
    if n == 0 then inserted else Turns(duration, music, Step(duration, music, inserted), n - 1)
  }

  /**
   * With a music track of length zero (an audio track that holds no samples), no number of turns
   * of the loop as written ever covers more time, so its condition stays true for good.
   */
  lemma {:induction false} SilentMusicNeverFinishes(duration: Time, music: TimeRange, inserted: Time, n: nat)
    requires music.duration == 0.0 && inserted < duration
    ensures Turns(duration, music, inserted, n) == inserted < duration
  {
    if n > 0 {
      assert Step(duration, music, inserted) == inserted;
      SilentMusicNeverFinishes(duration, music, inserted, n - 1);
    }
  }

  /**
   * The body of the tiling loop: the chunk is the remainder or the whole music track,
   * whichever is shorter; the covered time grows by the chunk; the chunk fades in over the
   * second after `atTime` and out over the second before the new covered time.
   */
  method NextChunk(duration: Time, audioTrack: TimeRange, insertedTime: Time, atTime: Time)
    returns (insertTimeRange: TimeRange, fadeInAutomation: VolumeAutomation, fadeOutAutomation: VolumeAutomation, nextInserted: Time)
    requires audioTrack.duration > 0.0 && insertedTime < duration
    ensures nextInserted == insertedTime + insertTimeRange.duration
    ensures TileFrom(duration, audioTrack, insertedTime, atTime) ==
              Then(MusicPlan([Insertion(insertTimeRange, atTime)], [fadeInAutomation, fadeOutAutomation]),
                   TileFrom(duration, audioTrack, nextInserted, atTime + audioTrack.duration))
    ensures Ceil((duration - nextInserted) / audioTrack.duration) < Ceil((duration - insertedTime) / audioTrack.duration)
  {
    var remainder := duration - insertedTime;
    var next := audioTrack.duration;
    insertTimeRange := if remainder <= next then TimeRange(0.0, remainder) else audioTrack;
    CeilStep(remainder, next);
    TileFromUnfold(duration, audioTrack, insertedTime, atTime);
    nextInserted := insertedTime + insertTimeRange.duration;
    fadeInAutomation := VolumeAutomation(TimeRange(atTime, FadeDuration), 0.0, 1.0);
    fadeOutAutomation := VolumeAutomation(TimeRange(nextInserted - FadeDuration, FadeDuration), 1.0, 0.0);
  }

  class Editor {
    /** `layers`: the overlay layers, in drawing order. */
    var layers: seq<Overlay>
    /** The loaded project's clips, if a project is loaded. */
    var project: Option<seq<VideoItem>>
    /** The composition last built, by its duration. */
    var composition: Option<Time>
    /** The audio track prepared for music, by its id. */
    var musicTrack: Option<int>
    /** What has been inserted into the music track. */
    var musicInsertions: seq<Insertion>

    /** `init()`: nothing loaded, no layers. */
    constructor ()
      ensures layers == [] && project == None && composition == None
      ensures musicTrack == None && musicInsertions == []
    {
      layers := [];
      project := None;
      composition := None;
      musicTrack := None;
      musicInsertions := [];
    }

    /**
     * `select(ranges:at:)`: with a project loaded and a clip at `index`, that clip's selection
     * becomes the first of `ranges` (none when `ranges` is empty); otherwise nothing changes.
     */
    method Select(ranges: seq<MediaRanges.MediaRange>, index: int)
      modifies (if project.Some? && 0 <= index < |project.value| then {project.value[index]} else {})`selectedRange
      ensures project.Some? && SafeOf(project.value).At(index).Some? ==>
                project.value[index].selectedRange == (if |ranges| == 0 then None else Some(ranges[0]))
    {
      if project.None? {
        return;
      }
      var videoItem := SafeOf(project.value).At(index);
      if videoItem.None? {
        return;
      }
      videoItem.value.selectedRange := if |ranges| == 0 then None else Some(ranges[0]);
    }

    /** `select(range:at:)`: selecting a single range. */
    method SelectRange(range: MediaRanges.MediaRange, index: int)
      modifies (if project.Some? && 0 <= index < |project.value| then {project.value[index]} else {})`selectedRange
      ensures project.Some? && 0 <= index < |project.value| ==> project.value[index].selectedRange == Some(range)
    {
      Select([range], index);
    }

    /** `insertLayer(_:at:)`: an entry wrapping the same layer is removed, then the layer goes last; `index` is not used. */
    method InsertLayer(layer: Overlay, index: int)
      modifies this`layers
      ensures layers == Without(old(layers), layer.layer) + [layer]
    {
      var found := IndexOf(layers, layer.layer);
      if found.Some? {
        layers := layers[..found.value] + layers[found.value + 1..];
      }
      layers := layers + [layer];
    }

    /** `addLayer(_:)`: `insertLayer` at the end. */
    method AddLayer(layer: Overlay)
      modifies this`layers
      ensures layers == Without(old(layers), layer.layer) + [layer]
    {
      InsertLayer(layer, |layers|);
    }

    /** `addLayers(_:)`: for each new layer in turn the entry wrapping it is removed, then all the new layers go last, in order. */
    method AddLayers(added: seq<Overlay>)
      modifies this`layers
      ensures layers == WithoutEach(old(layers), added) + added
    {
      for i := 0 to |added|
        invariant layers == WithoutEach(old(layers), added[..i])
      {
        assert added[..i + 1][..i] == added[..i];
        var found := IndexOf(layers, added[i].layer);
        if found.Some? {
          layers := layers[..found.value] + layers[found.value + 1..];
        }
      }
      assert added[..|added|] == added;
      layers := layers + added;
    }

    /**
     * `removeLayer(_:at:)`: an index past the end changes nothing; otherwise exactly the entry
     * at `index` goes. The layer argument is not used.
     */
    method RemoveLayer(layer: Overlay, index: nat)
      modifies this`layers
      ensures index >= |old(layers)| ==> layers == old(layers)
      ensures index < |old(layers)| ==> layers == old(layers)[..index] + old(layers)[index + 1..]
    {
      if index >= |layers| {
        return;
      }
      layers := layers[..index] + layers[index + 1..];
    }

    /** `removeAllLayers()`. */
    method RemoveAllLayers()
      modifies this`layers
      ensures layers == []
    {
      layers := [];
    }

    /**
     * `addMusicMix(with:)`, for an asset whose audio tracks span `audioTracks`. Without an audio
     * track, a composition or a music track nothing happens. A composition shorter than three
     * seconds gets the music once over its whole length at volume 1. Otherwise the music is
     * tiled over the composition with fades (`Tile`); a music track of zero length adds nothing.
     * The automations go to a new audio mix builder, whose entry is returned.
     */
    method AddMusicMix(audioTracks: seq<TimeRange>) returns (handedOff: Option<Parameters>)
      modifies this`musicInsertions
      ensures |audioTracks| == 0 || composition.None? || musicTrack.None? ==>
                musicInsertions == old(musicInsertions) && handedOff == None
      ensures |audioTracks| > 0 && composition.Some? && musicTrack.Some? && composition.value < ShortComposition ==>
                var whole := TimeRange(0.0, composition.value);
                musicInsertions == old(musicInsertions) + [Insertion(whole, 0.0)] &&
                handedOff == Some(Parameters(musicTrack.value, SetRamps([], [VolumeAutomation(whole, 1.0, 1.0)])))
      ensures |audioTracks| > 0 && composition.Some? && musicTrack.Some? && composition.value >= ShortComposition &&
              audioTracks[0].duration <= 0.0 ==>
                musicInsertions == old(musicInsertions) && handedOff == None
      ensures |audioTracks| > 0 && composition.Some? && musicTrack.Some? && composition.value >= ShortComposition &&
              audioTracks[0].duration > 0.0 ==>
                var plan := Tile(composition.value, audioTracks[0]);
                musicInsertions == old(musicInsertions) + plan.insertions &&
                handedOff == Some(Parameters(musicTrack.value, SetRamps([], plan.automations)))
    {
      if |audioTracks| == 0 || composition.None? || musicTrack.None? {
        return None;
      }
      var duration := composition.value;
      var timeRange := TimeRange(0.0, duration);
      var audioTrack := audioTracks[0];
      var atTime := 0.0;
      var builder := new AudioMix();

      if duration < ShortComposition {
        musicInsertions := musicInsertions + [Insertion(timeRange, 0.0)];
        var automation := VolumeAutomation(timeRange, 1.0, 1.0);
        var _ := Add(builder, musicTrack.value, [automation]);
        return Some(builder.inputParameters[0]);
      }
      if audioTrack.duration <= 0.0 {
        return None;
      }

      var automations := InsertMusic(duration, audioTrack);
      var _ := Add(builder, musicTrack.value, automations);
      return Some(builder.inputParameters[0]);
    }

    /**
     * The tiling loop of `addMusicMix(with:)`: the chunks of `Tile` are inserted into the music
     * track in turn, and its automations are returned.
     */
    method InsertMusic(duration: Time, audioTrack: TimeRange) returns (automations: seq<VolumeAutomation>)
      requires audioTrack.duration > 0.0
      modifies this`musicInsertions
      ensures musicInsertions == old(musicInsertions) + Tile(duration, audioTrack).insertions
      ensures automations == Tile(duration, audioTrack).automations
    {
      var timeRange := TimeRange(0.0, duration);
      var atTime := 0.0;
      var insertedTime := 0.0;
      automations := [];
      ghost var chunks: seq<Insertion> := [];
      while insertedTime < timeRange.duration
        invariant musicInsertions == old(musicInsertions) + chunks
        invariant Then(MusicPlan(chunks, automations), TileFrom(duration, audioTrack, insertedTime, atTime)) == Tile(duration, audioTrack)
        decreases Ceil((duration - insertedTime) / audioTrack.duration)
      {
        var insertTimeRange, fadeInAutomation, fadeOutAutomation, nextInserted :=
          NextChunk(duration, audioTrack, insertedTime, atTime);
        ghost var done := MusicPlan(chunks, automations);
        ghost var step := MusicPlan([Insertion(insertTimeRange, atTime)], [fadeInAutomation, fadeOutAutomation]);
        ThenAssociates(done, step, TileFrom(duration, audioTrack, nextInserted, atTime + audioTrack.duration));

        musicInsertions := musicInsertions + [Insertion(insertTimeRange, atTime)];
        chunks := chunks + [Insertion(insertTimeRange, atTime)];
        insertedTime := nextInserted;
        automations := automations + [fadeInAutomation];
        automations := automations + [fadeOutAutomation];
        assert automations == done.automations + step.automations;
        assert MusicPlan(chunks, automations) == Then(done, step);

        atTime := atTime + audioTrack.duration;
      }
      assert TileFrom(duration, audioTrack, insertedTime, atTime) == MusicPlan([], []);
    }

    /** `removeMusicMix()`: the music track is removed from the composition and forgotten. */
    method RemoveMusicMix()
      modifies this`musicTrack, this`musicInsertions
      ensures old(musicTrack).None? ==> musicTrack == old(musicTrack) && musicInsertions == old(musicInsertions)
      ensures old(musicTrack).Some? ==> musicTrack == None && musicInsertions == []
    {
      if musicTrack.None? {
        return;
      }
      musicTrack := None;
      musicInsertions := [];
    }
  }

  /**
   * After `insertLayer` on a list without repeated layers there are still none, the new layer is
   * last, and every other entry is kept unless it wrapped the same layer.
   */
  lemma InsertLayerKeepsLayersDistinct(layers: seq<Overlay>, layer: Overlay)
    requires DistinctLayers(layers)
    ensures var r := Without(layers, layer.layer) + [layer];
            DistinctLayers(r) && r[|r| - 1] == layer &&
            forall x :: x in r <==> x == layer || (x in layers && x.layer != layer.layer)
  {
    WithoutDistinct(layers, layer.layer);
  }

  /**
   * After `addLayers` of layers that are distinct among themselves, onto a list without
   * repeated layers, there are still none: each added layer appears once, at the end.
   */
  lemma AddLayersKeepsLayersDistinct(layers: seq<Overlay>, added: seq<Overlay>)
    requires DistinctLayers(layers) && DistinctLayers(added)
    ensures DistinctLayers(WithoutEach(layers, added) + added)
    ensures forall x :: x in WithoutEach(layers, added) + added <==>
              x in added || (x in layers && forall j :: 0 <= j < |added| ==> x.layer != added[j].layer)
  {
    WithoutEachDistinct(layers, added);
    var kept := WithoutEach(layers, added);
    var r := kept + added;
    forall i, j | 0 <= i < j < |r| ensures r[i].layer != r[j].layer {
      if j >= |kept| && i < |kept| {
        assert r[i] in kept;
        assert r[j] == added[j - |kept|];
      } else if i >= |kept| {
        assert r[i] == added[i - |kept|] && r[j] == added[j - |kept|];
      }
    }
  }

  /** `addLayers` of a single layer does what `insertLayer` does. */
  lemma AddOneLayerIsInsert(layers: seq<Overlay>, layer: Overlay)
    ensures WithoutEach(layers, [layer]) + [layer] == Without(layers, layer.layer) + [layer]
  {
    assert [layer][..0] == [];
  }
}
