# Photon timeline layout, in Dafny

This project models the core of Photon, an iOS video-editing library, and proves properties of that model. Photon's core is its timeline layout engine. It takes an ordered list of video clips (`VideoItem`s) and decides each clip's head and tail transition (`VideoBuilder`). It then places the clips on two alternating lanes (A/B) per media type of an `AVMutableComposition`, so that neighbouring clips can overlap during a transition. Two layouts exist:

- "Neutrino" cuts each clip into a `Segment` with head, pass-through and tail ranges and volume ramps.
- "Electron" uses one fixed transition duration and fills arrays of pass-through and transition ranges.

From the layout it derives:

- the video-composition instructions, with their opacity ramps and transform times (`NeutrinoVideoCompositionBuilder`, `ElectronVideoCompositionBuilder`);
- the audio mix (`AudioMixBuilder`), which skips volume ramps that overlap earlier ones.

Around the engine sit these smaller pieces:

- `Editor`, with its overlay-layer list, clip-range selection and background-music tiling;
- `VideoGenerator`, which schedules the frames of a slideshow video;
- the helpers `MediaRange`, `VideoTransition`, `Result`, the safe collection subscript and the orientation classifier.

Modelling choices:

- A CoreMedia time (`CMTime`, a value over a timescale) is an exact `real` number of seconds. A `CMTimeRange` is a start and a duration.
- `CMTimeMultiplyByFloat64` is exact multiplication.
- AVFoundation tracks are persistent track ids handed out 1, 2, 3, … by a modelled `MutableComposition`. `insertTimeRange` is recorded as (track, source range, time).
- Classes whose fields Photon updates in place are Dafny classes with `modifies` clauses: `VideoItem`, the mutable composition, the instruction object, the audio-mix parameters, `Editor` and the frame writer. Those updates are proved against specification functions: `PlannedHead`/`PlannedTail`, `Layout`, `Electrons`, `Instructions`, `Scan`, `Transitioned`, `Transform`, `SetRamps`, `Tile` and `StopFrame`.
- Source loops are `while`/`for` loops with invariants.
- Clip state that the builders read is taken as `ItemState` snapshots.

## Model

| member | source | states |
|---|---|---|
| Results.Result.Value | Photon/Source/Common/Result.swift:30-38 | `value` is present exactly on success, and is then the success value |
| Results.Result.Error | Photon/Source/Common/Result.swift:40-48 | `error` is present exactly on failure, and is then the failure's error |
| Results.Result.Map | Photon/Source/Common/Result.swift:53-58 | `map` succeeds exactly when the receiver does: with `f` applied on success, with the same error on failure |
| Results.Result.FlatMap | Photon/Source/Common/Result.swift:60-65 | `flatMap(f)` on `success(v)` is `f(v)`; on failure it keeps the error |
| Results.SuccessXorFailure | Photon/Source/Common/Result.swift:15-28 | `isSuccess` holds iff the case is success, `isFailure` iff failure, and exactly one of them holds |
| Results.MapIdentity | Photon/Source/Common/Result.swift:53-58 | mapping the identity changes nothing |
| Results.MapCompose | Photon/Source/Common/Result.swift:53-58 | mapping `f` then `g` is mapping their composition |
| Results.FlatMapLaws | Photon/Source/Common/Result.swift:60-65 | the monad laws: left identity, right identity, associativity |
| Results.MapIsFlatMap | Photon/Source/Common/Result.swift:53-65 | `map(f)` is `flatMap` of `success ∘ f` |
| SafeCollections.SafeCollection.At | Photon/Source/Extensions/Collection+Safe.swift:27-32 | `safe[i]` is the element iff `startIndex <= i < endIndex`, and nil otherwise |
| SafeCollections.SafeCollection.Slice | Photon/Source/Extensions/Collection+Safe.swift:34-39 | `safe[range]` is the slice, element by element, iff lower >= start and upper <= end, and nil otherwise |
| SafeCollections.SafeCollection.Safe | Photon/Source/Extensions/Collection+Safe.swift:41-44 | `.safe.safe` has the same indices and subscripts as `.safe` |
| SafeCollections.SafeOf | Photon/Source/Extensions/Collection+Safe.swift:47-51 | the safe view of an array starts at 0, ends at its count and yields every element |
| SafeCollections.NegativeIndexIsNil | Photon/Source/Extensions/Collection+Safe.swift:27-32 | a negative index (such as `index - 1` at 0) yields nil, also through `.safe.safe` |
| SafeCollections.PastEndIsNil | Photon/Source/Extensions/Collection+Safe.swift:27-32 | an index at or past the end yields nil |
| SafeCollections.WholeSlice | Photon/Source/Extensions/Collection+Safe.swift:34-39 | the full range yields the whole array |
| Geometry.OrientationOf | Photon/Source/Common/Helper.swift:12-26 | (0,1,−1,0) is `.up`, (0,−1,1,0) is `.down`, the identity is `.right`, and every other matrix is `.left`; each as an if-and-only-if |
| Geometry.OrientationIgnoresTranslation | Photon/Source/Common/Helper.swift:12-26 | the classification does not depend on the translation |
| Geometry.DisplaySize | Photon/Source/Builder/VideoComposition/Neutrino/NeutrinoVideoCompositionBuilder.swift:107-109 | width and height are exchanged exactly for `.up` and `.down` |
| MediaRanges.MediaRange.FromBounds | Photon/Source/Media/MediaRange.swift:29-32 | `init(start:end:)` keeps the start, and its `end` is the given end |
| MediaRanges.MediaRange.Union | Photon/Source/Media/MediaRange.swift:46-50 | `union` runs from the smaller start to the larger end |
| MediaRanges.MediaRange.Intersection | Photon/Source/Media/MediaRange.swift:52-56 | `intersection` runs from the larger start to the smaller end, unclamped |
| MediaRanges.BoundsRoundTrip | Photon/Source/Media/MediaRange.swift:29-44 | `init(start:end:)` and `end` round-trip in both directions |
| MediaRanges.FromBoundsValidity | Photon/Source/Media/MediaRange.swift:34-40 | a range built from bounds is valid iff 0 <= start <= end, and empty iff start == end |
| MediaRanges.UnionContainsBoth | Photon/Source/Media/MediaRange.swift:46-50 | the union contains both operands and is commutative |
| MediaRanges.UnionIsLeast | Photon/Source/Media/MediaRange.swift:46-50 | every range containing both operands contains their union |
| MediaRanges.IntersectionContained | Photon/Source/Media/MediaRange.swift:52-64 | the intersection lies in both operands and is commutative |
| MediaRanges.DisjointIntersectionInvalid | Photon/Source/Media/MediaRange.swift:52-56 | disjoint ranges intersect with a negative duration, which `isValid` rejects |
| MediaRanges.IntersectionContainsTime | Photon/Source/Media/MediaRange.swift:52-60 | a time is in the intersection iff it is in both ranges |
| MediaRanges.ContainsBothEnds | Photon/Source/Media/MediaRange.swift:58-60 | `containsTime` is inclusive at the start and at the end |
| MediaRanges.EqualityIsFieldwise | Photon/Source/Media/MediaRange.swift:69-71 | `==` compares exactly start and duration |
| Timing.TimeRange.Union | Photon/Source/Builder/Track/Segment.swift:73-75 | the union of time ranges runs from the smaller start to the larger end |
| Timing.TimeRange.Intersection | Photon/Source/Builder/AudioMix/AudioMixBuilder.swift:53 | the overlap of two ranges, or the zero range when they do not overlap |
| Timing.IntersectionNonEmptyIffOverlap | Photon/Source/Builder/AudioMix/AudioMixBuilder.swift:53 | the intersection is non-empty iff the ranges share a stretch of positive length; it is commutative |
| Timing.AdjacentRangesDoNotOverlap | Photon/Source/Builder/AudioMix/AudioMixBuilder.swift:53 | ranges that meet end to start have an empty intersection |
| Transitions.VideoTransition.Make | Photon/Source/Media/VideoTransition.swift:48-50 | `init(duration:type:)` stores duration and type, and the time range is always zero |
| Transitions.VideoTransition.DissolveOf | Photon/Source/Media/VideoTransition.swift:52-54 | `dissolve(duration:)` has kind dissolve and the given duration |
| Transitions.VideoTransition.FadeOf | Photon/Source/Media/VideoTransition.swift:56-58 | `fade(duration:)` has kind fade and the given duration |
| Transitions.NoTransition | Photon/Source/Media/VideoTransition.swift:46 | `.none` has zero duration, kind `.none` and a zero range |
| Transitions.DefaultHeadTransition | Photon/Source/Media/VideoTransition.swift:20-22 | the default head transition is `.none` |
| Transitions.DefaultTailTransition | Photon/Source/Media/VideoTransition.swift:24-26 | the default tail transition is `.none` |
| Transitions.ConstructorsEffective | Photon/Source/Media/VideoTransition.swift:46-58 | `dissolve` and `fade` take part in layout, and `.none` does not |
| VideoItems.VideoItem.constructor | Photon/Source/Media/VideoItem.swift:47-59 | the given values are kept; head and tail are `.none`; time range and start time are zero; there is no selection; not muted when varispeed; status `.unknown` |
| VideoItems.VideoItem.State | Photon/Source/Media/VideoItem.swift:64-66 | the snapshot has the item's fields, and `isMuted` iff `isMutedWhenVarispeed` and the scale factor is not 1 |
| VideoItems.VideoItem.UpdateTimeRange | Photon/Source/Media/VideoItem.swift:68-70 | `updateTimeRange` sets the time range and may change no other field |
| VideoItems.MuteRule | Photon/Source/Media/VideoItem.swift:64-66 | speed 1 is never muted; at any other speed, muted iff `isMutedWhenVarispeed` |
| VideoItems.EqualsIsEquivalence | Photon/Source/Media/VideoItem.swift:75-77 | `==` holds iff url and time range agree, and it is an equivalence |
| MediaTypes.SelectedTimeRange | Photon/Source/Media/Media.swift:55-65 | a selection with a non-zero start or duration gives `[start, start+duration)`; none, or a (0,0) one, gives `[0, asset.duration)` |
| MediaLoading.LoadValues | Photon/Source/Media/Media.swift:46-69 | when a key fails to load, the handler gets the failure (the reported error or `unknown`) and the range is untouched; otherwise the range is chosen first and then `.loaded` is handed over |
| MediaLoading.LoadedRangeChoice | Photon/Source/Media/Media.swift:55-65 | the selection is taken verbatim, and an absent or (0,0) selection takes the whole asset |
| VideoBuilders.VideoBuilder.TransitionFor | Photon/Source/Builder/Video/VideoBuilder.swift:95-98 | the configured type lasting T, or T × scaleFactor with `scaleTransition` |
| VideoBuilders.VideoBuilder.Decide | Photon/Source/Builder/Video/VideoBuilder.swift:74-89 | one turn of the loop gives exactly the planned head (the previous tail) and the planned tail; the last item keeps the tail it holds when reached |
| VideoBuilders.VideoBuilder.ApplyTransition | Photon/Source/Builder/Video/VideoBuilder.swift:61-93 | with type `.none` it returns false and changes nothing; otherwise it returns true, and each object ends with the head and tail the plan gives its last position in the list. The last item's tail is the one it holds when reached, which is a tail written earlier when the same object occurs earlier. Without repeated objects, every item's head and tail are exactly those the plan computes from the items before the pass |
| VideoBuilders.VideoBuilder.ApplyPlan | Photon/Source/Builder/Video/VideoBuilder.swift:67-91 | the loop leaves every object the head and tail planned for its last position, computed from the states before the pass, also when the list holds an object more than once |
| VideoBuilders.VideoBuilder.PassthroughNonNegative | Photon/Source/Builder/Video/VideoBuilder.swift:74-88 | without `scaleTransition`, the planned transitions never leave a clip a negative pass-through |
| VideoBuilders.VideoBuilder.IntendedPassthroughNonNegative | Photon/Source/Builder/Video/VideoBuilder.swift:78-98 | with the guard compared against the inserted duration, no clip gets a negative pass-through in any configuration |
| VideoBuilders.VideoBuilder.IntendedMatchesPlannedUnscaled | Photon/Source/Builder/Video/VideoBuilder.swift:84-96 | without `scaleTransition` the corrected plan equals the plan as written |
| VideoBuilders.VideoBuilder.LoadAll | Photon/Source/Builder/Video/VideoBuilder.swift:36-52 | every item gets the builder's mute flag and the status and range of its load, and every failure is reported in order; an object listed twice is loaded twice with the same outcome and reported twice |
| VideoBuilders.VideoBuilder.Build | Photon/Source/Builder/Video/VideoBuilder.swift:28-58 | an empty list is reported as success at once and nothing is touched; otherwise the failures are reported, the transitions are planned on the loaded items (each object keeping its last position's plan), and success is reported last |
| VideoBuilders.VideoBuilder.LoadedStates | Photon/Source/Builder/Video/VideoBuilder.swift:39-48 | the items as the planner sees them after loading: range chosen where the load succeeds, mute by the builder's flag |
| VideoBuilders.FailureReports | Photon/Source/Builder/Video/VideoBuilder.swift:45-48 | at most one report per item, every one a failure |
| VideoBuilders.LastIndexOf | Photon/Source/Builder/Video/VideoBuilder.swift:67-91 | the latest position below k holding an object listed there, which no later position below k repeats |
| VideoBuilders.VideoBuilder.DistinctWalk | Photon/Source/Builder/Video/VideoBuilder.swift:67-91 | in a list without repeated objects every position is its object's last, and the walk's tails are exactly the planned ones |
| VideoBuilders.ScaledTransitionOverrun | Photon/Source/Builder/Video/VideoBuilder.swift:78-98 | the plan as written gives a 1 s clip at 10× a pass-through of −10 s, where the corrected plan gives 10 s |
| Segments.Segment.HeadTransitionTimeRange | Photon/Source/Builder/Track/Segment.swift:35-41 | starts at `atTime`; it lasts the head's duration iff video, a head and a kind other than `.none` exist, and is empty otherwise |
| Segments.Segment.PassthroughTimeRange | Photon/Source/Builder/Track/Segment.swift:43-59 | starts where the head ends; lasts the scaled duration minus the head and, only for an effective tail, minus the tail |
| Segments.Segment.TailTransitionTimeRange | Photon/Source/Builder/Track/Segment.swift:61-71 | starts where the pass-through ends; lasts the tail only when it is effective |
| Segments.Segment.InsertedTimeRange | Photon/Source/Builder/Track/Segment.swift:73-75 | spans from the smallest start to the largest end of the three pieces |
| Segments.Segment.VolumeAutomations | Photon/Source/Builder/Track/Segment.swift:77-98 | inaudible: one 0→0 ramp over the inserted range. Audible: a fade-in 0→volume over the head iff a head object exists, a sustain over the pass-through, and a fade-out volume→0 over the tail iff a tail object exists, in that order |
| Segments.PiecesTile | Photon/Source/Builder/Track/Segment.swift:35-71 | head, pass-through and tail follow each other and end at `atTime` + scaled duration |
| Segments.InsertedIsScaledSpan | Photon/Source/Builder/Track/Segment.swift:73-75 | with no negative piece, the inserted range is exactly `[atTime, atTime + scaled)` |
| Segments.AudibleRampsAreContinuous | Photon/Source/Builder/Track/Segment.swift:82-97 | an audible segment's ramps are contiguous in time and level, start at `atTime` and end at its scaled end, at level 0 where a head or tail object exists |
| Compositions.MutableComposition.constructor | Photon/Source/Builder/Composition/Neutrino/NeutrinoCompositionBuilder.swift:15 | a new composition has no tracks and no insertions |
| Compositions.MutableComposition.AddMutableTrack | Photon/Source/Builder/Composition/Neutrino/NeutrinoCompositionBuilder.swift:17-41 | appends a track with a fresh valid id, distinct from every existing one |
| Compositions.MutableComposition.InsertTimeRange | Photon/Source/Builder/Composition/Neutrino/NeutrinoCompositionBuilder.swift:58-63 | records the insertion after the earlier ones |
| Compositions.MutableComposition.RemoveTrack | Photon/Source/Builder/Composition/Neutrino/NeutrinoCompositionBuilder.swift:75-81 | the track and its insertions are gone, and the rest keeps its order and distinct ids |
| Compositions.WithoutTrack | Photon/Source/Builder/Composition/Neutrino/NeutrinoCompositionBuilder.swift:76-78 | the remaining tracks are exactly those with another id |
| Compositions.WithoutInsertionsOn | Photon/Source/Builder/Composition/Neutrino/NeutrinoCompositionBuilder.swift:76-78 | the remaining insertions are exactly those on other tracks |
| Compositions.WithoutUnusedTrack | Photon/Source/Builder/Composition/Neutrino/NeutrinoCompositionBuilder.swift:75-81 | removing a track with no insertions keeps every insertion |
| Compositions.WithoutTrackKeepsDistinct | Photon/Source/Builder/Composition/Neutrino/NeutrinoCompositionBuilder.swift:75-81 | removing a track keeps the other ids distinct |
| Lanes.AudioLanes | Photon/Source/Builder/Composition/Neutrino/NeutrinoCompositionBuilder.swift:17-28 | there are two audio lanes iff there is more than one item |
| Lanes.VideoLanes | Photon/Source/Builder/Composition/Neutrino/NeutrinoCompositionBuilder.swift:30-41 | there are two video lanes iff there is more than one item |
| Lanes.LaneTrackMembership | Photon/Source/Builder/Composition/Neutrino/NeutrinoCompositionBuilder.swift:17-41 | the tracks are exactly the audio lanes as audio and the video lanes as video |
| Lanes.LanesDistinct | Photon/Source/Builder/Composition/Neutrino/NeutrinoCompositionBuilder.swift:17-41 | lane ids are valid, and no audio lane shares an id with a video lane |
| Lanes.AddLanes | Photon/Source/Builder/Composition/Neutrino/NeutrinoCompositionBuilder.swift:15-41 | a fresh composition gets audio A (and B), then video A (and B) for several items |
| Lanes.AddLanePair | Photon/Source/Builder/Composition/Neutrino/NeutrinoCompositionBuilder.swift:17-28 | lane A gets the next id, lane B (for several items) the one after; both are appended with the media type, and ids stay valid and distinct |
| Lanes.KeepAudioLanesIfUsed | Photon/Source/Builder/Composition/Neutrino/NeutrinoCompositionBuilder.swift:75-81 | without audio the audio lanes are removed and `audioTracks` is empty; the insertions are kept |
| Lanes.RemoveTracks | Photon/Source/Builder/Composition/Neutrino/NeutrinoCompositionBuilder.swift:76-78 | exactly the listed tracks are gone, and the insertions are kept |
| Lanes.HasAnyAudioMeansSomeItem | Photon/Source/Builder/Composition/Neutrino/NeutrinoCompositionBuilder.swift:56-57 | the audio flag is set iff some item has an audio track |
| NeutrinoBuilders.SegmentFor | Photon/Source/Builder/Composition/Neutrino/NeutrinoCompositionBuilder.swift:53-66 | segment i has id i and the cursor as `atTime`. It has audio iff the asset has an audio track, carrying the volume and mute flag. It has video iff the asset has a video track, carrying the transitions unchanged |
| NeutrinoBuilders.Layout | Photon/Source/Builder/Composition/Neutrino/NeutrinoCompositionBuilder.swift:45-73 | one segment per item |
| NeutrinoBuilders.Build | Photon/Source/Builder/Composition/Neutrino/NeutrinoCompositionBuilder.swift:13-84 | the segments are the layout; the lanes exist as the item count says; insertions go on lanes i % 2; the audio lanes are dropped when no item has audio |
| NeutrinoBuilders.PlaceItems | Photon/Source/Builder/Composition/Neutrino/NeutrinoCompositionBuilder.swift:43-73 | the loop yields the layout, the audio flag and the insertions |
| NeutrinoBuilders.PlaceItem | Photon/Source/Builder/Composition/Neutrino/NeutrinoCompositionBuilder.swift:49-66 | one item: its segment, and its insertions on lanes index % 2 |
| NeutrinoBuilders.NoAudioMeansVideoOnly | Photon/Source/Builder/Composition/Neutrino/NeutrinoCompositionBuilder.swift:56-63 | without audio every insertion is on a video lane |
| NeutrinoBuilders.LayoutAt | Photon/Source/Builder/Composition/Neutrino/NeutrinoCompositionBuilder.swift:48-73 | segment i is item i at the cursor left by the items before it |
| NeutrinoBuilders.SegmentsFollow | Photon/Source/Builder/Composition/Neutrino/NeutrinoCompositionBuilder.swift:70-72 | the cursor starts at 0 and moves by the unscaled duration minus the tail duration |
| NeutrinoBuilders.NextStartsAtTail | Photon/Source/Builder/Composition/Neutrino/NeutrinoCompositionBuilder.swift:70-72 | the next segment starts at this one's tail, off by unscaled minus scaled duration; exactly there at speed 1 |
| NeutrinoBuilders.AudibleSegmentHasThreeRamps | Photon/Source/Builder/Composition/Neutrino/NeutrinoCompositionBuilder.swift:65 | laid-out segments always carry both transition objects, so an audible one gets three ramps |
| NeutrinoBuilders.SegmentMedia | Photon/Source/Builder/Composition/Neutrino/NeutrinoCompositionBuilder.swift:54-66 | segment i has id i, has audio iff its asset has an audio track, and has video likewise |
| NeutrinoCompositions.NeutrinoComposition.VolumeAutomationsAt | Photon/Source/Builder/Composition/Neutrino/NeutrinoComposition.swift:21-37 | empty without audio lanes; otherwise the automations of the segments with i % count == index, in segment order |
| NeutrinoCompositions.NeutrinoComposition.VolumeAutomations | Photon/Source/Builder/Composition/Neutrino/NeutrinoComposition.swift:39-46 | empty without audio lanes; with any lanes, every segment's automations in segment order; with one lane, that lane's list; with two lanes, the two lanes' lists together as a multiset |
| NeutrinoCompositions.SingleLaneIsAll | Photon/Source/Builder/Composition/Neutrino/NeutrinoComposition.swift:29-45 | with one lane, lane 0 holds every segment's automations in order |
| NeutrinoCompositions.NoSuchLaneIsEmpty | Photon/Source/Builder/Composition/Neutrino/NeutrinoComposition.swift:29-34 | an index that is no lane collects nothing |
| NeutrinoCompositions.TwoLanesPartition | Photon/Source/Builder/Composition/Neutrino/NeutrinoComposition.swift:29-34 | with two lanes, lanes 0 and 1 together hold each segment's automations exactly once (as multisets and in length) |
| NeutrinoCompositions.TwoLanesOf | Photon/Source/Builder/Composition/Neutrino/NeutrinoComposition.swift:29-34 | alternating groups between two lanes puts every entry in exactly one lane |
| ElectronCompositions.NewElectron | Photon/Source/Builder/Composition/Electron/ElectronComposition.swift:63-84 | the given fields are stored; volume 1, not muted, no tracks, invalid track ids |
| ElectronCompositions.ElectronComposition.VolumeAutomationsAt | Photon/Source/Builder/Composition/Electron/ElectronComposition.swift:24-40 | always empty |
| ElectronCompositions.ElectronComposition.VolumeAutomations | Photon/Source/Builder/Composition/Electron/ElectronComposition.swift:42-50 | always empty |
| ElectronBuilders.PassthroughRange | Photon/Source/Builder/Composition/Electron/ElectronCompositionBuilder.swift:94-102 | pass-through i starts at the cursor plus T when i > 0, and lasts dur − T·[i>0] − T·[i+1<n] |
| ElectronBuilders.TransitionRange | Photon/Source/Builder/Composition/Electron/ElectronCompositionBuilder.swift:104-109 | transition i is [cursor after item i, T) for i < n−1; the last one is the zero range |
| ElectronBuilders.ElectronFor | Photon/Source/Builder/Composition/Electron/ElectronCompositionBuilder.swift:71-90 | the electron keeps the item's fields; it carries audio and video details iff the matching track exists, and the defaults otherwise |
| ElectronBuilders.Electrons | Photon/Source/Builder/Composition/Electron/ElectronCompositionBuilder.swift:59-92 | one electron per item |
| ElectronBuilders.Build | Photon/Source/Builder/Composition/Electron/ElectronCompositionBuilder.swift:20-121 | both range arrays have one entry per item, with the ranges above; lanes as the item count says; insertions on lanes i % 2; audio lanes dropped without audio |
| ElectronBuilders.PlaceAll | Photon/Source/Builder/Composition/Electron/ElectronCompositionBuilder.swift:55-110 | the arrays, zero at first, end up holding the ranges above |
| ElectronBuilders.PlaceItems | Photon/Source/Builder/Composition/Electron/ElectronCompositionBuilder.swift:63-110 | the loop yields the electrons, the audio flag, the insertions and every array entry |
| ElectronBuilders.PlaceItem | Photon/Source/Builder/Composition/Electron/ElectronCompositionBuilder.swift:64-92 | one item: its electron, and its insertions on lanes index % 2 |
| ElectronBuilders.WriteRanges | Photon/Source/Builder/Composition/Electron/ElectronCompositionBuilder.swift:94-109 | writes entry `index` of both arrays and no other, and advances the cursor by dur − T |
| ElectronBuilders.NoAudioMeansVideoOnly | Photon/Source/Builder/Composition/Electron/ElectronCompositionBuilder.swift:112-118 | without audio every insertion is on a video lane, so removing the audio lanes loses nothing |
| ElectronBuilders.CursorIsSum | Photon/Source/Builder/Composition/Electron/ElectronCompositionBuilder.swift:104-105 | the cursor moves by dur − T for every item, the last included |
| ElectronBuilders.RangesAreContiguous | Photon/Source/Builder/Composition/Electron/ElectronCompositionBuilder.swift:94-109 | pass-through i ends where transition i starts, which ends where pass-through i+1 starts |
| ElectronBuilders.RangesSpanTimeline | Photon/Source/Builder/Composition/Electron/ElectronCompositionBuilder.swift:94-105 | the first pass-through starts at 0, and the last ends at the total duration minus (n−1)·T |
| ElectronBuilders.ElectronAt | Photon/Source/Builder/Composition/Electron/ElectronCompositionBuilder.swift:63-92 | electron i is item i at the cursor, on lanes i % 2 |
| ElectronInstructions.LayerFor | Photon/Source/Builder/VideoComposition/Electron/Compositors/ElectronVideoCompositionLayerInstruction.swift:20-25 | a layer instruction keeps the track and filter and has opacity 1 |
| ElectronInstructions.ElectronVideoCompositionInstruction.Passthrough | Photon/Source/Builder/VideoComposition/Electron/Compositors/ElectronVideoCompositionInstruction.swift:98-107 | it stores the track id and range; required sources are empty; no tweening, no post-processing; default foreground, background and layers |
| ElectronInstructions.ElectronVideoCompositionInstruction.Source | Photon/Source/Builder/VideoComposition/Electron/Compositors/ElectronVideoCompositionInstruction.swift:109-118 | it stores the source ids and range; the pass-through id is invalid; tweening is on and post-processing off |
| ElectronInstructions.ElectronVideoCompositionInstruction.SetPassthroughTrackID | Photon/Source/Builder/VideoComposition/Electron/Compositors/ElectronVideoCompositionInstruction.swift:38-45 | the getter returns the value set, and nothing else changes |
| ElectronInstructions.ElectronVideoCompositionInstruction.SetRequiredSourceTrackIDs | Photon/Source/Builder/VideoComposition/Electron/Compositors/ElectronVideoCompositionInstruction.swift:51-59 | the getter returns the value set, and nothing else changes |
| ElectronInstructions.ElectronVideoCompositionInstruction.SetTimeRange | Photon/Source/Builder/VideoComposition/Electron/Compositors/ElectronVideoCompositionInstruction.swift:62-70 | the getter returns the value set, and nothing else changes |
| ElectronInstructions.ElectronVideoCompositionInstruction.SetEnablePostProcessing | Photon/Source/Builder/VideoComposition/Electron/Compositors/ElectronVideoCompositionInstruction.swift:73-81 | the getter returns the value set, and nothing else changes |
| ElectronInstructions.ElectronVideoCompositionInstruction.SetContainsTweening | Photon/Source/Builder/VideoComposition/Electron/Compositors/ElectronVideoCompositionInstruction.swift:88-96 | the getter returns the value set, and nothing else changes |
| ElectronVideoBuilders.PassthroughInstruction | Photon/Source/Builder/VideoComposition/Electron/ElectronVideoCompositionBuilder.swift:60-79 | pass-through i covers range i on lane i % 2 only. With a compositor it requires that lane alone, has no pass-through track, no tweening, and carries the electron's filter |
| ElectronVideoBuilders.TransitionInstruction | Photon/Source/Builder/VideoComposition/Electron/ElectronVideoCompositionBuilder.swift:81-107 | transition i covers range i from lane i % 2 to lane 1 − i % 2. With a compositor it requires both lanes and tweens, and those lanes are its foreground and background |
| ElectronVideoBuilders.Build | Photon/Source/Builder/VideoComposition/Electron/ElectronVideoCompositionBuilder.swift:19-46 | no electrons: a fresh composition. Otherwise 1/30 s frames; render size is the first natural size if the preferred size is zero, else the preferred size; plus the compositor setting and the alternating instructions |
| ElectronVideoBuilders.MakeTransitionInstructions | Photon/Source/Builder/VideoComposition/Electron/ElectronVideoCompositionBuilder.swift:48-111 | the loop emits pass-through 0, transition 0, …, pass-through n−1 |
| ElectronVideoBuilders.MakePassthrough | Photon/Source/Builder/VideoComposition/Electron/ElectronVideoCompositionBuilder.swift:60-79 | the pass-through step builds exactly pass-through instruction i |
| ElectronVideoBuilders.MakeTransition | Photon/Source/Builder/VideoComposition/Electron/ElectronVideoCompositionBuilder.swift:81-107 | the transition step builds exactly transition instruction i |
| ElectronVideoBuilders.InstructionsUpToLength | Photon/Source/Builder/VideoComposition/Electron/ElectronVideoCompositionBuilder.swift:55-108 | after k electrons there are 2k instructions, or 2k−1 once the last is done |
| ElectronVideoBuilders.InstructionCount | Photon/Source/Builder/VideoComposition/Electron/ElectronVideoCompositionBuilder.swift:55-108 | n electrons give exactly 2n−1 instructions, and none give none |
| ElectronVideoBuilders.InstructionAt | Photon/Source/Builder/VideoComposition/Electron/ElectronVideoCompositionBuilder.swift:55-108 | instruction 2i is pass-through i and instruction 2i+1 is transition i |
| ElectronVideoBuilders.InterleaveAt | Photon/Source/Builder/VideoComposition/Electron/ElectronVideoCompositionBuilder.swift:55-108 | in the alternating list, entry 2i is pass-through i and entry 2i+1 is transition i |
| ElectronVideoBuilders.InstructionsAreContiguous | Photon/Source/Builder/VideoComposition/Electron/ElectronVideoCompositionBuilder.swift:55-108 | for a laid-out composition, consecutive instructions meet end to start |
| ElectronVideoBuilders.PassthroughMeetsTransition | Photon/Source/Builder/Composition/Electron/ElectronCompositionBuilder.swift:94-109 | pass-through i ends where transition i starts |
| ElectronVideoBuilders.TransitionMeetsPassthrough | Photon/Source/Builder/Composition/Electron/ElectronCompositionBuilder.swift:94-109 | transition i ends where pass-through i+1 starts |
| NeutrinoVideoBuilders.ScanStep | Photon/Source/Builder/VideoComposition/Neutrino/NeutrinoVideoCompositionBuilder.swift:49-65 | a multi-layer instruction yields from = 1 − idx, to = idx, the tail of segment index − 1, and flips idx. A single-layer one counts a segment and flips idx only after another single-layer one. `None` exactly where the source traps |
| NeutrinoVideoBuilders.MakeInstructions | Photon/Source/Builder/VideoComposition/Neutrino/NeutrinoVideoCompositionBuilder.swift:34-69 | the loop computes the scan |
| NeutrinoVideoBuilders.MultiLayerPositionsAre | Photon/Source/Builder/VideoComposition/Neutrino/NeutrinoVideoCompositionBuilder.swift:44-49 | the scan stops at the first non-mutable instruction and visits exactly the multi-layer ones before it, in order |
| NeutrinoVideoBuilders.ScanFromEmits | Photon/Source/Builder/VideoComposition/Neutrino/NeutrinoVideoCompositionBuilder.swift:44-66 | from any point, one transition instruction per visited multi-layer instruction, each reading layers 1 − k and k |
| NeutrinoVideoBuilders.ScanFindsEachMultiLayer | Photon/Source/Builder/VideoComposition/Neutrino/NeutrinoVideoCompositionBuilder.swift:44-68 | exactly one transition instruction per multi-layer instruction before the first non-mutable one, in order |
| NeutrinoVideoBuilders.AlternatingFrom | Photon/Source/Builder/VideoComposition/Neutrino/NeutrinoVideoCompositionBuilder.swift:38-66 | on the alternating pattern, the scan from pass-through m yields the expected transitions m … n−2 |
| NeutrinoVideoBuilders.AlternatingScan | Photon/Source/Builder/VideoComposition/Neutrino/NeutrinoVideoCompositionBuilder.swift:38-66 | on the alternating pattern, transition k is instruction 2k+1, from layer k % 2 to 1 − k % 2, with segment k's tail |
| NeutrinoVideoBuilders.Ramps | Photon/Source/Builder/VideoComposition/Neutrino/NeutrinoVideoCompositionBuilder.swift:78-86 | fade: from 1→0 and to 0→1; dissolve: only from 1→0; `.none`: no ramps |
| NeutrinoVideoBuilders.Applied | Photon/Source/Builder/VideoComposition/Neutrino/NeutrinoVideoCompositionBuilder.swift:73-88 | the layers become exactly [from, to] with the ramps of the kind over the instruction's range |
| NeutrinoVideoBuilders.TransitionedFrom | Photon/Source/Builder/VideoComposition/Neutrino/NeutrinoVideoCompositionBuilder.swift:71-90 | handling transitions j… keeps the number of instructions |
| NeutrinoVideoBuilders.ApplyingKeepsAim | Photon/Source/Builder/VideoComposition/Neutrino/NeutrinoVideoCompositionBuilder.swift:71-90 | handling one transition leaves the later ones aimed at two layers |
| NeutrinoVideoBuilders.Transitioned | Photon/Source/Builder/VideoComposition/Neutrino/NeutrinoVideoCompositionBuilder.swift:71-90 | `applyTransition` keeps the number of instructions |
| NeutrinoVideoBuilders.TransitionedFromIs | Photon/Source/Builder/VideoComposition/Neutrino/NeutrinoVideoCompositionBuilder.swift:71-90 | each aimed instruction ends up `Applied` to its original self, and all others are untouched |
| NeutrinoVideoBuilders.TransitionedIs | Photon/Source/Builder/VideoComposition/Neutrino/NeutrinoVideoCompositionBuilder.swift:71-90 | after `applyTransition`, every transition instruction holds exactly [from, to] with its kind's ramps, and the rest are unchanged |
| NeutrinoVideoBuilders.TransformStep | Photon/Source/Builder/VideoComposition/Neutrino/NeutrinoVideoCompositionBuilder.swift:101-133 | a pass-through fixes a zero render size from its segment and sets the transform at `atTime` + head duration. A transition sets both transforms at the to segment's `atTime`. Only transforms change: track ids, opacity ramps, range and layers past the second stay. `None` exactly where the source traps |
| NeutrinoVideoBuilders.TransformKeepsLayers | Photon/Source/Builder/VideoComposition/Neutrino/NeutrinoVideoCompositionBuilder.swift:96-134 | the walk changes no layer's track id or opacity ramps, and no instruction's range or layer count |
| NeutrinoVideoBuilders.SizeAfter | Photon/Source/Builder/VideoComposition/Neutrino/NeutrinoVideoCompositionBuilder.swift:93-109 | the render size at each point of the walk; a non-zero preferred size is kept throughout |
| NeutrinoVideoBuilders.RenderSizeSticks | Photon/Source/Builder/VideoComposition/Neutrino/NeutrinoVideoCompositionBuilder.swift:107-109 | a non-zero render size is never changed again |
| NeutrinoVideoBuilders.RenderSizeIs | Photon/Source/Builder/VideoComposition/Neutrino/NeutrinoVideoCompositionBuilder.swift:93-136 | a non-zero preferred size is kept; a zero one becomes the first segment's natural size, swapped for `.up`/`.down` |
| NeutrinoVideoBuilders.AlternatingTransitions | Photon/Source/Builder/VideoComposition/Neutrino/NeutrinoVideoCompositionBuilder.swift:44-89 | on the alternating pattern, instruction 2k+1 becomes [layer k % 2, layer 1 − k % 2] with segment k's ramps, and pass-throughs are unchanged |
| NeutrinoVideoBuilders.AlternatingTransforms | Photon/Source/Builder/VideoComposition/Neutrino/NeutrinoVideoCompositionBuilder.swift:92-137 | on the alternating pattern, the walk reaches every instruction; pass-through 2k gets one transform at segment k's `atTime` + head duration; transition 2k+1 gets one for segment k and one for k+1, both at segment k+1's `atTime`; the render size is that of the walk; ramps and track ids are unchanged |
| NeutrinoVideoBuilders.TransitionedStaysAlternating | Photon/Source/Builder/VideoComposition/Neutrino/NeutrinoVideoCompositionBuilder.swift:71-90 | after `applyTransition` the alternating pattern still holds |
| NeutrinoVideoBuilders.AlternatingBuildKeepsRamps | Photon/Source/Builder/VideoComposition/Neutrino/NeutrinoVideoCompositionBuilder.swift:24-31 | on the alternating pattern, `applyTransform` after `applyTransition` succeeds and keeps every ramp and track `applyTransition` set |
| NeutrinoVideoBuilders.VideoSegmentsOf | Photon/Source/Builder/VideoComposition/Neutrino/NeutrinoVideoCompositionBuilder.swift:22 | the video parts of the segments, in order |
| NeutrinoVideoBuilders.MutableVideoComposition.constructor | Photon/Source/Builder/VideoComposition/Neutrino/NeutrinoVideoCompositionBuilder.swift:20 | holds the derived instructions and render size |
| NeutrinoVideoBuilders.MutableVideoComposition.ApplyTransition | Photon/Source/Builder/VideoComposition/Neutrino/NeutrinoVideoCompositionBuilder.swift:71-90 | the instructions become `Transitioned`, and the render size is unchanged |
| NeutrinoVideoBuilders.MutableVideoComposition.ApplyTransform | Photon/Source/Builder/VideoComposition/Neutrino/NeutrinoVideoCompositionBuilder.swift:92-137 | succeeds iff the source does not trap; then the instructions and render size are those of `Transform` |
| NeutrinoVideoBuilders.ApplyOne | Photon/Source/Builder/VideoComposition/Neutrino/NeutrinoVideoCompositionBuilder.swift:78-88 | the loop body gives exactly `Applied` |
| NeutrinoVideoBuilders.TransformOne | Photon/Source/Builder/VideoComposition/Neutrino/NeutrinoVideoCompositionBuilder.swift:101-133 | the loop body gives exactly `TransformStep` |
| NeutrinoVideoBuilders.Build | Photon/Source/Builder/VideoComposition/Neutrino/NeutrinoVideoCompositionBuilder.swift:19-32 | `None` when a segment has no video part (the `$0.video!` unwrap); otherwise scan, then transitions, then transforms, failing exactly where the source traps |
| AudioMixes.RampAt | Photon/Source/Builder/AudioMix/AudioMixBuilder.swift:51 | the lookup finds the first ramp that holds the time, or reports that none does |
| AudioMixes.Place | Photon/Source/Builder/AudioMix/AudioMixBuilder.swift:51-59 | the ramps already set stay as they are, and at most one is added, exactly the automation |
| AudioMixes.PlaceSkipsOnlyOverlaps | Photon/Source/Builder/AudioMix/AudioMixBuilder.swift:51-59 | an automation is skipped only when a ramp set earlier holds its start and overlaps it; when no ramp holds its start it is always added |
| AudioMixes.InputParameters.constructor | Photon/Source/Builder/AudioMix/AudioMixBuilder.swift:28 | new parameters for the track, with no ramps |
| AudioMixes.InputParameters.SetVolumeRamp | Photon/Source/Builder/AudioMix/AudioMixBuilder.swift:59 | the ramp is recorded after the others |
| AudioMixes.AudioMix.constructor | Photon/Source/Builder/AudioMix/AudioMixBuilder.swift:13 | a new mix has no input parameters |
| AudioMixes.SetVolumeAutomations | Photon/Source/Builder/AudioMix/AudioMixBuilder.swift:44-61 | the ramps become `SetRamps`: the automations placed in list order |
| AudioMixes.Add | Photon/Source/Builder/AudioMix/AudioMixBuilder.swift:26-42 | the new parameters go after all existing ones, which are kept, and the track id is returned |
| AudioMixes.Build | Photon/Source/Builder/AudioMix/AudioMixBuilder.swift:15-23 | nothing without audio tracks; otherwise one entry per track k, in order, carrying lane k's automations |
| AudioMixes.SetRampsKeepsEarlier | Photon/Source/Builder/AudioMix/AudioMixBuilder.swift:46-60 | ramps already set are never replaced, and every added ramp is one of the automations |
| AudioMixes.AddedRampsPassedCheck | Photon/Source/Builder/AudioMix/AudioMixBuilder.swift:51-59 | every added ramp passed the start check against the ramps before it |
| AudioMixes.StartOnlyCheck | Photon/Source/Builder/AudioMix/AudioMixBuilder.swift:51-57 | only the ramp at the new start is checked, so an automation running into a later ramp is still added and overlaps it |
| Editors.IndexOf | Photon/Source/Editor/Editor.swift:130 | the first position wrapping the layer, or none iff no entry wraps it |
| Editors.WithoutDistinct | Photon/Source/Editor/Editor.swift:130-132 | on a list without repeats, the removal drops exactly the entry for that layer |
| Editors.RemoveAtDistinct | Photon/Source/Editor/Editor.swift:130-132 | removing one entry of a list without repeated layers keeps it so, and drops exactly the entries wrapping that entry's layer |
| Editors.WithoutEachDistinct | Photon/Source/Editor/Editor.swift:118-122 | the removals of `addLayers` drop exactly the entries for the new layers |
| Editors.FadeIn | Photon/Source/Editor/Editor.swift:251-256 | 0→1 over the second after `atTime` |
| Editors.FadeOut | Photon/Source/Editor/Editor.swift:253-257 | 1→0 over the second ending at the covered time |
| Editors.TileFromShape | Photon/Source/Editor/Editor.swift:237-263 | from any covered time, the remaining chunks tile the rest of the composition |
| Editors.TilePlan | Photon/Source/Editor/Editor.swift:237-263 | chunk k sits at k × music length. Each chunk is min(remainder, music); the last ends exactly at the composition's end; two fades per chunk |
| Editors.SilentMusicNeverFinishes | Photon/Source/Editor/Editor.swift:237-247 | with a zero-length music track the loop as written never covers more time |
| Editors.NextChunk | Photon/Source/Editor/Editor.swift:241-262 | one turn of the loop is one step of `Tile`, and the remaining number of chunks decreases |
| Editors.Editor.constructor | Photon/Source/Editor/Editor.swift:15-32 | nothing loaded, no layers |
| Editors.Editor.Select | Photon/Source/Editor/Editor.swift:73-82 | with a project and a clip at `index`, its selection becomes the first range (or none) and no other field of the clip changes; otherwise nothing changes |
| Editors.Editor.SelectRange | Photon/Source/Editor/Editor.swift:84-86 | selecting one range sets it on the clip, and only the clip's selection may change |
| Editors.Editor.InsertLayer | Photon/Source/Editor/Editor.swift:129-137 | the entry for the same layer is removed, then the layer goes last; the index is ignored |
| Editors.Editor.AddLayer | Photon/Source/Editor/Editor.swift:113-115 | `insertLayer` at the end |
| Editors.Editor.AddLayers | Photon/Source/Editor/Editor.swift:117-127 | the entries for each new layer are removed in turn, then all new layers are appended in order |
| Editors.Editor.RemoveLayer | Photon/Source/Editor/Editor.swift:139-147 | an index past the end changes nothing; otherwise exactly that entry goes |
| Editors.Editor.RemoveAllLayers | Photon/Source/Editor/Editor.swift:149-153 | the list becomes empty |
| Editors.Editor.AddMusicMix | Photon/Source/Editor/Editor.swift:211-266 | no audio track, composition or music track: nothing. A composition under 3 s: one insertion of [0, d) at 0 with one 1→1 automation. Otherwise the music is tiled as `Tile` says |
| Editors.Editor.InsertMusic | Photon/Source/Editor/Editor.swift:234-263 | the loop inserts the chunks of `Tile` in order and returns its automations |
| Editors.Editor.RemoveMusicMix | Photon/Source/Editor/Editor.swift:268-275 | no music track: nothing; otherwise the track and its insertions are removed and forgotten |
| Editors.InsertLayerKeepsLayersDistinct | Photon/Source/Editor/Editor.swift:129-137 | `insertLayer` keeps the list free of repeats, with the new layer last and the other entries kept |
| Editors.AddLayersKeepsLayersDistinct | Photon/Source/Editor/Editor.swift:117-127 | `addLayers` of distinct layers keeps the list free of repeats |
| Editors.AddOneLayerIsInsert | Photon/Source/Editor/Editor.swift:113-137 | `addLayers` of one layer does what `insertLayer` does |
| VideoGenerators.Resized | Photon/Source/Generator/VideoGenerator.swift:87 | an image exists at the index iff it is in range and renderable |
| VideoGenerators.FrameWriter.constructor | Photon/Source/Generator/VideoGenerator.swift:79 | the counter starts at 0, with nothing written |
| VideoGenerators.FrameWriter.WriteFrames | Photon/Source/Generator/VideoGenerator.swift:83-110 | the loop stops at `StopFrame`: the readiness budget runs out, all frames are written, or an image cannot be drawn. It reports whether it ended without returning early |
| VideoGenerators.FrameWriter.RequestMediaData | Photon/Source/Generator/VideoGenerator.swift:81-116 | as written: the input is finished whenever the loop ends, even when it merely stopped being ready |
| VideoGenerators.FrameWriter.RequestMediaDataIntended | Photon/Source/Generator/VideoGenerator.swift:81-116 | corrected: the input is finished iff every frame was written |
| VideoGenerators.StopFrameBounds | Photon/Source/Generator/VideoGenerator.swift:83-109 | the counter grows by at most the budget and never passes images × 60 |
| VideoGenerators.StopFrameWhenRenderable | Photon/Source/Generator/VideoGenerator.swift:83-109 | with all images drawable, the loop writes min(budget, remaining) frames |
| VideoGenerators.TruncatedPassFinishes | Photon/Source/Generator/VideoGenerator.swift:83-115 | a pass cut short by readiness writes fewer than all frames, yet its loop ends normally, so the input is marked finished |
| VideoGenerators.CompletePassFinishes | Photon/Source/Generator/VideoGenerator.swift:83-109 | a budget covering the remainder writes every frame |
| VideoGenerators.EntryShowsImage | Photon/Source/Generator/VideoGenerator.swift:85-105 | frame f shows image f / 60 at progress (f % 60)/60 and time f/fps, written iff that image is drawable |
| VideoGenerators.TransitionProgress | Photon/Source/Generator/VideoGenerator.swift:92-102 | a transitioning frame's step lies in [0, 10) and its progress in [0, 1); otherwise progress is 1 with no neighbours |
| VideoGenerators.TransitionNeighbours | Photon/Source/Generator/VideoGenerator.swift:94-96 | a transitioning frame's next image is image index + 1, and its previous image is image index − 1 when that exists |
| VideoGenerators.TransitionFramesOfImage | Photon/Source/Generator/VideoGenerator.swift:32-33 | the last 10 of each image's 60 frames transition, except for the last image, which never does |

## Left out

- AVFoundation I/O: asynchronous value loading, track insertion of real media data, `scaleTimeRange`, AVAssetWriter and pixel buffers, the exporter and the previewer. Loaded asset facts are inputs, and insertion is a record of (track, range, time).
- Failures of `addMutableTrack` and `insertTimeRange` (`try`/`throw`) are not modelled. Both layouts assume those calls succeed.
- Concurrency: the `DispatchGroup` in `VideoBuilder.build` is modelled as the loads completing one after another in list order. Main-queue callbacks and the writer queue are left out.
- The transform matrices of `transform(withOrientation:renderSize:naturalSize:fillMode:)` (Photon/Source/Common/Helper.swift:28-107) are left out. Transforms are recorded as their inputs and their time.
- Floating point: times, volumes, scale factors and progress values are exact reals. `CMTimeMultiplyByFloat64` rounding, `CMTime(seconds:preferredTimescale:)` conversion, the `Int32(fps)` conversion and `Float` progress division are not modelled.
- CMTimeRange validity is not modelled: a range with a negative duration is an ordinary value here, and `Timing.TimeRange.Union` is plain min/max arithmetic on it, whatever CoreMedia does with invalid ranges.
- `VideoBuilder.init` converts `transitionDuration` to a CMTime by truncation. The model takes the converted time as input.
- Hashing: an item's `id` (its hash) is its url.
- `Editor.load(project:)` (rebuilding after `select`), the delegate callbacks, previews and thumbnails are left out. `Editors.Editor.Select` only stores the selection.
- Editors.Editor.AddMusicMix: the automations go to a temporary `AudioMixBuilder()`, whose mix the editor then drops. The model returns that builder's entry rather than storing it.
- Editors.Editor.RemoveLayer: the index is a `nat`. A negative index traps in Swift and is not modelled.
- Editors.Editor.AddMusicMix: the music is given by the time ranges of its audio tracks, and only the first is used, as in the source.
- `getVolumeRamp(for:...)` is modelled as the first ramp whose range holds the time, start inclusive and end exclusive. AVFoundation's own lookup is not part of this model.
- VideoGenerators.FrameWriter.WriteFrames: `isReadyForMoreMediaData` is a budget of frames the input accepts in one callback. `appendPixelBuffer` failures (logged only) and `finishWriting` are left out.
- Image resizing (`ph.resized`) is modelled as a per-image flag saying whether it succeeds.
- NeutrinoVideoBuilders.Build: the instructions `AVMutableVideoComposition(propertiesOf:)` derives are an input.
- Notes on the code as written:
  - `.dissolve` ramps only the from layer (`NeutrinoVideoBuilders.Ramps`);
  - the Neutrino cursor uses the unscaled duration while `Segment` uses the scaled one (`NeutrinoBuilders.NextStartsAtTail`);
  - the Electron builder has no guard against negative pass-through ranges (`ElectronBuilders.PassthroughRange`).
- The UI, debug views, GPU rendering, filters and the Electron compositor's render queues are not part of this model.

## Findings

| source | as written | input that shows it | evidently intended | confidence | as-written member | corrected member |
|---|---|---|---|---|---|---|
| Photon/Source/Builder/Video/VideoBuilder.swift:78-98 | With `scaleTransition`, the guard compares the remainders with the unscaled T, but the inserted tail lasts T × scaleFactor | T = 2 s, dissolve, `scaleTransition`; clips of 1 s at 10× and 10 s at 1×: the first clip gets a 20 s tail and a pass-through of −10 s | compare against the duration of the transition actually inserted, so no pass-through is negative | high (proved on the model; not executed) | VideoBuilders.ScaledTransitionOverrun | VideoBuilders.VideoBuilder.IntendedPassthroughNonNegative |
| Photon/Source/Editor/Editor.swift:237-263 | The tiling loop advances by the music track's duration with no check that it is positive | a composition of 3 s or more and a music asset whose audio track has duration 0: `insertedTime` never grows and the loop never ends | skip tiling for an empty music track | high (proved on the model; not executed) | Editors.SilentMusicNeverFinishes | Editors.Editor.AddMusicMix |
| Photon/Source/Generator/VideoGenerator.swift:83-115 | `markAsFinished` runs whenever the loop exits, including when the input is merely not ready | one drawable image (60 frames) and an input ready for 30 frames: 30 frames are written, then the input is finished | finish only once every frame is written, and otherwise wait for the next callback | medium (AVFoundation callback behaviour assumed; not executed) | VideoGenerators.TruncatedPassFinishes | VideoGenerators.FrameWriter.RequestMediaDataIntended |
