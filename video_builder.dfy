/**
 * `VideoBuilder` (Photon/Source/Builder/Video/VideoBuilder.swift): loads every item and then
 * decides, clip by clip, the head and tail transition of each, overwriting them on the shared
 * `VideoItem` objects.
 */
module VideoBuilders {
  import opened Optional
  import opened Results
  import opened Timing
  import opened Transitions
  import opened MediaTypes
  import opened VideoItems
  import opened SafeCollections
  import opened MediaRanges
  import MediaLoading

  /** Effective length of a transition in layout: its duration when its kind is not `.none`, else 0. */
  function EffectiveDuration(t: VideoTransition): Time {
    if IsEffective(t) then t.duration else 0.0
  }

  /**
   * The builder's configuration. `transitionTime` is the transition duration already converted
   * to a CMTime (the conversion from seconds at the preferred timescale is outside the model).
   */
  datatype VideoBuilder = VideoBuilder(
    transitionTime: Time,
    scaleTransition: bool,
    isMutedWhenVarispeed: bool,
    transitionType: VideoTransitionType)
  {
    /** `videoTransition(scaleFactor:)`: the configured kind, lasting T, or T x scaleFactor when scaling. */
    function TransitionFor(scaleFactor: real): (r: VideoTransition)
      ensures r.kind == transitionType && r.timeRange == ZeroRange
      ensures !scaleTransition ==> r.duration == transitionTime
      ensures scaleTransition ==> r.duration == Scale(transitionTime, scaleFactor)
    {
      var duration := if scaleTransition then Scale(transitionTime, scaleFactor) else transitionTime;
      VideoTransition.Make(duration, transitionType)
    }

    /**
     * The tail transition `applyTransition` leaves on item `i` of `items` (the states before the
     * pass). The last item keeps its tail. Any other item loses its tail (`.none`) when its scaled
     * duration minus its head is at most T, or the next item's scaled duration is at most T;
     * otherwise it gets `TransitionFor(scaleFactor)`.
     */
    function PlannedTail(items: seq<ItemState>, i: nat): VideoTransition
      requires i < |items|
      decreases i, 1
    {
      if i + 1 == |items| then items[i].tailTransition
      else
        var remainder := ScaledDuration(items[i]) - PlannedHead(items, i).duration;
        var nextRemainder := ScaledDuration(items[i + 1]);
        if remainder <= transitionTime || nextRemainder <= transitionTime then NoTransition()
        else TransitionFor(items[i].scaleFactor)
    }

    /** The head transition after the pass: item 0 keeps its own, item i > 0 takes the tail just given to item i - 1. */
    function PlannedHead(items: seq<ItemState>, i: nat): VideoTransition
      requires i < |items|
      decreases i, 0
    {
      if i == 0 then items[0].headTransition else PlannedTail(items, i - 1)
    }

    /** The pass-through length item `i` is left with: scaled duration minus its effective head and tail. */
    function PlannedPassthrough(items: seq<ItemState>, i: nat): Time
      requires i < |items|
    {
      ScaledDuration(items[i]) - EffectiveDuration(PlannedHead(items, i)) - EffectiveDuration(PlannedTail(items, i))
    }

    /**
     * The planner as evidently intended: the same walk, but an item's tail is dropped when its
     * remainder or the next item's length is at most the duration of the transition actually
     * inserted (T x scaleFactor when scaling), not the unscaled T.
     */
    function IntendedTail(items: seq<ItemState>, i: nat): VideoTransition
      requires i < |items|
      decreases i, 1
    {
      if i + 1 == |items| then items[i].tailTransition
      else
        var transition := TransitionFor(items[i].scaleFactor);
        var remainder := ScaledDuration(items[i]) - IntendedHead(items, i).duration;
        var nextRemainder := ScaledDuration(items[i + 1]);
        if remainder <= transition.duration || nextRemainder <= transition.duration then NoTransition()
        else transition
    }

    function IntendedHead(items: seq<ItemState>, i: nat): VideoTransition
      requires i < |items|
      decreases i, 0
    {
      if i == 0 then items[0].headTransition else IntendedTail(items, i - 1)
    }

    function IntendedPassthrough(items: seq<ItemState>, i: nat): Time
      requires i < |items|
    {
      ScaledDuration(items[i]) - EffectiveDuration(IntendedHead(items, i)) - EffectiveDuration(IntendedTail(items, i))
    }

    /**
     * Without `scaleTransition`, every item keeps a non-negative pass-through: a tail is inserted
     * only when the remainder exceeds T, and a head only when the item is longer than T.
     */
    lemma PassthroughNonNegative(items: seq<ItemState>, i: nat)
      requires !scaleTransition && transitionType != NoneKind && i < |items|
      requires forall j :: 0 <= j < |items| ==> ScaledDuration(items[j]) >= 0.0
      requires items[0].headTransition == NoTransition() && items[|items| - 1].tailTransition == NoTransition()
      ensures PlannedPassthrough(items, i) >= 0.0
    {
      if i > 0 {
        var k := i - 1;
        assert PlannedHead(items, i) == PlannedTail(items, k);
        assert PlannedTail(items, k) == NoTransition() || ScaledDuration(items[k + 1]) > transitionTime;
      }
    }

    /** The intended planner never leaves a clip a negative pass-through, whatever the configuration. */
    lemma IntendedPassthroughNonNegative(items: seq<ItemState>, i: nat)
      requires transitionType != NoneKind && i < |items|
      requires forall j :: 0 <= j < |items| ==> ScaledDuration(items[j]) >= 0.0
      requires items[0].headTransition == NoTransition() && items[|items| - 1].tailTransition == NoTransition()
      ensures IntendedPassthrough(items, i) >= 0.0
    {
      if i > 0 {
        var k := i - 1;
        assert IntendedHead(items, i) == IntendedTail(items, k);
        assert IntendedTail(items, k) == NoTransition() || ScaledDuration(items[k + 1]) > IntendedTail(items, k).duration;
      }
    }

    /** Without `scaleTransition` the intended planner is the one written: the two coincide on every item. */
    lemma {:induction false} IntendedMatchesPlannedUnscaled(items: seq<ItemState>, i: nat)
      requires !scaleTransition && i < |items|
      ensures IntendedTail(items, i) == PlannedTail(items, i)
      ensures IntendedHead(items, i) == PlannedHead(items, i)
      decreases i
    {
      if i > 0 {
        IntendedMatchesPlannedUnscaled(items, i - 1);
      }
    }

    /**
     * One step of `applyTransition`: item `index` takes over its predecessor's tail as its head
     * (item 0 keeps its own), and gets the tail the plan gives it; the last item keeps the tail
     * it holds when the walk reaches it. This holds given that the item before it already
     * follows the plan and item 0 still holds its original head.
     */
    method Decide(safe: SafeCollection<VideoItem>, index: nat, ghost before: seq<ItemState>)
      returns (head: VideoTransition, tail: VideoTransition)
      requires index < |safe.base| == |before|
      requires index > 0 ==> safe.base[index - 1].tailTransition == PlannedTail(before, index - 1)
      requires index == 0 ==> safe.base[0].headTransition == before[0].headTransition
      requires forall j :: index <= j < |before| ==>
                 safe.base[j].timeRange == before[j].timeRange && safe.base[j].scaleFactor == before[j].scaleFactor
      ensures head == PlannedHead(before, index)
      ensures index + 1 < |before| ==> tail == PlannedTail(before, index)
      ensures index + 1 == |before| ==> tail == safe.base[index].tailTransition
    {
      var item := safe.base[index];
      var previous := safe.At(index - 1);
      var next := safe.At(index + 1);
      head := if previous.Some? then previous.value.tailTransition else item.headTransition;
      tail := item.tailTransition;
      if next.Some? {
        var remainder := Scale(item.timeRange.duration, item.scaleFactor) - head.duration;
        var nextRemainder := Scale(next.value.timeRange.duration, next.value.scaleFactor);
        if remainder <= transitionTime || nextRemainder <= transitionTime {
          tail := NoTransition();
        } else {
          tail := TransitionFor(item.scaleFactor);
        }
      }
    }

    /**
     * The tail the last item holds when the walk reaches it, and keeps: its own, or, when the
     * same object occurs earlier in the list, the tail the walk gave its latest earlier occurrence.
     */
    function ReachedLastTail(items: seq<VideoItem>, before: seq<ItemState>): VideoTransition
      requires 0 < |items| == |before|
    {
      var n := |items|;
      if items[n - 1] in items[..n - 1] then PlannedTail(before, LastIndexOf(items, items[n - 1], n - 1))
      else before[n - 1].tailTransition
    }

    /** The tail the walk writes at position `i`: the planned one, and for the last item the one it reaches. */
    function WalkTail(items: seq<VideoItem>, before: seq<ItemState>, i: nat): VideoTransition
      requires i < |items| == |before|
    {
      if i + 1 < |items| then PlannedTail(before, i) else ReachedLastTail(items, before)
    }

    /**
     * `applyTransition(to:)`: with transition type `.none` it returns false and touches nothing;
     * otherwise it walks the items in order, overwriting heads and tails as `PlannedHead` and
     * `PlannedTail` say, and returns true. An object listed more than once ends with what its
     * last position wrote; in a list without repeats that is every item's own plan.
     */
    method ApplyTransition(items: seq<VideoItem>) returns (applied: bool)
      modifies items`headTransition, items`tailTransition
      ensures applied <==> transitionType != NoneKind
      ensures !applied ==> forall i :: 0 <= i < |items| ==>
                items[i].headTransition == old(items[i].headTransition) &&
                items[i].tailTransition == old(items[i].tailTransition)
      ensures applied ==> forall i :: 0 <= i < |items| && LastUpTo(items, i, |items|) ==>
                items[i].headTransition == PlannedHead(old(States(items)), i) &&
                items[i].tailTransition == WalkTail(items, old(States(items)), i)
      ensures applied && Distinct(items) ==> forall i :: 0 <= i < |items| ==>
                items[i].headTransition == PlannedHead(old(States(items)), i) &&
                items[i].tailTransition == PlannedTail(old(States(items)), i)
    {
      if transitionType == NoneKind {
        return false;
      }
      ghost var before := States(items);
      ApplyPlan(items, before);
      applied := true;
      if Distinct(items) {
        DistinctWalk(items, before);
      }
    }

    /**
     * The loop of `applyTransition(to:)`: walks the items in order, giving each the head and
     * tail `PlannedHead` and `WalkTail` compute from `before`, the items' states before the
     * pass. Each object keeps what its last position in the list wrote.
     */
    method ApplyPlan(items: seq<VideoItem>, ghost before: seq<ItemState>)
      requires |before| == |items|
      requires forall j :: 0 <= j < |items| ==>
                 items[j].headTransition == before[j].headTransition && items[j].tailTransition == before[j].tailTransition &&
                 items[j].timeRange == before[j].timeRange && items[j].scaleFactor == before[j].scaleFactor
      modifies items`headTransition, items`tailTransition
      ensures forall i :: 0 <= i < |items| && LastUpTo(items, i, |items|) ==>
                items[i].headTransition == PlannedHead(before, i) && items[i].tailTransition == WalkTail(items, before, i)
    {
      ghost var heads := seq(|before|, j requires 0 <= j < |before| => PlannedHead(before, j));
      ghost var tails := seq(|before|, j requires 0 <= j < |before| => WalkTail(items, before, j));
      var safe := SafeOf(items);
      var index := 0;
      assert items[..0] == [];
      while index < |items|
        invariant 0 <= index <= |items|
        invariant forall j :: 0 <= j < |items| ==> items[j].timeRange == before[j].timeRange
        invariant Walked(items, before, heads, tails, index)
      {
        var current := safe.At(index);
        if current.None? {
          assert false;
          break;
        }
        Turn(safe, index, before, heads, tails);
        index := index + 1;
      }
    }

    /**
     * After `index` turns of the walk: every position below `index` that is its object's
     * latest so far holds the head and tail planned for it in `heads` and `tails`, and every
     * object not yet reached still holds its transitions from `before` the pass.
     */
    static predicate Walked(items: seq<VideoItem>, before: seq<ItemState>,
                            heads: seq<VideoTransition>, tails: seq<VideoTransition>, index: nat)
      reads items
      requires index <= |items| == |before| == |heads| == |tails|
    {
      (forall j :: 0 <= j < index && LastUpTo(items, j, index) ==>
         items[j].headTransition == heads[j] && items[j].tailTransition == tails[j]) &&
      (forall j :: 0 <= j < |items| && items[j] !in items[..index] ==>
         items[j].headTransition == before[j].headTransition && items[j].tailTransition == before[j].tailTransition)
    }

    /** One turn of the walk, at position `index`: decides the item's transitions and writes them. */
    method Turn(safe: SafeCollection<VideoItem>, index: nat, ghost before: seq<ItemState>,
                ghost heads: seq<VideoTransition>, ghost tails: seq<VideoTransition>)
      requires index < |safe.base| == |before| == |heads| == |tails|
      requires forall j :: 0 <= j < |before| ==> heads[j] == PlannedHead(before, j) && tails[j] == WalkTail(safe.base, before, j)
      requires forall j :: 0 <= j < |safe.base| ==>
                 safe.base[j].timeRange == before[j].timeRange && safe.base[j].scaleFactor == before[j].scaleFactor
      requires Walked(safe.base, before, heads, tails, index)
      modifies safe.base`headTransition, safe.base`tailTransition
      ensures Walked(safe.base, before, heads, tails, index + 1)
    {
      var items := safe.base;
      if index > 0 {
        assert LastUpTo(items, index - 1, index);
      } else {
        assert items[0] !in items[..0];
      }
      var head, tail := Decide(safe, index, before);
      if index + 1 == |items| && items[index] in items[..index] {
        var last := LastIndexOf(items, items[index], index);
        assert items[last].tailTransition == tails[last];
      }
      SetTransitions(items, index, head, tail, before, heads, tails);
    }

    /**
     * Gives item `index` the head and tail the walk plans for it. Every other object keeps its
     * transitions, so what held for the positions before `index` still holds for those whose
     * object is not the one at `index`.
     */
    static method SetTransitions(items: seq<VideoItem>, index: nat, head: VideoTransition, tail: VideoTransition,
                                 ghost before: seq<ItemState>, ghost heads: seq<VideoTransition>, ghost tails: seq<VideoTransition>)
      requires index < |items| == |before| == |heads| == |tails|
      requires head == heads[index] && tail == tails[index]
      requires Walked(items, before, heads, tails, index)
      modifies items`headTransition, items`tailTransition
      ensures Walked(items, before, heads, tails, index + 1)
    {
      var item := items[index];
      item.headTransition := head;
      item.tailTransition := tail;
      assert items[..index + 1] == items[..index] + [item];
      forall j | 0 <= j <= index && LastUpTo(items, j, index + 1)
        ensures items[j].headTransition == heads[j] && items[j].tailTransition == tails[j]
      {
        if j < index {
          assert items[j] != item && LastUpTo(items, j, index);
        }
      }
      forall j | 0 <= j < |items| && items[j] !in items[..index + 1]
        ensures items[j].headTransition == before[j].headTransition && items[j].tailTransition == before[j].tailTransition
      {
        assert items[j] != item && items[j] !in items[..index];
      }
    }

    /**
     * The loading half of `build`, with the asynchronous loads completing one after another in
     * list order: every item gets the builder's `isMutedWhenVarispeed` and is loaded (status
     * `.loaded` or `.failed`, time range chosen on success), and every failed load is reported.
     * An object listed twice is loaded twice, with the same outcome, and both failures are reported.
     */
    method LoadAll(items: seq<VideoItem>) returns (reports: seq<Result<seq<VideoItem>>>)
      modifies items`isMutedWhenVarispeed, items`status, items`timeRange
      ensures reports == FailureReports(items)
      ensures forall i :: 0 <= i < |items| ==>
                items[i].isMutedWhenVarispeed == isMutedWhenVarispeed &&
                items[i].status == (if items[i].asset.LoadsValues() then Loaded else Failed) &&
                items[i].timeRange == LoadedTimeRange(items[i].asset, old(items[i].selectedRange), old(items[i].timeRange))
    {
      ghost var ranges := map o | o in items :: o.timeRange;
      reports := [];
      var k := 0;
      assert items[..0] == [];
      while k < |items|
        invariant 0 <= k <= |items|
        invariant reports == FailureReports(items[..k])
        invariant LoadedUpTo(items, ranges, k)
      {
        var report := LoadOne(items, k, ranges);
        reports := reports + report;
        assert items[..k + 1][..k] == items[..k];
        k := k + 1;
      }
      assert items[..k] == items;
    }

    /**
     * After the first `k` loads: those items carry the builder's mute flag, the status of their
     * load and the range it chose, `ranges` giving each object's range before loading; objects
     * not yet reached still hold their range from `ranges`.
     */
    predicate LoadedUpTo(items: seq<VideoItem>, ranges: map<VideoItem, TimeRange>, k: nat)
      reads items
      requires k <= |items| && forall j :: 0 <= j < |items| ==> items[j] in ranges
    {
      (forall j :: 0 <= j < k ==>
         items[j].isMutedWhenVarispeed == isMutedWhenVarispeed &&
         items[j].status == (if items[j].asset.LoadsValues() then Loaded else Failed) &&
         items[j].timeRange == LoadedTimeRange(items[j].asset, items[j].selectedRange, ranges[items[j]])) &&
      (forall j :: 0 <= j < |items| && items[j] !in items[..k] ==> items[j].timeRange == ranges[items[j]])
    }

    /** The load of item `k`, which reports its failure, if any. */
    method LoadOne(items: seq<VideoItem>, k: nat, ghost ranges: map<VideoItem, TimeRange>)
      returns (report: seq<Result<seq<VideoItem>>>)
      requires k < |items| && forall j :: 0 <= j < |items| ==> items[j] in ranges
      requires LoadedUpTo(items, ranges, k)
      modifies items`isMutedWhenVarispeed, items`status, items`timeRange
      ensures LoadedUpTo(items, ranges, k + 1)
      ensures report == (if items[k].asset.LoadsValues() then [] else [Failure(items[k].asset.LoadFault())])
    {
      var item := items[k];
      if item in items[..k] {
        ghost var j :| 0 <= j < k && items[j] == item;
        assert item.timeRange == LoadedTimeRange(item.asset, item.selectedRange, ranges[item]);
      }
      item.isMutedWhenVarispeed := isMutedWhenVarispeed;
      item.status := Loading;
      var result := MediaLoading.LoadValues(item);
      report := [];
      match result {
        case Success(status) =>
          item.status := status;
        case Failure(error) =>
          item.status := Failed;
          report := [Failure(error)];
      }
      assert items[..k + 1] == items[..k] + [item];
      forall j | 0 <= j < |items| && items[j] !in items[..k + 1]
        ensures items[j].timeRange == ranges[items[j]]
      {
        assert items[j] != item && items[j] !in items[..k];
      }
    }

    /**
     * `build(videoItems:completionHandler:)`. An empty list is reported as a success at once and
     * nothing is touched. Otherwise all items are loaded, each failed load is reported, and once
     * every load is done the transitions are planned on the loaded items and a success is
     * reported, even after failures.
     */
    method Build(items: seq<VideoItem>) returns (reports: seq<Result<seq<VideoItem>>>)
      modifies items`isMutedWhenVarispeed, items`status, items`timeRange, items`headTransition, items`tailTransition
      ensures |items| == 0 ==> reports == [Success(items)]
      ensures |items| > 0 ==> reports == FailureReports(items) + [Success(items)]
      ensures |items| > 0 ==> forall i :: 0 <= i < |items| ==>
                items[i].isMutedWhenVarispeed == isMutedWhenVarispeed &&
                items[i].status == (if items[i].asset.LoadsValues() then Loaded else Failed) &&
                items[i].timeRange == LoadedTimeRange(items[i].asset, old(items[i].selectedRange), old(items[i].timeRange))
      ensures |items| > 0 && transitionType != NoneKind ==> forall i :: 0 <= i < |items| && LastUpTo(items, i, |items|) ==>
                items[i].headTransition == PlannedHead(old(LoadedStates(items)), i) &&
                items[i].tailTransition == WalkTail(items, old(LoadedStates(items)), i)
      ensures |items| > 0 && transitionType != NoneKind && Distinct(items) ==> forall i :: 0 <= i < |items| ==>
                items[i].headTransition == PlannedHead(old(LoadedStates(items)), i) &&
                items[i].tailTransition == PlannedTail(old(LoadedStates(items)), i)
      ensures |items| == 0 || transitionType == NoneKind ==> forall i :: 0 <= i < |items| ==>
                items[i].headTransition == old(items[i].headTransition) &&
                items[i].tailTransition == old(items[i].tailTransition)
    {
      if |items| == 0 {
        return [Success(items)];
      }
      ghost var loaded := LoadedStates(items);
      reports := LoadAll(items);
      assert States(items) == loaded by {
        forall i | 0 <= i < |items|
          ensures States(items)[i] == loaded[i]
        {
        }
      }
      label Loaded:
      var _ := ApplyTransition(items);
      assert forall i :: 0 <= i < |items| ==>
               items[i].isMutedWhenVarispeed == old@Loaded(items[i].isMutedWhenVarispeed) &&
               items[i].status == old@Loaded(items[i].status) && items[i].timeRange == old@Loaded(items[i].timeRange);
      reports := reports + [Success(items)];
    }

    /**
     * In a list without repeated objects every position is its object's last, and the walk
     * leaves the last item its own tail: the walk's tails are exactly the planned ones.
     */
    lemma DistinctWalk(items: seq<VideoItem>, before: seq<ItemState>)
      requires Distinct(items) && |before| == |items|
      ensures forall i :: 0 <= i < |items| ==> LastUpTo(items, i, |items|)
      ensures forall i :: 0 <= i < |items| ==> WalkTail(items, before, i) == PlannedTail(before, i)
    {
      var n := |items|;
      if n > 0 {
        forall j | 0 <= j < n - 1
          ensures items[j] != items[n - 1]
        {
        }
        assert items[n - 1] !in items[..n - 1];
      }
    }

    /**
     * The items' states once every load has finished: time ranges chosen where loading
     * succeeds, and muted according to the builder's `isMutedWhenVarispeed`.
     */
    function LoadedStates(items: seq<VideoItem>): (r: seq<ItemState>)
      reads set i | 0 <= i < |items| :: items[i]
      ensures |r| == |items|
      ensures forall i :: 0 <= i < |items| ==>
                r[i] == items[i].State().(timeRange := LoadedTimeRange(items[i].asset, items[i].selectedRange, items[i].timeRange),
                                          isMuted := isMutedWhenVarispeed && items[i].scaleFactor != 1.0)
    {
      if |items| == 0 then []
      else
        var last := items[|items| - 1];
        LoadedStates(items[..|items| - 1])
          + [last.State().(timeRange := LoadedTimeRange(last.asset, last.selectedRange, last.timeRange),
                           isMuted := isMutedWhenVarispeed && last.scaleFactor != 1.0)]
    }
  }

  /** The time range an item has after its load: the chosen range when loading succeeds, else the old one. */
  function LoadedTimeRange(asset: Asset, selected: Option<MediaRange>, previous: TimeRange): TimeRange {
    if asset.LoadsValues() then SelectedTimeRange(selected, asset.duration) else previous
  }

  /** The length an item plays for: its time range's duration times its scale factor. */
  function ScaledDuration(s: ItemState): Time {
    Scale(s.timeRange.duration, s.scaleFactor)
  }

  /** A loaded clip of the given length and speed, with no transitions yet. */
  function Clip(duration: Time, scaleFactor: real): (s: ItemState)
    ensures ScaledDuration(s) == duration * scaleFactor
    ensures s.headTransition == NoTransition() && s.tailTransition == NoTransition()
  {
    ItemState("", 1.0, scaleFactor, None, TimeRange(0.0, duration), false, NoTransition(), NoTransition(),
              Asset(true, true, None, duration, None, None))
  }

  /**
   * With `scaleTransition`, a 1 s clip played at 10x speed next to a 10 s clip, T = 2 s and
   * dissolves: the guard compares the 10 s remainder with T = 2 s and passes, but the tail
   * inserted lasts 2 x 10 = 20 s, leaving the first clip a pass-through of -10 s. The intended
   * planner drops that tail and keeps the whole 10 s.
   */
  lemma ScaledTransitionOverrun()
    ensures VideoBuilder(2.0, true, false, Dissolve).PlannedPassthrough([Clip(1.0, 10.0), Clip(10.0, 1.0)], 0) == -10.0
    ensures VideoBuilder(2.0, true, false, Dissolve).IntendedPassthrough([Clip(1.0, 10.0), Clip(10.0, 1.0)], 0) == 10.0
  {
    var b := VideoBuilder(2.0, true, false, Dissolve);
    var clips := [Clip(1.0, 10.0), Clip(10.0, 1.0)];
    assert b.PlannedTail(clips, 0) == b.TransitionFor(10.0);
    assert b.IntendedTail(clips, 0) == NoTransition();
  }

  /** One failure report per item whose asset fails to load, in list order. */
  function FailureReports(items: seq<VideoItem>): (r: seq<Result<seq<VideoItem>>>)
    ensures |r| <= |items|
    ensures forall k :: 0 <= k < |r| ==> r[k].Failure?
  {
    if |items| == 0 then []
    else
      var last := items[|items| - 1];
      FailureReports(items[..|items| - 1]) + (if last.asset.LoadsValues() then [] else [Failure(last.asset.LoadFault())])
  }

  /** Position `i` holds the last occurrence of its object among the positions below `k`. */
  predicate LastUpTo(items: seq<VideoItem>, i: nat, k: nat)
    requires i < |items|
  {
    forall j :: i < j < k && j < |items| ==> items[j] != items[i]
  }

  /** The latest position below `k` that holds `o`. */
  function LastIndexOf(items: seq<VideoItem>, o: VideoItem, k: nat): (r: nat)
    requires k <= |items| && o in items[..k]
    ensures r < k && items[r] == o && LastUpTo(items, r, k)
  {
    assert items[..k] == items[..k - 1] + [items[k - 1]];
    if items[k - 1] == o then k - 1 else LastIndexOf(items, o, k - 1)
  }
}
