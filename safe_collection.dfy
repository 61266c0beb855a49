/**
 * `SafeCollection` (Photon/Source/Extensions/Collection+Safe.swift): bounds-checked
 * subscripts over an array that answer `nil` instead of trapping. Indices are the
 * array's `Int` positions, so `startIndex` is 0 and `endIndex` is the count.
 */
module SafeCollections {
  import opened Optional

  datatype SafeCollection<T> = SafeCollection(base: seq<T>) {

    function StartIndex(): (r: int)
      ensures r == 0
    {
      0
    }

    function EndIndex(): (r: int)
      ensures r == |base|
    {
      |base|
    }

    /** `safe[index]`: the element when startIndex <= index < endIndex, `nil` otherwise. */
    function At(index: int): (r: Option<T>)
      ensures r.Some? <==> StartIndex() <= index < EndIndex()
      ensures r.Some? ==> r.value == base[index]
    {
      if index - StartIndex() >= 0 && EndIndex() - index > 0 then Some(base[index]) else None
    }

    /**
     * `safe[bounds]`: the slice when the range lies inside the collection, `nil` otherwise.
     * A Swift `Range` always has lower <= upper, so the model asks for that.
     */
    function Slice(lower: int, upper: int): (r: Option<seq<T>>)
      requires lower <= upper
      ensures r.Some? <==> StartIndex() <= lower && upper <= EndIndex()
      ensures r.Some? ==> |r.value| == upper - lower
      ensures r.Some? ==> forall k :: 0 <= k < upper - lower ==> r.value[k] == base[lower + k]
    {
      if lower - StartIndex() >= 0 && EndIndex() - upper >= 0 then Some(base[lower..upper]) else None
    }

    /** `.safe` on a safe collection is itself ("chain .safe without side effects"). */
    function Safe(): (r: SafeCollection<T>)
      ensures r.StartIndex() == StartIndex() && r.EndIndex() == EndIndex()
      ensures forall i :: r.At(i) == At(i)
    {
      this
    }
  }

  /** `Collection.safe`: wraps the collection. */
  function SafeOf<T>(s: seq<T>): (r: SafeCollection<T>)
    ensures r.StartIndex() == 0 && r.EndIndex() == |s|
    ensures forall i :: 0 <= i < |s| ==> r.At(i) == Some(s[i])
  {
    SafeCollection(s)
  }

  /** The idiom `items.safe[index - 1]` at index 0 (and any negative index) gives `nil` rather than a trap. */
  lemma NegativeIndexIsNil<T>(s: seq<T>, index: int)
    requires index < 0
    ensures SafeOf(s).At(index) == None
    ensures SafeOf(s).Safe().At(index) == None
  {
  }

  /** `safe[count]` (one past the end, as in `items.safe[index + 1]` on the last item) gives `nil`. */
  lemma PastEndIsNil<T>(s: seq<T>, index: int)
    requires index >= |s|
    ensures SafeOf(s).At(index) == None
  {
  }

  /** The whole range `0..<count` is always a valid slice and yields the collection itself. */
  lemma WholeSlice<T>(s: seq<T>)
    ensures SafeOf(s).Slice(0, |s|) == Some(s)
  {
    assert s[0..|s|] == s;
  }
}
