/**
 * The frame schedule of `VideoGenerator` (Photon/Source/Generator/VideoGenerator.swift), which
 * writes a slideshow video from still images: each image is shown for `FrameCount` frames, and
 * during the last `TransitionFrameCount` of them it is blended into the next image, if there is
 * one. Frames go to the writer while its input is ready for more data; the frame counter lives
 * across the writer's callbacks.
 *
 * An image is its content, as resized to the video size, and whether it can be drawn at all
 * (it has a bitmap and the resize succeeds). Pixel work and the writer itself are not modelled;
 * a written frame is the transition frame handed to the writer and its presentation time.
 */
module VideoGenerators {
  import opened Optional
  import opened SafeCollections

  /** Frames per image. */
  const FrameCount: nat := 60
  /** The closing frames of an image that blend into the next image. */
  const TransitionFrameCount: nat := 10

  /** A still image: its resized content, and whether it can be drawn. */
  datatype Image = Image(content: int, renderable: bool)

  /** `Frame`: an image and the progress that goes with it. */
  datatype Shown = Shown(image: int, progress: real)

  /** `TransitionFrame`: the current image, its neighbours while blending, and the blend progress. */
  datatype TransitionFrame = TransitionFrame(current: Shown, previous: Option<Shown>, next: Option<Shown>, progress: real)

  /** A `CMTime`: a count of `1 / timescale` seconds. */
  datatype MediaTime = MediaTime(value: int, timescale: int) {
    function Seconds(): real
      requires timescale > 0
    {
      (value as real) / (timescale as real)
    }
  }

  /** What goes to the writer for one frame. */
  datatype Written = Written(frame: TransitionFrame, presentationTime: MediaTime)

  /** How many frames the images make. */
  function TotalFrames(images: seq<Image>): nat {
    |images| * FrameCount
  }

  /** The image at `index`, resized, when there is one and it can be drawn. */
  function Resized(images: seq<Image>, index: int): (r: Option<int>)
    ensures r.Some? <==> 0 <= index < |images| && images[index].renderable
    ensures r.Some? ==> r.value == images[index].content
  {
    match SafeOf(images).At(index)
    case Some(image) => if image.renderable then Some(image.content) else None
    case None => None
  }

  /** Whether frame `f` of `n` images blends into the next image. */
  predicate Transitioning(f: nat, n: nat) {
    f % FrameCount >= FrameCount - TransitionFrameCount && f / FrameCount + 1 < n
  }

  /**
   * The frame written at counter `f`, or none when its image cannot be drawn. It shows image
   * `f / FrameCount` with the progress through that image; a transitioning frame also carries
   * the previous image at progress 1 and the next at 0, and the blend progress; any other frame
   * has blend progress 1. It is presented at `f / fps` seconds.
   */
  function Entry(images: seq<Image>, fps: nat, f: nat): Option<Written>
  {
    var index := f / FrameCount;
    var mod := f % FrameCount;
    match Resized(images, index)
    case None => None
    case Some(current) =>
      var frameProgress := (mod as real) / (FrameCount as real);
      var transitionFrame :=
        if Transitioning(f, |images|) then
          var previous := match Resized(images, index - 1) case Some(p) => Some(Shown(p, 1.0)) case None => None;
          var next := match Resized(images, index + 1) case Some(n) => Some(Shown(n, 0.0)) case None => None;
          var transitionProgress := ((mod - (FrameCount - TransitionFrameCount)) as real) / (TransitionFrameCount as real);
          TransitionFrame(Shown(current, frameProgress), previous, next, transitionProgress)
        else
          TransitionFrame(Shown(current, frameProgress), None, None, 1.0);
      Some(Written(transitionFrame, MediaTime(f, fps)))
  }

  /**
   * Where a pass of the writing loop starting at counter `f` stops when the input accepts `ready`
   * more frames: when the input stops being ready, when all frames are written, or at the first
   * frame whose image cannot be drawn.
   */
  function StopFrame(images: seq<Image>, f: nat, ready: nat): nat
    decreases ready
  {
    if ready == 0 || f >= TotalFrames(images) then f
    else if Resized(images, f / FrameCount).None? then f
    else StopFrame(images, f + 1, ready - 1)
  }

  /** The pass left the callback early, at an image it could not draw, before the input was finished. */
  predicate ReturnedEarly(images: seq<Image>, f: nat, ready: nat) {
    var stop := StopFrame(images, f, ready);
    stop < f + ready && stop < TotalFrames(images)
  }

  predicate AllRenderable(images: seq<Image>) {
    forall i :: 0 <= i < |images| ==> images[i].renderable
  }

  /**
   * The writing state the callback closes over: the images, the frame rate, the frame counter,
   * what has been written and whether the writer input has been marked finished.
   */
  class FrameWriter {
    const images: seq<Image>
    const fps: nat
    var frame: nat
    var written: seq<Written>
    var finished: bool

    /** The counter never passes the last frame, and frames `0 .. frame` are written, in order, as scheduled. */
    predicate Valid()
      reads this
    {
      frame <= TotalFrames(images) && |written| == frame &&
      forall f :: 0 <= f < frame ==> Entry(images, fps, f) == Some(written[f])
    }

    /** A new generation: counter 0, nothing written. */
    constructor (images: seq<Image>, fps: nat)
      ensures this.images == images && this.fps == fps
      ensures frame == 0 && written == [] && !finished
      ensures Valid()
    {
      this.images := images;
      this.fps := fps;
      frame := 0;
      written := [];
      finished := false;
    }

    /**
     * One call of the `requestMediaDataWhenReady` block, exactly as written, while the input
     * accepts `ready` more frames. Frames are written in order up to `StopFrame`; the input is
     * marked finished whenever the loop ends, even when it ended only because the input was not
     * ready and frames remain, and is left unfinished when an image cannot be drawn.
     */
    method RequestMediaData(ready: nat)
      requires Valid() && !finished
      modifies this`frame, this`written, this`finished
      ensures Valid()
      ensures frame == StopFrame(images, old(frame), ready)
      ensures finished <==> !ReturnedEarly(images, old(frame), ready)
    {
      finished := WriteFrames(ready);
    }

    /**
     * The same block as evidently intended: the input is marked finished only once every frame
     * is written, so a later call, when the input is ready again, carries on from the counter.
     */
    method RequestMediaDataIntended(ready: nat)
      requires Valid() && !finished
      modifies this`frame, this`written, this`finished
      ensures Valid()
      ensures frame == StopFrame(images, old(frame), ready)
      ensures finished <==> frame == TotalFrames(images)
    {
      var loopEnded := WriteFrames(ready);
      finished := loopEnded && frame == TotalFrames(images);
    }

    /**
     * The writing loop: while the input is ready and frames remain, the frame at the counter is
     * built and written and the counter moves on by one; `loopEnded` is false when the loop left
     * early at an image it could not draw.
     */
    method WriteFrames(ready: nat) returns (loopEnded: bool)
      requires Valid()
      modifies this`frame, this`written
      ensures Valid()
      ensures frame == StopFrame(images, old(frame), ready)
      ensures loopEnded <==> !ReturnedEarly(images, old(frame), ready)
    {
      var budget := ready;
      while budget > 0 && frame < TotalFrames(images)
        invariant Valid()
        invariant frame + budget == old(frame) + ready
        invariant StopFrame(images, frame, budget) == StopFrame(images, old(frame), ready)
      {
        var index := frame / FrameCount;
        var current := Resized(images, index);
        if current.None? {
          return false;
        }
        var mod := frame % FrameCount;
        var frameProgress := (mod as real) / (FrameCount as real);
        var transitioning := mod >= FrameCount - TransitionFrameCount && index + 1 < |images|;
        var transitionFrame: TransitionFrame;
        if transitioning {
          var previous := match Resized(images, index - 1) case Some(p) => Some(Shown(p, 1.0)) case None => None;
          var next := match Resized(images, index + 1) case Some(n) => Some(Shown(n, 0.0)) case None => None;
          var transitionProgress := ((mod - (FrameCount - TransitionFrameCount)) as real) / (TransitionFrameCount as real);
          transitionFrame := TransitionFrame(Shown(current.value, frameProgress), previous, next, transitionProgress);
        } else {
          transitionFrame := TransitionFrame(Shown(current.value, frameProgress), None, None, 1.0);
        }
        written := written + [Written(transitionFrame, MediaTime(frame, fps))];
        frame := frame + 1;
        budget := budget - 1;
      }
      return true;
    }
  }

  /** A pass writes at most `ready` frames and never passes the last frame. */
  lemma {:induction false} StopFrameBounds(images: seq<Image>, f: nat, ready: nat)
    ensures f <= StopFrame(images, f, ready) <= f + ready
    ensures f <= TotalFrames(images) ==> StopFrame(images, f, ready) <= TotalFrames(images)
    decreases ready
  {
    if ready > 0 && f < TotalFrames(images) && Resized(images, f / FrameCount).Some? {
      StopFrameBounds(images, f + 1, ready - 1);
    }
  }

  /**
   * With every image drawable, a pass stops only because the input stopped being ready or all
   * frames are written.
   */
  lemma {:induction false} StopFrameWhenRenderable(images: seq<Image>, f: nat, ready: nat)
    requires AllRenderable(images) && f <= TotalFrames(images)
    ensures StopFrame(images, f, ready) == if f + ready <= TotalFrames(images) then f + ready else TotalFrames(images)
    decreases ready
  {
    if ready > 0 && f < TotalFrames(images) {
      assert Resized(images, f / FrameCount).Some?;
      StopFrameWhenRenderable(images, f + 1, ready - 1);
    }
  }

  /**
   * The writer input is marked finished too early: with every image drawable, a call whose
   * input stops being ready before the last frame leaves frames unwritten and still marks the
   * input finished, so no later call writes them.
   */
  lemma TruncatedPassFinishes(images: seq<Image>, f: nat, ready: nat)
    requires AllRenderable(images) && f + ready < TotalFrames(images)
    ensures StopFrame(images, f, ready) == f + ready < TotalFrames(images)
    ensures !ReturnedEarly(images, f, ready)
  {
    StopFrameWhenRenderable(images, f, ready);
  }

  /**
   * With the intended finishing rule and every image drawable, calls that together accept at
   * least the remaining frames write every frame and then finish.
   */
  lemma CompletePassFinishes(images: seq<Image>, f: nat, ready: nat)
    requires AllRenderable(images) && f <= TotalFrames(images) <= f + ready
    ensures StopFrame(images, f, ready) == TotalFrames(images)
  {
    StopFrameWhenRenderable(images, f, ready);
  }

  /**
   * Frame `f` shows image `f / FrameCount`, with the progress through that image, and is
   * presented at `f / fps` seconds; it is missing exactly when that image cannot be drawn.
   */
  lemma EntryShowsImage(images: seq<Image>, fps: nat, f: nat)
    requires f < TotalFrames(images)
    ensures f / FrameCount < |images|
    ensures Entry(images, fps, f).None? <==> !images[f / FrameCount].renderable
    ensures Entry(images, fps, f).Some? ==>
              var w := Entry(images, fps, f).value;
              w.frame.current == Shown(images[f / FrameCount].content, ((f % FrameCount) as real) / (FrameCount as real)) &&
              w.presentationTime == MediaTime(f, fps) &&
              (fps > 0 ==> w.presentationTime.Seconds() == (f as real) / (fps as real))
  {
  }

  /**
   * A frame blends exactly when it is among the last `TransitionFrameCount` of its image and a
   * next image exists; a blending frame's progress is its step into the blend over
   * `TransitionFrameCount`, the step lying in `[0, TransitionFrameCount)`, so its progress is
   * below 1; a frame that does not blend has no neighbours and progress 1.
   */
  lemma TransitionProgress(images: seq<Image>, fps: nat, f: nat)
    requires Entry(images, fps, f).Some?
    ensures var t := Entry(images, fps, f).value.frame;
            var step := f % FrameCount - (FrameCount - TransitionFrameCount);
            (Transitioning(f, |images|) ==>
               0 <= step < TransitionFrameCount &&
               t.progress == (step as real) / (TransitionFrameCount as real) && t.progress < 1.0) &&
            (!Transitioning(f, |images|) ==> t.previous == None && t.next == None && t.progress == 1.0)
  {
  }

  /**
   * A blending frame carries the next image, at progress 0, when that image can be drawn, and
   * the previous image, at progress 1, when there is one that can be drawn.
   */
  lemma TransitionNeighbours(images: seq<Image>, fps: nat, f: nat)
    requires Entry(images, fps, f).Some? && Transitioning(f, |images|)
    ensures var t := Entry(images, fps, f).value.frame;
            var i := f / FrameCount;
            (images[i + 1].renderable ==> t.next == Some(Shown(images[i + 1].content, 0.0))) &&
            (!images[i + 1].renderable ==> t.next == None) &&
            (i == 0 ==> t.previous == None) &&
            (i > 0 && images[i - 1].renderable ==> t.previous == Some(Shown(images[i - 1].content, 1.0)))
  {
  }

  /**
   * Of the `FrameCount` frames of image `i`, the last `TransitionFrameCount` blend when a next
   * image exists and none blend otherwise, so the last image never blends.
   */
  lemma TransitionFramesOfImage(n: nat, i: nat, j: nat)
    requires i < n && j < FrameCount
    ensures i + 1 < n ==> (Transitioning(i * FrameCount + j, n) <==> j >= FrameCount - TransitionFrameCount)
    ensures i + 1 == n ==> !Transitioning(i * FrameCount + j, n)
  {
    var f := i * FrameCount + j;
    assert f / FrameCount == i && f % FrameCount == j;
  }
}
