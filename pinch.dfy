/**
 * The pinch classifier `isPinching2D` (gestureControl.js and main.js carry the
 * same function), the per-hand edge detector that turns its boolean stream into
 * START/END events, and the delegation of those events to the grab/release stubs.
 */
module PinchGesture {
  import opened Options
  import opened Geometry
  import Skeleton

  /** The default `thresholdPixels`. */
  const DefaultPinchThreshold: real := 35.0

  /** Squared pixel distance between two landmarks once x is scaled by the width and y by the height; z is ignored. */
  function PixelDistSq(a: Landmark, b: Landmark, width: real, height: real): real {
    var dx := a.x * width - b.x * width;
    var dy := a.y * height - b.y * height;
    dx * dx + dy * dy
  }

  /**
   * `distance < thresholdPixels`, where distance is the pixel distance of thumb tip
   * and index tip; stated on squares, so a threshold of zero or less never holds.
   */
  predicate IsPinching2D(raw: seq<Landmark>, width: real, height: real, threshold: real)
    requires |raw| > Skeleton.IndexTip
    ensures IsPinching2D(raw, width, height, threshold) ==> threshold > 0.0
  {
    threshold > 0.0 &&
    PixelDistSq(raw[Skeleton.ThumbTip], raw[Skeleton.IndexTip], width, height) < threshold * threshold
  }

  lemma SquareStrictlyMonotone(a: real, b: real)
    requires 0.0 <= a && 0.0 <= b
    ensures a < b <==> a * a < b * b
  {
    if a < b {
      assert a * (b - a) >= 0.0;
      assert b * (b - a) > 0.0;
    } else {
      assert b * (a - b) >= 0.0;
      assert a * (a - b) >= 0.0;
    }
  }

  /**
   * For any square root d of the squared pixel distance, the classifier answers
   * exactly `d < threshold`: the model agrees with the source's `Math.sqrt` test.
   */
  lemma PinchIsDistanceBelowThreshold(raw: seq<Landmark>, width: real, height: real, threshold: real, d: real)
    requires |raw| > Skeleton.IndexTip
    requires d >= 0.0 && d * d == PixelDistSq(raw[Skeleton.ThumbTip], raw[Skeleton.IndexTip], width, height)
    ensures IsPinching2D(raw, width, height, threshold) <==> d < threshold
  {
    if threshold > 0.0 {
      SquareStrictlyMonotone(d, threshold);
    }
  }

  /** A distance equal to the threshold is not a pinch. */
  lemma DistanceAtThresholdIsNotPinch(raw: seq<Landmark>, width: real, height: real, d: real)
    requires |raw| > Skeleton.IndexTip
    requires d >= 0.0 && d * d == PixelDistSq(raw[Skeleton.ThumbTip], raw[Skeleton.IndexTip], width, height)
    ensures !IsPinching2D(raw, width, height, d)
  {
    PinchIsDistanceBelowThreshold(raw, width, height, d, d);
  }

  /** Only landmarks 4 and 8, and only their x and y, are read. */
  lemma PinchReadsOnlyTipsInPlane(raw: seq<Landmark>, raw': seq<Landmark>, width: real, height: real, threshold: real)
    requires |raw| > Skeleton.IndexTip && |raw'| > Skeleton.IndexTip
    requires raw[Skeleton.ThumbTip].x == raw'[Skeleton.ThumbTip].x && raw[Skeleton.ThumbTip].y == raw'[Skeleton.ThumbTip].y
    requires raw[Skeleton.IndexTip].x == raw'[Skeleton.IndexTip].x && raw[Skeleton.IndexTip].y == raw'[Skeleton.IndexTip].y
    ensures IsPinching2D(raw, width, height, threshold) == IsPinching2D(raw', width, height, threshold)
  {
  }

  /** Exchanging the thumb tip and the index tip does not change the verdict. */
  lemma PinchSymmetricInTips(raw: seq<Landmark>, width: real, height: real, threshold: real)
    requires |raw| > Skeleton.IndexTip
    ensures var swapped := raw[Skeleton.ThumbTip := raw[Skeleton.IndexTip]][Skeleton.IndexTip := raw[Skeleton.ThumbTip]];
      IsPinching2D(swapped, width, height, threshold) == IsPinching2D(raw, width, height, threshold)
  {
    var a, b := raw[Skeleton.ThumbTip], raw[Skeleton.IndexTip];
    var swapped := raw[Skeleton.ThumbTip := b][Skeleton.IndexTip := a];
    assert swapped[Skeleton.ThumbTip] == b && swapped[Skeleton.IndexTip] == a;
    var dx, dy := a.x * width - b.x * width, a.y * height - b.y * height;
    assert PixelDistSq(b, a, width, height) == (-dx) * (-dx) + (-dy) * (-dy);
  }

  /** A pinch at one threshold is still a pinch at any larger threshold; a threshold of zero or less never pinches. */
  lemma PinchMonotoneInThreshold(raw: seq<Landmark>, width: real, height: real, t: real, t': real)
    requires |raw| > Skeleton.IndexTip
    ensures t <= 0.0 ==> !IsPinching2D(raw, width, height, t)
    ensures t <= t' && IsPinching2D(raw, width, height, t) ==> IsPinching2D(raw, width, height, t')
  {
    if 0.0 < t <= t' {
      assert t * t <= t * t' <= t' * t';
    }
  }

  // ---------------------------------------------------------------- edge detection

  datatype Edge = Start | End

  /**
   * One frame of the per-hand edge detector: the stored state becomes the current
   * verdict, and an event fires exactly when the verdict differs from the state.
   */
  function EdgeStep(wasPinching: bool, pinchingNow: bool): (r: (bool, Option<Edge>))
    ensures r.0 == pinchingNow
    ensures r.1 == Some(Start) <==> !wasPinching && pinchingNow
    ensures r.1 == Some(End) <==> wasPinching && !pinchingNow
    ensures r.1 == None <==> wasPinching == pinchingNow
  {
    if pinchingNow && !wasPinching then (true, Some(Start))
    else if !pinchingNow && wasPinching then (false, Some(End))
    else (wasPinching, None)
  }

  /** The stored state after a stream of verdicts. */
  function StateAfter(init: bool, stream: seq<bool>): bool {
    if stream == [] then init else EdgeStep(StateAfter(init, stream[..|stream| - 1]), stream[|stream| - 1]).0
  }

  /** The event (or none) of every frame of a stream, frame by frame. */
  function EdgeEvents(init: bool, stream: seq<bool>): (r: seq<Option<Edge>>)
    ensures |r| == |stream|
  {
    if stream == [] then []
    else
      var prefix := stream[..|stream| - 1];
      EdgeEvents(init, prefix) + [EdgeStep(StateAfter(init, prefix), stream[|stream| - 1]).1]
  }

  /** Only the frames that emitted something, in order. */
  function Emitted(events: seq<Option<Edge>>): seq<Edge> {
    if events == [] then []
    else Emitted(events[..|events| - 1]) + (match events[|events| - 1] case Some(e) => [e] case None => [])
  }

  /** Starting released, the stream F,F,T,T,T,F,F,T emits START at frames 2 and 7 and END at frame 5. */
  lemma ExampleStream()
    ensures EdgeEvents(false, [false, false, true, true, true, false, false, true])
         == [None, None, Some(Start), None, None, Some(End), None, Some(Start)]
  {
    var s := [false, false, true, true, true, false, false, true];
    assert s[..1] == [false] && s[..1][..0] == [];
    assert EdgeEvents(false, s[..1]) == [None] && StateAfter(false, s[..1]) == false;
    assert s[..2][..1] == s[..1];
    assert EdgeEvents(false, s[..2]) == [None, None] && StateAfter(false, s[..2]) == false;
    assert s[..3][..2] == s[..2];
    assert EdgeEvents(false, s[..3]) == [None, None, Some(Start)] && StateAfter(false, s[..3]);
    assert s[..4][..3] == s[..3];
    assert EdgeEvents(false, s[..4]) == [None, None, Some(Start), None] && StateAfter(false, s[..4]);
    assert s[..5][..4] == s[..4];
    assert EdgeEvents(false, s[..5]) == [None, None, Some(Start), None, None] && StateAfter(false, s[..5]);
    assert s[..6][..5] == s[..5];
    assert EdgeEvents(false, s[..6]) == [None, None, Some(Start), None, None, Some(End)] && !StateAfter(false, s[..6]);
    assert s[..7][..6] == s[..6];
    assert EdgeEvents(false, s[..7]) == [None, None, Some(Start), None, None, Some(End), None] && !StateAfter(false, s[..7]);
    assert s[..7] == s[..|s| - 1];
  }

  /** After any stream the stored state is the last verdict (or the initial state for an empty stream). */
  lemma StateIsLastVerdict(init: bool, stream: seq<bool>)
    ensures StateAfter(init, stream) == if stream == [] then init else stream[|stream| - 1]
  {
  }

  /**
   * The emitted events alternate, and the first one is START exactly when the hand
   * starts released; a state that ends pinched has one more START than END behind it.
   */
  lemma {:induction false} EventsAlternate(init: bool, stream: seq<bool>)
    ensures var es := Emitted(EdgeEvents(init, stream));
      forall i :: 0 <= i < |es| ==> es[i] == (if (i % 2 == 0) != init then Start else End)
    ensures StateAfter(init, stream) == ((|Emitted(EdgeEvents(init, stream))| % 2 == 0) == init)
  {
    if stream != [] {
      var prefix := stream[..|stream| - 1];
      EventsAlternate(init, prefix);
      var ev := EdgeEvents(init, stream);
      assert ev[..|ev| - 1] == EdgeEvents(init, prefix);
    }
  }

  // ---------------------------------------------------------------- delegation

  /** The two logging stubs the events are delegated to. */
  datatype Stub = GrabNearestObject | ReleaseObject

  /** `onPinchStart` calls `grabNearestObject` once; `onPinchEnd` calls `releaseObject` once. */
  function Delegate(e: Edge): seq<Stub> {
    match e
    case Start => [GrabNearestObject]
    case End => [ReleaseObject]
  }

  function DelegateAll(es: seq<Edge>): seq<Stub> {
    if es == [] then [] else DelegateAll(es[..|es| - 1]) + Delegate(es[|es| - 1])
  }

  /** Each event produces exactly one stub call, a grab for START and a release for END, in event order. */
  lemma {:induction false} DelegationIsOneToOne(es: seq<Edge>)
    ensures |DelegateAll(es)| == |es|
    ensures forall i :: 0 <= i < |es| ==> DelegateAll(es)[i] == (if es[i] == Start then GrabNearestObject else ReleaseObject)
  {
    if es != [] {
      DelegationIsOneToOne(es[..|es| - 1]);
    }
  }

  /** Over any verdict stream from a released hand, grabs and releases alternate, beginning with a grab. */
  lemma GrabsAndReleasesAlternate(stream: seq<bool>)
    ensures var calls := DelegateAll(Emitted(EdgeEvents(false, stream)));
      forall i :: 0 <= i < |calls| ==> calls[i] == (if i % 2 == 0 then GrabNearestObject else ReleaseObject)
  {
    var es := Emitted(EdgeEvents(false, stream));
    EventsAlternate(false, stream);
    DelegationIsOneToOne(es);
  }
}
