/**
 * main.js, the stand-alone demo page: two hand slots created once at start-up,
 * each with 21 smoothed landmark points and 20 bone lines whose six-float
 * position buffers are rewritten every frame, and a per-hand pinch edge
 * detector whose START/END events call the grab and release stubs.
 *
 * The page's readiness guard is written `!video.readyState >= HAVE_CURRENT_DATA`,
 * which never holds. `DemoFrameAsWritten` is the frame under that guard; `DemoFrame`,
 * the class and the lemmas about a frame use the intended test (see `SkipFrame`).
 */
module MainDemo {
  import opened Options
  import opened Geometry
  import opened Smoothing
  import opened Skeleton
  import opened PinchGesture

  /** `NUM_HANDS_TO_DETECT`. */
  const NumHands: nat := 2

  /** `HTMLMediaElement.HAVE_CURRENT_DATA`. */
  const HaveCurrentData: int := 2

  // ---------------------------------------------------------------- the readiness guard

  /** JavaScript's `!n` on a number: true exactly for zero. */
  predicate JsNot(n: int) {
    n == 0
  }

  /** A boolean compared with a number is first converted: false is 0, true is 1. */
  function JsNumber(b: bool): int {
    if b then 1 else 0
  }

  /** The guard as written: `!handLandmarker || !video.readyState >= HAVE_CURRENT_DATA`. */
  predicate SkipAsWritten(hasLandmarker: bool, readyState: int)
    ensures SkipAsWritten(hasLandmarker, readyState) <==> !hasLandmarker
  {
    !hasLandmarker || JsNumber(JsNot(readyState)) >= HaveCurrentData
  }

  /** Once the detector is loaded the written guard never waits: not even for a video with no data (`HAVE_NOTHING`, 0). */
  lemma AsWrittenNeverWaitsForVideo(readyState: int)
    ensures !SkipAsWritten(true, readyState)
    ensures !SkipAsWritten(true, 0)
  {
  }

  /** The guard as intended, and as handTracking.js writes it: wait for the detector and for a current video frame. */
  predicate SkipFrame(hasLandmarker: bool, readyState: int)
    ensures readyState >= HaveCurrentData ==> (SkipFrame(hasLandmarker, readyState) <==> SkipAsWritten(hasLandmarker, readyState))
    ensures SkipAsWritten(hasLandmarker, readyState) ==> SkipFrame(hasLandmarker, readyState)
  {
    !hasLandmarker || readyState < HaveCurrentData
  }

  /**
   * For every media ready state (0 to 4) the two guards disagree exactly when the
   * detector is loaded and the video has no current frame yet.
   */
  lemma GuardsDisagreeOnlyBeforeData(hasLandmarker: bool, readyState: int)
    requires 0 <= readyState <= 4
    ensures SkipAsWritten(hasLandmarker, readyState) != SkipFrame(hasLandmarker, readyState)
        <==> hasLandmarker && readyState < HaveCurrentData
  {
  }

  // ---------------------------------------------------------------- the demo state as a value

  /** The page state that persists between frames. */
  datatype DemoState = DemoState(
    smoothed: seq<seq<Vec3>>,       // `smoothedLandmarksPerHand`
    buffers: seq<seq<seq<real>>>,   // each hand's 20 line-position buffers
    shown: seq<bool>,               // whether a hand's spheres and lines are visible
    pinching: seq<bool>,            // `isPinchingState`
    stubs: seq<Stub>)               // the grab/release stubs called so far

  predicate DemoWellFormed(s: DemoState) {
    && |s.smoothed| == NumHands && |s.buffers| == NumHands && |s.shown| == NumHands && |s.pinching| == NumHands
    && (forall h :: 0 <= h < NumHands ==> |s.smoothed[h]| == LandmarkCount)
  }

  /** What the detector delivers: at most two hands of 21 landmarks. */
  predicate DemoDetection(hands: seq<seq<Landmark>>) {
    |hands| <= NumHands && forall i :: 0 <= i < |hands| ==> |hands[i]| == LandmarkCount
  }

  /** The contents of one hand's 20 line buffers drawn over the points `pts`. */
  function Bones(pts: seq<Vec3>): (r: seq<seq<real>>)
    requires |pts| == LandmarkCount
    ensures |r| == |HandConnections|
  {
    ConnectionsFormHandTree();
    seq(|HandConnections|, i requires 0 <= i < |HandConnections| => Segment(pts, HandConnections[i]))
  }

  /** Every landmark but the wrist is drawn as the end point of exactly the line before it: line j - 1 ends at landmark j. */
  lemma BonesEndAtEveryLandmark(pts: seq<Vec3>, j: nat)
    requires |pts| == LandmarkCount && 1 <= j < LandmarkCount
    ensures Bones(pts)[j - 1][3..] == [pts[j].x, pts[j].y, pts[j].z]
    ensures forall i :: 0 <= i < |HandConnections| && i != j - 1 ==> HandConnections[i].1 != j
  {
    ConnectionsFormHandTree();
  }

  /** The stub an edge-detector step calls, if any. */
  function StubsFor(e: Option<Edge>): seq<Stub> {
    match e
    case Some(edge) => Delegate(edge)
    case None => []
  }

  /** `init()`: both hands at the origin, every line buffer zero, nothing shown, nothing pinched. */
  function DemoInitial(): (r: DemoState)
    ensures DemoWellFormed(r)
  {
    var pts := seq(LandmarkCount, _ => Origin);
    var zeros := seq(|HandConnections|, _ => [0.0, 0.0, 0.0, 0.0, 0.0, 0.0]);
    DemoState([pts, pts], [zeros, zeros], [false, false], [false, false], [])
  }

  /** The body of the hand loop of `predictWebcam` for hand `h`. */
  function DemoHandStep(s: DemoState, h: nat, raw: seq<Landmark>, width: real, height: real): (r: DemoState)
    requires DemoWellFormed(s) && h < NumHands && |raw| == LandmarkCount
    ensures DemoWellFormed(r)
    ensures r.pinching == s.pinching[h := IsPinching2D(raw, width, height, DefaultPinchThreshold)]
    ensures r.smoothed == s.smoothed[h := SmoothedHand(s.smoothed[h], raw, DemoHandConfig)]
    ensures r.shown == s.shown[h := true]
  {
    var now := IsPinching2D(raw, width, height, DefaultPinchThreshold);
    var pts := SmoothedHand(s.smoothed[h], raw, DemoHandConfig);
    s.(pinching := s.pinching[h := now],
       stubs := s.stubs + StubsFor(EdgeStep(s.pinching[h], now).1),
       shown := s.shown[h := true],
       smoothed := s.smoothed[h := pts],
       buffers := s.buffers[h := Bones(pts)])
  }

  /** The first `n` detected hands, one after the other. */
  function DemoProcess(s: DemoState, hands: seq<seq<Landmark>>, width: real, height: real, n: nat): (r: DemoState)
    requires DemoWellFormed(s) && DemoDetection(hands) && n <= |hands|
    ensures DemoWellFormed(r)
  {
    if n == 0 then s
    else DemoHandStep(DemoProcess(s, hands, width, height, n - 1), n - 1, hands[n - 1], width, height)
  }

  /** One call of `predictWebcam`: nothing when the guard says wait, else hide both hands and process the detected ones. */
  function DemoFrame(s: DemoState, hands: seq<seq<Landmark>>, width: real, height: real, hasLandmarker: bool, readyState: int): (r: DemoState)
    requires DemoWellFormed(s) && DemoDetection(hands)
    ensures DemoWellFormed(r)
  {
    if SkipFrame(hasLandmarker, readyState) then s
    else DemoProcess(s.(shown := [false, false]), hands, width, height, |hands|)
  }

  /** `predictWebcam` under the guard as written, which passes once the detector is loaded whatever the video's state. */
  function DemoFrameAsWritten(s: DemoState, hands: seq<seq<Landmark>>, width: real, height: real, hasLandmarker: bool, readyState: int): (r: DemoState)
    requires DemoWellFormed(s) && DemoDetection(hands)
    ensures DemoWellFormed(r)
  {
    if SkipAsWritten(hasLandmarker, readyState) then s
    else DemoProcess(s.(shown := [false, false]), hands, width, height, |hands|)
  }

  /**
   * The two frames agree except before the video has data: there the written guard
   * runs the whole frame, so with no hand detected a shown hand is hidden, while
   * the intended guard leaves the page as it was.
   */
  lemma AsWrittenFrameRunsBeforeData(s: DemoState, hands: seq<seq<Landmark>>, width: real, height: real, hasLandmarker: bool, readyState: int)
    requires DemoWellFormed(s) && DemoDetection(hands)
    ensures !(hasLandmarker && readyState < HaveCurrentData) ==>
      DemoFrameAsWritten(s, hands, width, height, hasLandmarker, readyState) == DemoFrame(s, hands, width, height, hasLandmarker, readyState)
    ensures hasLandmarker && readyState < HaveCurrentData ==>
      && DemoFrameAsWritten(s, hands, width, height, hasLandmarker, readyState) == DemoFrame(s, hands, width, height, true, HaveCurrentData)
      && DemoFrame(s, hands, width, height, hasLandmarker, readyState) == s
    ensures hasLandmarker && readyState < HaveCurrentData && hands == [] ==>
      DemoFrameAsWritten(s, hands, width, height, hasLandmarker, readyState) == s.(shown := [false, false])
  {
    if hasLandmarker {
      AsWrittenNeverWaitsForVideo(readyState);
    }
  }

  // ---------------------------------------------------------------- what a frame does

  /** Over the first `n` hands, slot `k` holds its hand's verdict, points, buffers and visibility once its hand is processed, and is untouched before. */
  lemma {:induction false} DemoSlotAfter(s: DemoState, hands: seq<seq<Landmark>>, width: real, height: real, n: nat, k: nat)
    requires DemoWellFormed(s) && DemoDetection(hands) && n <= |hands| && k < NumHands
    ensures var r := DemoProcess(s, hands, width, height, n);
      if k < n then
        && r.pinching[k] == IsPinching2D(hands[k], width, height, DefaultPinchThreshold)
        && r.smoothed[k] == SmoothedHand(s.smoothed[k], hands[k], DemoHandConfig)
        && r.buffers[k] == Bones(r.smoothed[k])
        && r.shown[k]
      else
        && r.pinching[k] == s.pinching[k] && r.smoothed[k] == s.smoothed[k]
        && r.buffers[k] == s.buffers[k] && r.shown[k] == s.shown[k]
  {
    if n > 0 {
      DemoSlotAfter(s, hands, width, height, n - 1, k);
    }
  }

  /** The stub hand `k` calls in a frame that starts from `s`: a grab on a fresh pinch, a release on a let-go, else nothing. */
  function HandStubs(s: DemoState, hands: seq<seq<Landmark>>, width: real, height: real, k: nat): seq<Stub>
    requires DemoWellFormed(s) && DemoDetection(hands) && k < NumHands
  {
    if k < |hands| then
      var now := IsPinching2D(hands[k], width, height, DefaultPinchThreshold);
      if now && !s.pinching[k] then [GrabNearestObject]
      else if !now && s.pinching[k] then [ReleaseObject]
      else []
    else []
  }

  /** The stubs called by the first `n` hands, hand 0's before hand 1's. */
  lemma {:induction false} DemoStubsAfter(s: DemoState, hands: seq<seq<Landmark>>, width: real, height: real, n: nat)
    requires DemoWellFormed(s) && DemoDetection(hands) && n <= |hands|
    ensures DemoProcess(s, hands, width, height, n).stubs
         == s.stubs + (if 0 < n then HandStubs(s, hands, width, height, 0) else [])
                    + (if 1 < n then HandStubs(s, hands, width, height, 1) else [])
  {
    if n > 0 {
      DemoStubsAfter(s, hands, width, height, n - 1);
      DemoSlotAfter(s, hands, width, height, n - 1, n - 1);
    }
  }

  /**
   * A frame as a whole: when it runs, each detected hand is shown with its verdict,
   * smoothed points and redrawn bones, each undetected hand is hidden and otherwise
   * untouched, and the stubs called are each hand's edge, in hand order; a skipped
   * frame changes nothing.
   */
  lemma DemoFrameEffect(s: DemoState, hands: seq<seq<Landmark>>, width: real, height: real, hasLandmarker: bool, readyState: int, k: nat)
    requires DemoWellFormed(s) && DemoDetection(hands) && k < NumHands
    ensures var r := DemoFrame(s, hands, width, height, hasLandmarker, readyState);
      && (SkipFrame(hasLandmarker, readyState) ==> r == s)
      && (!SkipFrame(hasLandmarker, readyState) ==>
            && r.shown[k] == (k < |hands|)
            && (k < |hands| ==>
                  && r.pinching[k] == IsPinching2D(hands[k], width, height, DefaultPinchThreshold)
                  && r.smoothed[k] == SmoothedHand(s.smoothed[k], hands[k], DemoHandConfig)
                  && r.buffers[k] == Bones(r.smoothed[k]))
            && (k >= |hands| ==> r.pinching[k] == s.pinching[k] && r.smoothed[k] == s.smoothed[k] && r.buffers[k] == s.buffers[k])
            && r.stubs == s.stubs + HandStubs(s, hands, width, height, 0) + HandStubs(s, hands, width, height, 1))
  {
    if !SkipFrame(hasLandmarker, readyState) {
      var start := s.(shown := [false, false]);
      DemoSlotAfter(start, hands, width, height, |hands|, k);
      DemoStubsAfter(start, hands, width, height, |hands|);
      assert HandStubs(start, hands, width, height, 0) == HandStubs(s, hands, width, height, 0);
      assert HandStubs(start, hands, width, height, 1) == HandStubs(s, hands, width, height, 1);
    }
  }

  // ---------------------------------------------------------------- the page state, updated in place

  /**
   * One hand's visuals as `init()` creates them: the 21 smoothed points
   * (`smoothedLandmarksPerHand[h]`) and the position buffers of its 20 bone lines
   * (`connectionVisualsPerHand[h]`), all updated in place.
   */
  class HandVisuals {
    var points: array<Vec3>
    var lines: seq<array<real>>
    ghost var Points: seq<Vec3>
    ghost var Lines: seq<seq<real>>
    ghost var Repr: set<object>

    ghost predicate Valid()
      reads this, Repr
    {
      && this in Repr && points in Repr && (forall i :: 0 <= i < |lines| ==> lines[i] in Repr)
      && points[..] == Points && |Points| == LandmarkCount
      && |lines| == |HandConnections| && |Lines| == |HandConnections|
      && (forall i :: 0 <= i < |lines| ==> lines[i].Length == 6 && lines[i][..] == Lines[i])
      && (forall i, j :: 0 <= i < j < |lines| ==> lines[i] != lines[j])
    }

    /** 21 points at the origin and 20 zeroed buffers (`new THREE.Vector3()`, `new Float32Array(6)`). */
    constructor()
      ensures Valid() && fresh(Repr)
      ensures Points == seq(LandmarkCount, _ => Origin)
      ensures Lines == seq(|HandConnections|, _ => [0.0, 0.0, 0.0, 0.0, 0.0, 0.0])
    {
      points := new Vec3[LandmarkCount](_ => Origin);
      var ls := NewLineBuffers();
      lines := ls;
      new;
      Points := points[..];
      Lines := seq(|HandConnections|, _ => [0.0, 0.0, 0.0, 0.0, 0.0, 0.0]);
      Repr := {this, points} + set i | 0 <= i < |lines| :: lines[i];
    }

    /** The landmark loop of one hand (smoothing in place) followed by its connection loop. */
    method Update(raw: seq<Landmark>)
      requires Valid() && |raw| == LandmarkCount
      modifies Repr
      ensures Valid() && Repr == old(Repr)
      ensures Points == SmoothedHand(old(Points), raw, DemoHandConfig)
      ensures Lines == Bones(Points)
    {
      SmoothInPlace(points, raw, DemoHandConfig);
      Points := points[..];
      FillConnectionBuffers(lines, points[..]);
      Lines := Bones(points[..]);
    }
  }

  /** main.js's module-level state: both hands' visuals, the shown flags, the pinch states and the stub calls. */
  class DemoTracker {
    var hand0: HandVisuals
    var hand1: HandVisuals
    var shown: seq<bool>
    var pinching: seq<bool>
    var stubs: seq<Stub>

    ghost predicate Valid()
      reads this, hand0, hand1, hand0.Repr, hand1.Repr
    {
      && hand0.Valid() && hand1.Valid() && hand0.Repr !! hand1.Repr
      && this !in hand0.Repr && this !in hand1.Repr
      && |shown| == NumHands && |pinching| == NumHands
    }

    ghost function State(): DemoState
      reads this, hand0, hand1
    {
      DemoState([hand0.Points, hand1.Points], [hand0.Lines, hand1.Lines], shown, pinching, stubs)
    }

    /** `init()`'s per-hand loop, then the page's initial pinch state. */
    constructor()
      ensures Valid() && State() == DemoInitial()
    {
      hand0 := new HandVisuals();
      hand1 := new HandVisuals();
      shown := [false, false];
      pinching := [false, false];
      stubs := [];
    }

    /** Hides both hands, then runs the hand loop. */
    method PredictWebcam(hands: seq<seq<Landmark>>, width: real, height: real, hasLandmarker: bool, readyState: int)
      requires Valid() && DemoDetection(hands)
      modifies this, hand0.Repr, hand1.Repr
      ensures Valid() && hand0 == old(hand0) && hand1 == old(hand1)
      ensures hand0.Repr == old(hand0.Repr) && hand1.Repr == old(hand1.Repr)
      ensures State() == DemoFrame(old(State()), hands, width, height, hasLandmarker, readyState)
    {
      if SkipFrame(hasLandmarker, readyState) {
        return;
      }
      HideHands();
      ghost var start := State();
      for n := 0 to |hands|
        invariant Valid() && hand0 == old(hand0) && hand1 == old(hand1)
        invariant hand0.Repr == old(hand0.Repr) && hand1.Repr == old(hand1.Repr)
        invariant State() == DemoProcess(start, hands, width, height, n)
      {
        ProcessHand(n, hands[n], width, height);
      }
    }

    /** The first loop of `predictWebcam`: every hand's spheres and lines are hidden. */
    method HideHands()
      requires Valid()
      modifies this
      ensures Valid() && hand0 == old(hand0) && hand1 == old(hand1)
      ensures State() == old(State()).(shown := [false, false])
    {
      for i := 0 to NumHands
        invariant Valid() && hand0 == old(hand0) && hand1 == old(hand1) && pinching == old(pinching) && stubs == old(stubs)
        invariant |shown| == NumHands && forall h :: 0 <= h < NumHands ==> shown[h] == (if h < i then false else old(shown)[h])
      {
        shown := shown[i := false];
      }
      assert shown == [false, false];
    }

    /** The body of the hand loop: edge detection and delegation, then the hand's points and bones. */
    method ProcessHand(h: nat, raw: seq<Landmark>, width: real, height: real)
      requires Valid() && h < NumHands && |raw| == LandmarkCount
      modifies this, hand0.Repr, hand1.Repr
      ensures Valid() && hand0 == old(hand0) && hand1 == old(hand1)
      ensures hand0.Repr == old(hand0.Repr) && hand1.Repr == old(hand1.Repr)
      ensures State() == DemoHandStep(old(State()), h, raw, width, height)
    {
      var now := IsPinching2D(raw, width, height, DefaultPinchThreshold);
      DetectPinchEdge(h, now);
      if h == 0 {
        hand0.Update(raw);
      } else {
        hand1.Update(raw);
      }
    }

    /** The edge detector of one hand: on a change the state flips and `onPinchStart` or `onPinchEnd` calls its stub; the hand is shown. */
    method DetectPinchEdge(h: nat, now: bool)
      requires Valid() && h < NumHands
      modifies this
      ensures Valid() && hand0 == old(hand0) && hand1 == old(hand1)
      ensures State() == old(State()).(pinching := old(pinching)[h := now],
                                       stubs := old(stubs) + StubsFor(EdgeStep(old(pinching)[h], now).1),
                                       shown := old(shown)[h := true])
    {
      if now && !pinching[h] {
        pinching := pinching[h := true];
        stubs := stubs + [GrabNearestObject];
      } else if !now && pinching[h] {
        pinching := pinching[h := false];
        stubs := stubs + [ReleaseObject];
      }
      shown := shown[h := true];
    }
  }

  /** Twenty fresh, distinct six-float buffers, all zero (`new Float32Array(6)` per bone). */
  method NewLineBuffers() returns (ls: seq<array<real>>)
    ensures |ls| == |HandConnections|
    ensures forall i :: 0 <= i < |ls| ==> fresh(ls[i]) && ls[i].Length == 6 && ls[i][..] == [0.0, 0.0, 0.0, 0.0, 0.0, 0.0]
    ensures forall i, j :: 0 <= i < j < |ls| ==> ls[i] != ls[j]
  {
    ls := [];
    while |ls| < |HandConnections|
      invariant |ls| <= |HandConnections|
      invariant forall i :: 0 <= i < |ls| ==> fresh(ls[i]) && ls[i].Length == 6 && ls[i][..] == [0.0, 0.0, 0.0, 0.0, 0.0, 0.0]
      invariant forall i, j :: 0 <= i < j < |ls| ==> ls[i] != ls[j]
      decreases |HandConnections| - |ls|
    {
      var a := new real[6](_ => 0.0);
      assert a[..] == [0.0, 0.0, 0.0, 0.0, 0.0, 0.0];
      ls := ls + [a];
    }
  }
}
