/**
 * handTracking.js: the module state kept across frames (smoothed landmarks per
 * hand, the pinch state, the UI panel's anti-flicker counters, `isUIActive`)
 * and `predictWebcam`'s per-frame update of it.
 *
 * The pure part states one frame as a fold over the detected hands: `FrameStart`
 * hides what the frame hides, `FrameReadings` works out each hand's pinch verdict,
 * smoothed landmarks and facing verdict from its slot, `HandStep` applies one
 * reading, `ProcessHands` folds the steps and `Frame` is the whole call.
 * `FrameLoopStep` shows that the fold is the source's loop, which reads each slot
 * only when it reaches it. The class `HandTracker` is the module state, and its
 * methods are proved to perform exactly that fold.
 * The callbacks `onPinchStart`, `onPinchEnd` and `updateRaycast` belong to a
 * gesture engine that is not part of this model: each call is recorded, with
 * its arguments, in the `calls` log.
 */
module HandTracking {
  import opened Options
  import opened Geometry
  import opened Smoothing
  import opened Skeleton
  import opened PinchGesture

  /** `NUM_HANDS_TO_DETECT`; the detector is configured for the same number of hands. */
  const NumHands: nat := 2

  /** `PALM_FACING_THRESHOLD`: the facing test is "unit palm normal's z exceeds 0.5". */
  const PalmFacingThreshold: real := 0.5

  /** `FACING_TRUE_THRESHOLD` and `FACING_FALSE_THRESHOLD`, in frames. */
  const FacingTrueThreshold: nat := 5
  const FacingFalseThreshold: nat := 15

  /** `UI_PANEL_OFFSET`: where the panel floats relative to the wrist. */
  const UIPanelOffset: Vec3 := Vec3(0.6, 0.3, -0.5)

  datatype Handedness = Left | Right

  /** One hand of a detector result: its handedness label and its 21 raw landmarks. */
  datatype DetectedHand = DetectedHand(handedness: Handedness, landmarks: seq<Landmark>)

  /** The calls made into the gesture engine, in the order they are made. */
  datatype Call =
    | PinchStartCall(hand: nat, handedness: Handedness, uiActive: bool)
    | PinchEndCall(hand: nat)
    | RaycastCall(hand: nat, handedness: Handedness, uiActive: bool)

  /** The UI panel mesh, when it exists: its visibility and position. */
  datatype Panel = Panel(visible: bool, position: Vec3)

  /** A hand's palm sphere: its visibility and position. */
  datatype PalmSphere = PalmSphere(visible: bool, position: Vec3)

  /** The module state of handTracking.js (plus `isPinchingState`) as one value. */
  datatype TrackerState = TrackerState(
    smoothed: seq<seq<Vec3>>,
    palms: seq<PalmSphere>,
    pinching: seq<bool>,
    facingTrue: nat,
    facingFalse: nat,
    uiActive: bool,
    panel: Option<Panel>,
    uiPosition: Vec3,
    calls: seq<Call>)

  /**
   * The shape every reachable state has: one pinch flag per detectable hand,
   * a palm sphere and 21 smoothed landmarks per set-up hand slot, and at most
   * one of the two facing counters non-zero.
   */
  predicate WellFormed(s: TrackerState) {
    && |s.pinching| == NumHands
    && |s.palms| == |s.smoothed|
    && (forall i :: 0 <= i < |s.smoothed| ==> |s.smoothed[i]| == LandmarkCount)
    && (s.facingTrue == 0 || s.facingFalse == 0)
  }

  /** What the detector delivers: at most two hands, 21 landmarks each. */
  predicate ValidDetection(hands: seq<DetectedHand>) {
    |hands| <= NumHands && forall i :: 0 <= i < |hands| ==> |hands[i].landmarks| == LandmarkCount
  }

  // ---------------------------------------------------------------- geometry of one hand

  /** `getWristPosition`: landmark 0 of an existing hand slot, else the origin. */
  function WristPosition(smoothed: seq<seq<Vec3>>, handIndex: int): (r: Vec3)
    requires forall i :: 0 <= i < |smoothed| ==> |smoothed[i]| == LandmarkCount
    ensures 0 <= handIndex < |smoothed| ==> r == smoothed[handIndex][Wrist]
    ensures !(0 <= handIndex < |smoothed|) ==> r == Origin
  {
    if 0 <= handIndex < |smoothed| then smoothed[handIndex][Wrist] else Origin
  }

  /**
   * `getForwardDirection` before normalisation: wrist to middle-finger base for an
   * existing hand slot, else (0, 0, -1).
   */
  function ForwardAxis(smoothed: seq<seq<Vec3>>, handIndex: int): (r: Vec3)
    requires forall i :: 0 <= i < |smoothed| ==> |smoothed[i]| == LandmarkCount
    ensures 0 <= handIndex < |smoothed| ==> Add(smoothed[handIndex][Wrist], r) == smoothed[handIndex][MiddleBase]
    ensures !(0 <= handIndex < |smoothed|) ==> r == Vec3(0.0, 0.0, -1.0)
  {
    if 0 <= handIndex < |smoothed| then Sub(smoothed[handIndex][MiddleBase], smoothed[handIndex][Wrist])
    else Vec3(0.0, 0.0, -1.0)
  }

  /** The forward axis leads from the reported wrist to the middle-finger base, or is the default unit axis. */
  lemma WristPlusForwardIsMiddleBase(smoothed: seq<seq<Vec3>>, handIndex: int)
    requires forall i :: 0 <= i < |smoothed| ==> |smoothed[i]| == LandmarkCount
    ensures 0 <= handIndex < |smoothed| ==>
      Add(WristPosition(smoothed, handIndex), ForwardAxis(smoothed, handIndex)) == smoothed[handIndex][MiddleBase]
    ensures !(0 <= handIndex < |smoothed|) ==>
      WristPosition(smoothed, handIndex) == Origin && ForwardAxis(smoothed, handIndex) == Vec3(0.0, 0.0, -1.0)
  {
  }

  /** The unnormalised palm normal: (index base - wrist) x (pinky base - wrist). */
  function PalmNormal(pts: seq<Vec3>): Vec3
    requires |pts| == LandmarkCount
  {
    Cross(Sub(pts[IndexBase], pts[Wrist]), Sub(pts[PinkyBase], pts[Wrist]))
  }

  /**
   * `isPalmFacingCamera` without a square root: with z the palm normal's z,
   * negated for a 'Left' hand, the unit normal's z exceeds 0.5 exactly when
   * z > 0 and 4 z^2 exceeds the normal's squared length.
   */
  predicate IsPalmFacing(pts: seq<Vec3>, handedness: Handedness)
    requires |pts| == LandmarkCount
    ensures IsPalmFacing(pts, handedness) ==> PalmNormal(pts).z != 0.0
    ensures pts[IndexBase] == pts[Wrist] ==> !IsPalmFacing(pts, handedness)
  {
    var c := PalmNormal(pts);
    var z := if handedness == Left then -c.z else c.z;
    z > 0.0 && 4.0 * z * z > NormSq(c)
  }

  /** The source's computation, given the normal's length: `normalize()` divides by the length, or by 1 when it is 0. */
  function NormalisedNormalZ(c: Vec3, len: real, handedness: Handedness): real {
    var z := if len == 0.0 then c.z else c.z / len;
    if handedness == Left then -z else z
  }

  /** The square-free test agrees with the source's normalise-then-compare for the true length of the normal. */
  lemma PalmFacingMatchesNormalisedNormal(pts: seq<Vec3>, handedness: Handedness, len: real)
    requires |pts| == LandmarkCount
    requires len >= 0.0 && len * len == NormSq(PalmNormal(pts))
    ensures IsPalmFacing(pts, handedness) <==> NormalisedNormalZ(PalmNormal(pts), len, handedness) > PalmFacingThreshold
  {
    var c := PalmNormal(pts);
    var z := if handedness == Left then -c.z else c.z;
    assert IsPalmFacing(pts, handedness) <==> z > 0.0 && 4.0 * z * z > NormSq(c);
    NormalTest(c, z, len);
    if len == 0.0 {
      assert NormalisedNormalZ(c, len, handedness) == z;
    } else if handedness == Left {
      NegatedQuotient(c.z, len);
      assert NormalisedNormalZ(c, len, handedness) == z / len;
    } else {
      assert NormalisedNormalZ(c, len, handedness) == z / len;
    }
  }

  lemma NegatedQuotient(a: real, len: real)
    requires len > 0.0
    ensures -(a / len) == (-a) / len
  {
    var q := a / len;
    assert q * len == a;
    assert (-q) * len == -a;
  }

  lemma NormalTest(c: Vec3, z: real, len: real)
    requires z == c.z || z == -c.z
    requires len >= 0.0 && len * len == NormSq(c)
    ensures (z > 0.0 && 4.0 * z * z > NormSq(c)) <==> (if len == 0.0 then z else z / len) > 0.5
  {
    assert z * z == c.z * c.z;
    if len == 0.0 {
      ZeroNormHasZeroZ(c);
    } else {
      HalfCompare(z, len);
      if z >= 0.0 {
        SquareStrictlyMonotone(0.5 * len, z);
      }
    }
  }

  lemma ZeroNormHasZeroZ(c: Vec3)
    requires NormSq(c) == 0.0
    ensures c.z == 0.0
  {
    var x, y, z := c.x, c.y, c.z;
    assert x * x >= 0.0 && y * y >= 0.0;
    assert z * z <= 0.0;
    var a := if z >= 0.0 then z else -z;
    assert a * a == z * z;
    SquareStrictlyMonotone(0.0, a);
  }

  lemma HalfCompare(z: real, len: real)
    requires len > 0.0
    ensures z / len > 0.5 <==> z > 0.5 * len
  {
    var q := z / len;
    assert q * len == z;
    if q > 0.5 {
      assert (q - 0.5) * len > 0.0;
    } else {
      assert (0.5 - q) * len >= 0.0;
    }
  }

  /** For the same landmarks, a 'Left' and a 'Right' verdict are never both "facing". */
  lemma LeftAndRightNeverBothFacing(pts: seq<Vec3>)
    requires |pts| == LandmarkCount
    ensures !(IsPalmFacing(pts, Left) && IsPalmFacing(pts, Right))
  {
  }

  /** The palm centre: mean of the wrist and the four finger bases (landmarks 0, 5, 9, 13, 17). */
  function PalmCentre(pts: seq<Vec3>): (r: Vec3)
    requires |pts| == LandmarkCount
    ensures (pts[IndexBase] == pts[Wrist] && pts[MiddleBase] == pts[Wrist] && pts[RingBase] == pts[Wrist]
             && pts[PinkyBase] == pts[Wrist]) ==> r == pts[Wrist]
  {
    Scale(0.2, Add(Add(Add(Add(pts[Wrist], pts[IndexBase]), pts[MiddleBase]), pts[RingBase]), pts[PinkyBase]))
  }

  function Translate(pts: seq<Vec3>, v: Vec3): (r: seq<Vec3>)
    ensures |r| == |pts|
  {
    seq(|pts|, i requires 0 <= i < |pts| => Add(pts[i], v))
  }

  /** Moving the whole hand moves the palm centre by the same vector; a hand collapsed to a point has its centre there. */
  lemma PalmCentreFollowsHand(pts: seq<Vec3>, v: Vec3)
    requires |pts| == LandmarkCount
    ensures PalmCentre(Translate(pts, v)) == Add(PalmCentre(pts), v)
    ensures (forall i :: 0 <= i < |pts| ==> pts[i] == v) ==> PalmCentre(pts) == v
  {
  }

  /** `updatePalmSphere`: a facing palm shows the sphere at the palm centre, otherwise the sphere is hidden where it was. */
  function UpdatedPalmSphere(sphere: PalmSphere, pts: seq<Vec3>, isFacing: bool): (r: PalmSphere)
    requires |pts| == LandmarkCount
    ensures r.visible == isFacing
    ensures isFacing ==> r.position == PalmCentre(pts)
    ensures !isFacing ==> r.position == sphere.position
  {
    if isFacing then PalmSphere(true, PalmCentre(pts)) else sphere.(visible := false)
  }

  // ---------------------------------------------------------------- the UI panel

  /**
   * `updateUIPanel`: with no panel nothing happens; otherwise a facing frame
   * extends the facing streak and clears the other, shows the panel once the
   * streak reaches 5 (moving it toward wrist + offset), and a non-facing frame
   * does the converse, hiding the panel once its streak reaches 15.
   */
  function UIPanelStep(s: TrackerState, wrist: Vec3, isFacing: bool): (r: TrackerState)
    ensures s.panel.None? ==> r == s
    ensures r.panel.Some? == s.panel.Some?
    ensures s.panel.Some? ==> r.facingTrue == 0 || r.facingFalse == 0
    ensures s.panel.Some? && isFacing ==> r.facingTrue == s.facingTrue + 1 && r.facingFalse == 0
    ensures s.panel.Some? && !isFacing ==> r.facingFalse == s.facingFalse + 1 && r.facingTrue == 0
    ensures r.panel.Some? && r.panel.value.visible && !s.panel.value.visible ==> r.facingTrue >= FacingTrueThreshold
    ensures r.panel.Some? && !r.panel.value.visible && s.panel.value.visible ==> r.facingFalse >= FacingFalseThreshold
    ensures s.panel.Some? && !isFacing && r.facingFalse >= FacingFalseThreshold ==> !r.panel.value.visible
    ensures s.panel.Some? && isFacing && r.facingTrue >= FacingTrueThreshold ==>
      r.uiPosition == Lerp(s.uiPosition, Add(wrist, UIPanelOffset), EmaAlpha) && r.panel == Some(Panel(true, r.uiPosition))
    ensures !(s.panel.Some? && isFacing && r.facingTrue >= FacingTrueThreshold) ==>
      r.uiPosition == s.uiPosition && (r.panel.Some? ==> r.panel.value.position == s.panel.value.position)
    ensures r.smoothed == s.smoothed && r.palms == s.palms && r.pinching == s.pinching
    ensures r.uiActive == s.uiActive && r.calls == s.calls
  {
    match s.panel
    case None => s
    case Some(panel) =>
      if isFacing then
        var t := s.facingTrue + 1;
        if t >= FacingTrueThreshold then
          var p := Lerp(s.uiPosition, Add(wrist, UIPanelOffset), EmaAlpha);
          s.(facingTrue := t, facingFalse := 0, uiPosition := p, panel := Some(Panel(true, p)))
        else s.(facingTrue := t, facingFalse := 0)
      else
        var f := s.facingFalse + 1;
        s.(facingTrue := 0, facingFalse := f,
           panel := if f >= FacingFalseThreshold then Some(panel.(visible := false)) else s.panel)
  }

  // ---------------------------------------------------------------- one frame

  /** The start of `predictWebcam`: the palm spheres of the first two slots and the panel hidden, `isUIActive` reset. */
  function FrameStart(s: TrackerState): (r: TrackerState)
    ensures |r.palms| == |s.palms|
    ensures forall i :: 0 <= i < |r.palms| ==> r.palms[i] == if i < NumHands then s.palms[i].(visible := false) else s.palms[i]
    ensures r.panel.Some? == s.panel.Some? && (r.panel.Some? ==> !r.panel.value.visible)
    ensures !r.uiActive
    ensures r.smoothed == s.smoothed && r.pinching == s.pinching && r.calls == s.calls
    ensures r.facingTrue == s.facingTrue && r.facingFalse == s.facingFalse && r.uiPosition == s.uiPosition
  {
    s.(palms := HiddenPalms(s.palms, NumHands),
       panel := if s.panel.Some? then Some(s.panel.value.(visible := false)) else None,
       uiActive := false)
  }

  /** The palm spheres with the first `n` hidden. */
  function HiddenPalms(palms: seq<PalmSphere>, n: nat): (r: seq<PalmSphere>)
    ensures |r| == |palms|
  {
    seq(|palms|, i requires 0 <= i < |palms| => if i < n then palms[i].(visible := false) else palms[i])
  }

  /** What the loop body works out about a hand before acting on it. */
  datatype Reading = Reading(pinchingNow: bool, points: seq<Vec3>, facing: bool)

  /**
   * For a hand whose slot holds `pts`: the pinch verdict on the raw landmarks,
   * the slot's landmarks after this frame's smoothing, and the facing verdict on them.
   */
  function ReadHand(pts: seq<Vec3>, hand: DetectedHand, width: real, height: real, cfg: HandConfig): (r: Reading)
    requires |pts| == LandmarkCount && |hand.landmarks| == LandmarkCount
    ensures |r.points| == LandmarkCount
  {
    var p := SmoothedHand(pts, hand.landmarks, cfg);
    Reading(IsPinching2D(hand.landmarks, width, height, DefaultPinchThreshold), p, IsPalmFacing(p, hand.handedness))
  }

  /** The edge-detector call for a hand, if any: START carries the `isUIActive` of the hands before it. */
  function EdgeCalls(h: nat, handedness: Handedness, wasPinching: bool, pinchingNow: bool, uiActive: bool): (r: seq<Call>)
    ensures |r| <= 1 && forall i :: 0 <= i < |r| ==> r[i].hand == h
  {
    match EdgeStep(wasPinching, pinchingNow).1
    case Some(Start) => [PinchStartCall(h, handedness, uiActive)]
    case Some(End) => [PinchEndCall(h)]
    case None => []
  }

  /**
   * The pinch edge detector for hand `h`: the flag takes the verdict and the START or
   * END call, if any, is made. The source stores the flag before calling; the recorded
   * call does not carry it, since what the callbacks read is not part of this model.
   */
  function EdgeUpdate(s: TrackerState, h: nat, handedness: Handedness, now: bool): TrackerState
    requires h < |s.pinching|
  {
    s.(pinching := s.pinching[h := EdgeStep(s.pinching[h], now).0],
       calls := s.calls + EdgeCalls(h, handedness, s.pinching[h], now, s.uiActive))
  }

  /** The palm sphere of slot `h`, and for a 'Left' hand the panel and `isUIActive`, follow the facing verdict. */
  function FacingUpdate(s: TrackerState, h: nat, handedness: Handedness, pts: seq<Vec3>, facing: bool): TrackerState
    requires h < |s.palms| && |pts| == LandmarkCount
  {
    var s1 := s.(palms := s.palms[h := UpdatedPalmSphere(s.palms[h], pts, facing)]);
    if handedness == Left then UIPanelStep(s1, pts[Wrist], facing).(uiActive := facing) else s1
  }

  /** The raycast call for hand `h`, with the current `isUIActive`. */
  function RaycastUpdate(s: TrackerState, h: nat, handedness: Handedness): TrackerState {
    s.(calls := s.calls + [RaycastCall(h, handedness, s.uiActive)])
  }

  /**
   * The loop body of `predictWebcam` for hand `h`, whose slot exists, given its reading:
   * the edge detector, the smoothed landmarks stored, the palm sphere and, for a 'Left'
   * hand, the panel and `isUIActive`, and finally the raycast.
   */
  function HandStep(s: TrackerState, handedness: Handedness, h: nat, rd: Reading): (r: TrackerState)
    requires WellFormed(s) && h < |s.smoothed| && h < NumHands && |rd.points| == LandmarkCount
    ensures WellFormed(r) && |r.smoothed| == |s.smoothed|
    ensures r.pinching == s.pinching[h := rd.pinchingNow] && r.smoothed == s.smoothed[h := rd.points]
    ensures r.uiActive == if handedness == Left then rd.facing else s.uiActive
    ensures r.palms == s.palms[h := UpdatedPalmSphere(s.palms[h], rd.points, rd.facing)]
  {
    var s1 := EdgeUpdate(s, h, handedness, rd.pinchingNow);
    var s2 := s1.(smoothed := s1.smoothed[h := rd.points]);
    RaycastUpdate(FacingUpdate(s2, h, handedness, rd.points, rd.facing), h, handedness)
  }

  /** The hands that are processed: those with an index below both the detection count and the number of slots. */
  function ProcessedCount(s: TrackerState, hands: seq<DetectedHand>): nat {
    if |hands| <= |s.smoothed| then |hands| else |s.smoothed|
  }

  /** One reading per processed hand. */
  predicate ReadingsFit(s: TrackerState, hands: seq<DetectedHand>, rds: seq<Reading>) {
    |rds| == ProcessedCount(s, hands) && forall i :: 0 <= i < |rds| ==> |rds[i].points| == LandmarkCount
  }

  /** The first `n` detected hands processed in index order with their readings; a hand with no slot is skipped. */
  function ProcessHands(s: TrackerState, hands: seq<DetectedHand>, rds: seq<Reading>, n: nat): (r: TrackerState)
    requires WellFormed(s) && ValidDetection(hands) && ReadingsFit(s, hands, rds) && n <= |hands|
    ensures WellFormed(r) && |r.smoothed| == |s.smoothed|
  {
    if n == 0 then s
    else
      var prev := ProcessHands(s, hands, rds, n - 1);
      if n - 1 < |prev.smoothed| then HandStep(prev, hands[n - 1].handedness, n - 1, rds[n - 1]) else prev
  }

  /** Each processed hand read from its slot as the frame found it. */
  function FrameReadings(s: TrackerState, hands: seq<DetectedHand>, width: real, height: real, cfg: HandConfig): (r: seq<Reading>)
    requires WellFormed(s) && ValidDetection(hands)
    ensures ReadingsFit(s, hands, r)
  {
    seq(ProcessedCount(s, hands), i requires 0 <= i < ProcessedCount(s, hands) =>
      ReadHand(s.smoothed[i], hands[i], width, height, cfg))
  }

  /** One whole frame of `predictWebcam` with the detector's result `hands`. */
  function Frame(s: TrackerState, hands: seq<DetectedHand>, width: real, height: real, cfg: HandConfig): (r: TrackerState)
    requires WellFormed(s) && ValidDetection(hands)
    ensures WellFormed(r) && |r.smoothed| == |s.smoothed|
  {
    ProcessHands(FrameStart(s), hands, FrameReadings(s, hands, width, height, cfg), |hands|)
  }

  // ---------------------------------------------------------------- set-up and clean-up

  /** The state when the module is loaded: no hand slots, no panel, both hands released. */
  const InitialState: TrackerState :=
    TrackerState([], [], [false, false], 0, 0, false, None, Origin, [])

  /** `setupHandTracking`: two more hand slots, smoothed points at the origin and spheres hidden, and a hidden panel. */
  function Setup(s: TrackerState): (r: TrackerState)
    requires WellFormed(s)
    ensures WellFormed(r)
    ensures |r.smoothed| == |s.smoothed| + NumHands && r.smoothed[..|s.smoothed|] == s.smoothed
    ensures forall i, j :: |s.smoothed| <= i < |r.smoothed| && 0 <= j < LandmarkCount ==> r.smoothed[i][j] == Origin
    ensures r.panel == Some(Panel(false, Origin))
  {
    var hand := seq(LandmarkCount, _ => Origin);
    var sphere := PalmSphere(false, Origin);
    s.(smoothed := s.smoothed + [hand, hand], palms := s.palms + [sphere, sphere], panel := Some(Panel(false, Origin)))
  }

  /** `cleanupHandTracking`. */
  function Cleanup(s: TrackerState): (r: TrackerState)
    ensures WellFormed(s) ==> WellFormed(r)
    ensures r.smoothed == [] && r.palms == [] && r.panel == None && !r.uiActive
    ensures r.pinching == s.pinching && r.calls == s.calls
  {
    s.(smoothed := [], palms := [], facingTrue := 0, facingFalse := 0, uiActive := false, panel := None, uiPosition := Origin)
  }

  /**
   * Clean-up empties the per-hand arrays, zeroes both counters, clears `isUIActive`,
   * drops the panel and returns its smoothed position to the origin; it leaves the
   * pinch flags alone, so a frame after it skips every hand and makes no call.
   */
  lemma CleanupResetsTracking(s: TrackerState, hands: seq<DetectedHand>, width: real, height: real, cfg: HandConfig)
    requires WellFormed(s) && ValidDetection(hands)
    ensures var c := Cleanup(s);
      && WellFormed(c) && c.smoothed == [] && c.palms == [] && c.facingTrue == 0 && c.facingFalse == 0
      && !c.uiActive && c.panel == None && c.uiPosition == Origin && c.pinching == s.pinching
    ensures Frame(Cleanup(s), hands, width, height, cfg) == FrameStart(Cleanup(s))
  {
    var start := FrameStart(Cleanup(s));
    var rds := FrameReadings(Cleanup(s), hands, width, height, cfg);
    SkipsWithoutSlots(start, hands, rds, |hands|);
  }

  lemma {:induction false} SkipsWithoutSlots(s: TrackerState, hands: seq<DetectedHand>, rds: seq<Reading>, n: nat)
    requires WellFormed(s) && ValidDetection(hands) && ReadingsFit(s, hands, rds) && n <= |hands| && s.smoothed == []
    ensures ProcessHands(s, hands, rds, n) == s
  {
    if n > 0 {
      SkipsWithoutSlots(s, hands, rds, n - 1);
    }
  }

  // ---------------------------------------------------------------- what a frame does, hand by hand

  /** Hand slot `k` is processed in a frame when the detector reported hand `k` and the slot exists. */
  predicate Processed(s: TrackerState, hands: seq<DetectedHand>, n: nat, k: nat) {
    k < n && k < |hands| && k < |s.smoothed|
  }

  /** One hand step appends the hand's edge call, if any, and then its raycast carrying the `isUIActive` it leaves. */
  lemma HandStepEffect(s: TrackerState, handedness: Handedness, h: nat, rd: Reading)
    requires WellFormed(s) && h < |s.smoothed| && h < NumHands && |rd.points| == LandmarkCount
    ensures var r := HandStep(s, handedness, h, rd);
      r.calls == s.calls + EdgeCalls(h, handedness, s.pinching[h], rd.pinchingNow, s.uiActive)
                         + [RaycastCall(h, handedness, r.uiActive)]
  {
  }

  /** One hand step, seen from the panel: a 'Right' hand leaves it and its counters alone, and after a 'Left' hand a panel hidden before is visible exactly when the facing streak has reached 5. */
  lemma StepPanel(s: TrackerState, handedness: Handedness, h: nat, rd: Reading)
    requires WellFormed(s) && h < |s.smoothed| && h < NumHands && |rd.points| == LandmarkCount
    ensures var r := HandStep(s, handedness, h, rd);
      && r.panel.Some? == s.panel.Some?
      && (handedness == Right ==> r.panel == s.panel && r.facingTrue == s.facingTrue && r.facingFalse == s.facingFalse)
      && (handedness == Left && s.panel.Some? && !s.panel.value.visible ==>
            (r.panel.value.visible <==> r.facingTrue >= FacingTrueThreshold))
  {
  }

  /** Over the first `n` hands a processed slot ends with its reading's pinch verdict; any other slot keeps its flag. */
  lemma {:induction false} ProcessHandsSlotPinch(s: TrackerState, hands: seq<DetectedHand>, rds: seq<Reading>, n: nat, k: nat)
    requires WellFormed(s) && ValidDetection(hands) && ReadingsFit(s, hands, rds) && n <= |hands| && k < NumHands
    ensures ProcessHands(s, hands, rds, n).pinching[k] == if Processed(s, hands, n, k) then rds[k].pinchingNow else s.pinching[k]
  {
    if n > 0 {
      ProcessHandsSlotPinch(s, hands, rds, n - 1, k);
    }
  }

  /** Over the first `n` hands a processed slot's palm sphere follows its reading's facing verdict; any other slot keeps its sphere. */
  lemma {:induction false} ProcessHandsSlotPalm(s: TrackerState, hands: seq<DetectedHand>, rds: seq<Reading>, n: nat, k: nat)
    requires WellFormed(s) && ValidDetection(hands) && ReadingsFit(s, hands, rds) && n <= |hands| && k < |s.palms|
    ensures ProcessHands(s, hands, rds, n).palms[k]
         == if Processed(s, hands, n, k) then UpdatedPalmSphere(s.palms[k], rds[k].points, rds[k].facing) else s.palms[k]
  {
    if n > 0 {
      ProcessHandsSlotPalm(s, hands, rds, n - 1, k);
    }
  }

  /** Over the first `n` hands a processed slot ends with its reading's landmarks; any other slot keeps its points. */
  lemma {:induction false} ProcessHandsSlotPoints(s: TrackerState, hands: seq<DetectedHand>, rds: seq<Reading>, n: nat, k: nat)
    requires WellFormed(s) && ValidDetection(hands) && ReadingsFit(s, hands, rds) && n <= |hands| && k < |s.smoothed|
    ensures ProcessHands(s, hands, rds, n).smoothed[k] == if Processed(s, hands, n, k) then rds[k].points else s.smoothed[k]
  {
    if n > 0 {
      ProcessHandsSlotPoints(s, hands, rds, n - 1, k);
    }
  }

  /** Both halves of a slot's state after the first `n` hands. */
  lemma ProcessHandsSlotState(s: TrackerState, hands: seq<DetectedHand>, rds: seq<Reading>, n: nat, k: nat)
    requires WellFormed(s) && ValidDetection(hands) && ReadingsFit(s, hands, rds) && n <= |hands| && k < NumHands
    ensures var r := ProcessHands(s, hands, rds, n);
      && (Processed(s, hands, n, k) ==> r.pinching[k] == rds[k].pinchingNow && r.smoothed[k] == rds[k].points)
      && (!Processed(s, hands, n, k) ==> r.pinching[k] == s.pinching[k] && (k < |s.smoothed| ==> r.smoothed[k] == s.smoothed[k]))
  {
    ProcessHandsSlotPinch(s, hands, rds, n, k);
    if k < |s.smoothed| {
      ProcessHandsSlotPoints(s, hands, rds, n, k);
    }
  }

  /** The last processed hand labelled 'Left' among the first `n`, if any. */
  function LastLeft(hands: seq<DetectedHand>, n: nat, slots: nat): (r: Option<nat>)
    requires n <= |hands|
    ensures r.Some? ==> r.value < n && r.value < slots && hands[r.value].handedness == Left
  {
    if n == 0 then None
    else if n - 1 < slots && hands[n - 1].handedness == Left then Some(n - 1)
    else LastLeft(hands, n - 1, slots)
  }

  /** The `isUIActive` reached after the first `n` hands: the facing reading of the last 'Left' hand among them, else the value before them. */
  function UIAfter(s: TrackerState, hands: seq<DetectedHand>, rds: seq<Reading>, n: nat): bool
    requires |rds| == ProcessedCount(s, hands) && n <= |hands|
  {
    match LastLeft(hands, n, |s.smoothed|)
    case None => s.uiActive
    case Some(j) => rds[j].facing
  }

  lemma {:induction false} UIActiveIsLastLeftVerdict(s: TrackerState, hands: seq<DetectedHand>, rds: seq<Reading>, n: nat)
    requires WellFormed(s) && ValidDetection(hands) && ReadingsFit(s, hands, rds) && n <= |hands|
    ensures ProcessHands(s, hands, rds, n).uiActive == UIAfter(s, hands, rds, n)
  {
    if n > 0 {
      UIActiveIsLastLeftVerdict(s, hands, rds, n - 1);
      var prev := ProcessHands(s, hands, rds, n - 1);
      if n - 1 < |prev.smoothed| {
        HandStepEffect(prev, hands[n - 1].handedness, n - 1, rds[n - 1]);
      }
    }
  }

  /**
   * The calls made on behalf of slot `k` over the first `n` hands: if it is processed,
   * its edge call (START carrying `isUIActive` as the hands before it left it) and then
   * its raycast (carrying `isUIActive` after it); otherwise none.
   */
  function SlotLog(s: TrackerState, hands: seq<DetectedHand>, rds: seq<Reading>, n: nat, k: nat): seq<Call>
    requires k < |s.pinching| && |rds| == ProcessedCount(s, hands) && n <= |hands|
  {
    if Processed(s, hands, n, k) then
      EdgeCalls(k, hands[k].handedness, s.pinching[k], rds[k].pinchingNow, UIAfter(s, hands, rds, k))
      + [RaycastCall(k, hands[k].handedness, UIAfter(s, hands, rds, k + 1))]
    else []
  }

  /** Processing hand `n - 1`, when it has a slot, appends exactly that slot's calls. */
  lemma LogStep(s: TrackerState, hands: seq<DetectedHand>, rds: seq<Reading>, n: nat)
    requires WellFormed(s) && ValidDetection(hands) && ReadingsFit(s, hands, rds) && 0 < n <= |hands| && n - 1 < |s.smoothed|
    ensures ProcessHands(s, hands, rds, n).calls == ProcessHands(s, hands, rds, n - 1).calls + SlotLog(s, hands, rds, n, n - 1)
  {
    var h := n - 1;
    HandStepEffect(ProcessHands(s, hands, rds, h), hands[h].handedness, h, rds[h]);
    ProcessHandsSlotState(s, hands, rds, h, h);
    UIActiveIsLastLeftVerdict(s, hands, rds, h);
    UIActiveIsLastLeftVerdict(s, hands, rds, n);
  }

  /** Over the first `n` hands the log grows by slot 0's calls followed by slot 1's. */
  lemma {:induction false} ProcessHandsLog(s: TrackerState, hands: seq<DetectedHand>, rds: seq<Reading>, n: nat)
    requires WellFormed(s) && ValidDetection(hands) && ReadingsFit(s, hands, rds) && n <= |hands|
    ensures ProcessHands(s, hands, rds, n).calls == s.calls + SlotLog(s, hands, rds, n, 0) + SlotLog(s, hands, rds, n, 1)
  {
    if n > 0 {
      ProcessHandsLog(s, hands, rds, n - 1);
      if n - 1 < |s.smoothed| {
        LogStep(s, hands, rds, n);
        if n == 1 {
          assert SlotLog(s, hands, rds, 0, 0) == [] && SlotLog(s, hands, rds, 0, 1) == [] && SlotLog(s, hands, rds, 1, 1) == [];
        } else {
          assert SlotLog(s, hands, rds, 1, 1) == [] && SlotLog(s, hands, rds, 2, 0) == SlotLog(s, hands, rds, 1, 0);
        }
      }
    }
  }

  /** The `isUIActive` a frame has reached after its first `n` hands: the facing verdict of the last 'Left' hand among them, else false. */
  function UIVerdict(s: TrackerState, hands: seq<DetectedHand>, n: nat, width: real, height: real, cfg: HandConfig): bool
    requires WellFormed(s) && ValidDetection(hands) && n <= |hands|
  {
    match LastLeft(hands, n, |s.smoothed|)
    case None => false
    case Some(j) => ReadHand(s.smoothed[j], hands[j], width, height, cfg).facing
  }

  /**
   * The fold is the source's loop: when the loop reaches a hand with a slot, the hands
   * before it have left that slot as the frame found it, so reading the slot then gives
   * the frame's reading, and the step is `HandStep` with it; a hand without a slot
   * changes nothing.
   */
  lemma FrameLoopStep(s: TrackerState, hands: seq<DetectedHand>, width: real, height: real, cfg: HandConfig, i: nat)
    requires WellFormed(s) && ValidDetection(hands) && i < |hands|
    ensures var rds := FrameReadings(s, hands, width, height, cfg);
      var cur := ProcessHands(FrameStart(s), hands, rds, i);
      var next := ProcessHands(FrameStart(s), hands, rds, i + 1);
      && (i < |s.smoothed| ==>
            && cur.smoothed[i] == s.smoothed[i]
            && next == HandStep(cur, hands[i].handedness, i, ReadHand(cur.smoothed[i], hands[i], width, height, cfg)))
      && (i >= |s.smoothed| ==> next == cur)
  {
    var rds := FrameReadings(s, hands, width, height, cfg);
    if i < |s.smoothed| {
      ProcessHandsSlotState(FrameStart(s), hands, rds, i, i);
    }
  }

  /**
   * A whole frame, seen from hand slot `k`: a processed hand's pinch flag becomes the
   * current verdict, its landmarks move one smoothing step and its palm sphere is shown
   * at the palm centre exactly when the smoothed palm faces the camera; a hand the
   * detector did not report keeps flag and landmarks, and its sphere is hidden.
   */
  lemma FrameSlotState(s: TrackerState, hands: seq<DetectedHand>, width: real, height: real, cfg: HandConfig, k: nat)
    requires WellFormed(s) && ValidDetection(hands) && k < NumHands
    ensures var r := Frame(s, hands, width, height, cfg);
      && (Processed(s, hands, |hands|, k) ==>
            && r.pinching[k] == IsPinching2D(hands[k].landmarks, width, height, DefaultPinchThreshold)
            && r.smoothed[k] == SmoothedHand(s.smoothed[k], hands[k].landmarks, cfg)
            && r.palms[k].visible == IsPalmFacing(r.smoothed[k], hands[k].handedness)
            && (r.palms[k].visible ==> r.palms[k].position == PalmCentre(r.smoothed[k]))
            && (!r.palms[k].visible ==> r.palms[k].position == s.palms[k].position))
      && (!Processed(s, hands, |hands|, k) ==>
            && r.pinching[k] == s.pinching[k]
            && (k < |s.smoothed| ==> r.smoothed[k] == s.smoothed[k] && r.palms[k] == s.palms[k].(visible := false)))
  {
    var rds := FrameReadings(s, hands, width, height, cfg);
    ProcessHandsSlotState(FrameStart(s), hands, rds, |hands|, k);
    if k < |s.palms| {
      ProcessHandsSlotPalm(FrameStart(s), hands, rds, |hands|, k);
    }
  }

  /**
   * What a frame calls on behalf of hand `k`: nothing unless it is processed; otherwise
   * START exactly on a released-to-pinched change and END exactly on the converse, each
   * at most once, then one raycast. START carries the `isUIActive` of the hands before
   * it, the raycast that of the hands up to and including it.
   */
  function HandCalls(s: TrackerState, hands: seq<DetectedHand>, k: nat, width: real, height: real, cfg: HandConfig): seq<Call>
    requires WellFormed(s) && ValidDetection(hands) && k < NumHands
  {
    if Processed(s, hands, |hands|, k) then
      var now := IsPinching2D(hands[k].landmarks, width, height, DefaultPinchThreshold);
      (if now && !s.pinching[k] then [PinchStartCall(k, hands[k].handedness, UIVerdict(s, hands, k, width, height, cfg))]
       else if !now && s.pinching[k] then [PinchEndCall(k)]
       else [])
      + [RaycastCall(k, hands[k].handedness, UIVerdict(s, hands, k + 1, width, height, cfg))]
    else []
  }

  /** With the frame's own readings, slot `k`'s share of the fold's log is `HandCalls`. */
  lemma SlotLogIsHandCalls(s: TrackerState, hands: seq<DetectedHand>, width: real, height: real, cfg: HandConfig, k: nat)
    requires WellFormed(s) && ValidDetection(hands) && k < NumHands
    ensures SlotLog(FrameStart(s), hands, FrameReadings(s, hands, width, height, cfg), |hands|, k)
         == HandCalls(s, hands, k, width, height, cfg)
  {
    var start := FrameStart(s);
    var rds := FrameReadings(s, hands, width, height, cfg);
    if Processed(s, hands, |hands|, k) {
      assert UIAfter(start, hands, rds, k) == UIVerdict(s, hands, k, width, height, cfg);
      assert UIAfter(start, hands, rds, k + 1) == UIVerdict(s, hands, k + 1, width, height, cfg);
    }
  }

  /** A frame appends hand 0's calls and then hand 1's to the log, and nothing else. */
  lemma FrameCalls(s: TrackerState, hands: seq<DetectedHand>, width: real, height: real, cfg: HandConfig)
    requires WellFormed(s) && ValidDetection(hands)
    ensures Frame(s, hands, width, height, cfg).calls
         == s.calls + HandCalls(s, hands, 0, width, height, cfg) + HandCalls(s, hands, 1, width, height, cfg)
  {
    ProcessHandsLog(FrameStart(s), hands, FrameReadings(s, hands, width, height, cfg), |hands|);
    SlotLogIsHandCalls(s, hands, width, height, cfg, 0);
    SlotLogIsHandCalls(s, hands, width, height, cfg, 1);
  }

  /** Hands processed among the first `n` that are labelled 'Left'. */
  function LeftCount(hands: seq<DetectedHand>, n: nat, slots: nat): nat
    requires n <= |hands|
  {
    if n == 0 then 0
    else LeftCount(hands, n - 1, slots) + (if n - 1 < slots && hands[n - 1].handedness == Left then 1 else 0)
  }

  /** No hand creates or removes the panel. */
  lemma {:induction false} PanelPresenceKept(s: TrackerState, hands: seq<DetectedHand>, rds: seq<Reading>, n: nat)
    requires WellFormed(s) && ValidDetection(hands) && ReadingsFit(s, hands, rds) && n <= |hands|
    ensures ProcessHands(s, hands, rds, n).panel.Some? == s.panel.Some?
  {
    if n > 0 {
      PanelPresenceKept(s, hands, rds, n - 1);
      var prev := ProcessHands(s, hands, rds, n - 1);
      if n - 1 < |prev.smoothed| {
        StepPanel(prev, hands[n - 1].handedness, n - 1, rds[n - 1]);
      }
    }
  }

  /** Without a processed 'Left' hand the panel and its facing counters are left alone. */
  lemma {:induction false} PanelUntouchedWithoutLeft(s: TrackerState, hands: seq<DetectedHand>, rds: seq<Reading>, n: nat)
    requires WellFormed(s) && ValidDetection(hands) && ReadingsFit(s, hands, rds) && n <= |hands|
    requires LeftCount(hands, n, |s.smoothed|) == 0
    ensures var r := ProcessHands(s, hands, rds, n);
      r.panel == s.panel && r.facingTrue == s.facingTrue && r.facingFalse == s.facingFalse
  {
    if n > 0 {
      PanelUntouchedWithoutLeft(s, hands, rds, n - 1);
      var prev := ProcessHands(s, hands, rds, n - 1);
      if n - 1 < |prev.smoothed| {
        StepPanel(prev, hands[n - 1].handedness, n - 1, rds[n - 1]);
      }
    }
  }

  /** Starting from a hidden panel, one processed 'Left' hand leaves it visible exactly when the facing streak has reached 5. */
  lemma {:induction false} PanelAfterOneLeft(s: TrackerState, hands: seq<DetectedHand>, rds: seq<Reading>, n: nat)
    requires WellFormed(s) && ValidDetection(hands) && ReadingsFit(s, hands, rds) && n <= |hands|
    requires s.panel.Some? && !s.panel.value.visible
    requires LeftCount(hands, n, |s.smoothed|) == 1
    ensures var r := ProcessHands(s, hands, rds, n);
      r.panel.Some? && (r.panel.value.visible <==> r.facingTrue >= FacingTrueThreshold)
  {
    var prev := ProcessHands(s, hands, rds, n - 1);
    PanelPresenceKept(s, hands, rds, n - 1);
    if n - 1 < |s.smoothed| && hands[n - 1].handedness == Left {
      PanelUntouchedWithoutLeft(s, hands, rds, n - 1);
      StepPanel(prev, Left, n - 1, rds[n - 1]);
    } else {
      PanelAfterOneLeft(s, hands, rds, n - 1);
      if n - 1 < |prev.smoothed| {
        StepPanel(prev, hands[n - 1].handedness, n - 1, rds[n - 1]);
      }
    }
  }

  /**
   * Because `predictWebcam` hides the panel before any hand is looked at, a frame
   * without a 'Left' hand ends with the panel hidden and the counters untouched, and
   * a frame with one 'Left' hand ends with the panel visible exactly when the facing
   * streak has reached 5. The hide delay of 15 frames therefore never keeps the
   * panel up from one frame to the next.
   */
  lemma PanelVisibleOnlyOnFacingStreak(s: TrackerState, hands: seq<DetectedHand>, width: real, height: real, cfg: HandConfig)
    requires WellFormed(s) && ValidDetection(hands)
    ensures var r := Frame(s, hands, width, height, cfg);
      && r.panel.Some? == s.panel.Some?
      && (LeftCount(hands, |hands|, |s.smoothed|) == 0 ==>
            (r.panel.Some? ==> !r.panel.value.visible) && r.facingTrue == s.facingTrue && r.facingFalse == s.facingFalse)
      && (LeftCount(hands, |hands|, |s.smoothed|) == 1 ==>
            (r.panel.Some? && r.panel.value.visible <==> r.panel.Some? && r.facingTrue >= FacingTrueThreshold))
  {
    var start := FrameStart(s);
    var rds := FrameReadings(s, hands, width, height, cfg);
    PanelPresenceKept(start, hands, rds, |hands|);
    if LeftCount(hands, |hands|, |s.smoothed|) == 0 {
      PanelUntouchedWithoutLeft(start, hands, rds, |hands|);
    } else if LeftCount(hands, |hands|, |s.smoothed|) == 1 && s.panel.Some? {
      PanelAfterOneLeft(start, hands, rds, |hands|);
    }
  }

  /**
   * Nothing stops the detector from labelling both hands 'Left', and then the
   * property above fails: a facing first hand at streak 4 shows the panel, and a
   * non-facing second hand resets the streak without reaching the hide delay, so
   * the frame ends with the panel visible and a facing streak of 0.
   */
  lemma TwoLeftHandsCanLeavePanelVisibleWithZeroStreak(s: TrackerState, hands: seq<DetectedHand>, rds: seq<Reading>)
    requires WellFormed(s) && |s.smoothed| == NumHands && s.panel.Some? && !s.panel.value.visible
    requires s.facingTrue == FacingTrueThreshold - 1
    requires ValidDetection(hands) && |hands| == 2 && hands[0].handedness == Left && hands[1].handedness == Left
    requires ReadingsFit(s, hands, rds) && rds[0].facing && !rds[1].facing
    ensures var r := ProcessHands(s, hands, rds, 2);
      && LeftCount(hands, 2, |s.smoothed|) == 2
      && r.panel.Some? && r.panel.value.visible && r.facingTrue == 0 && r.facingFalse == 1
  {
    assert ProcessHands(s, hands, rds, 0) == s;
    var first := HandStep(s, Left, 0, rds[0]);
    assert ProcessHands(s, hands, rds, 1) == first;
    LeftStepCounters(s, 0, rds[0]);
    LeftStepCounters(first, 1, rds[1]);
    assert ProcessHands(s, hands, rds, 2) == HandStep(first, Left, 1, rds[1]);
    assert LeftCount(hands, 1, |s.smoothed|) == 1;
  }

  /** A 'Left' hand step moves the facing counters as `updateUIPanel` does: showing at a streak of 5, hiding only at 15. */
  lemma LeftStepCounters(s: TrackerState, h: nat, rd: Reading)
    requires WellFormed(s) && h < |s.smoothed| && h < NumHands && |rd.points| == LandmarkCount && s.panel.Some?
    ensures var r := HandStep(s, Left, h, rd);
      && r.panel.Some?
      && (rd.facing ==> r.facingTrue == s.facingTrue + 1 && r.facingFalse == 0
                        && (r.facingTrue >= FacingTrueThreshold ==> r.panel.value.visible))
      && (!rd.facing ==> r.facingTrue == 0 && r.facingFalse == s.facingFalse + 1
                         && (r.facingFalse < FacingFalseThreshold ==> r.panel == s.panel)
                         && (r.facingFalse >= FacingFalseThreshold ==> !r.panel.value.visible))
  {
    var s1 := EdgeUpdate(s, h, Left, rd.pinchingNow);
    var s2 := s1.(smoothed := s1.smoothed[h := rd.points]);
    var s3 := s2.(palms := s2.palms[h := UpdatedPalmSphere(s2.palms[h], rd.points, rd.facing)]);
    assert HandStep(s, Left, h, rd) == RaycastUpdate(UIPanelStep(s3, rd.points[Wrist], rd.facing).(uiActive := rd.facing), h, Left);
  }

  // ---------------------------------------------------------------- the module state, updated in place

  /**
   * The module state of handTracking.js. `smoothedLandmarksPerHand` is one array of
   * 21 points per hand slot, smoothed in place; the ghost `Smoothed` mirrors the
   * arrays' contents. Every method is proved to move `State()` exactly as the
   * functions above say.
   */
  class HandTracker {
    var slots: seq<array<Vec3>>
    ghost var Smoothed: seq<seq<Vec3>>
    var palms: seq<PalmSphere>
    var pinching: seq<bool>
    var facingTrue: nat
    var facingFalse: nat
    var uiActive: bool
    var panel: Option<Panel>
    var uiPosition: Vec3
    var calls: seq<Call>

    ghost predicate Valid()
      reads this, slots
    {
      && |Smoothed| == |slots|
      && (forall i :: 0 <= i < |slots| ==> slots[i][..] == Smoothed[i])
      && (forall i, j :: 0 <= i < j < |slots| ==> slots[i] != slots[j])
      && WellFormed(State())
    }

    ghost function State(): TrackerState
      reads this
    {
      TrackerState(Smoothed, palms, pinching, facingTrue, facingFalse, uiActive, panel, uiPosition, calls)
    }

    /** The state when the module is loaded. */
    constructor()
      ensures Valid() && State() == InitialState && slots == []
    {
      slots := [];
      Smoothed := [];
      palms := [];
      pinching := [false, false];
      facingTrue := 0;
      facingFalse := 0;
      uiActive := false;
      panel := None;
      uiPosition := Origin;
      calls := [];
    }

    /** `setupHandTracking`: a hidden panel and two fresh hand slots with every point at the origin. */
    method SetupHandTracking()
      requires Valid()
      modifies this
      ensures Valid() && State() == Setup(old(State()))
      ensures |slots| == |old(slots)| + NumHands && slots[..|old(slots)|] == old(slots)
      ensures forall i :: |old(slots)| <= i < |slots| ==> fresh(slots[i])
    {
      ghost var s := State();
      var a := new Vec3[LandmarkCount](_ => Origin);
      var b := new Vec3[LandmarkCount](_ => Origin);
      ghost var hand := seq(LandmarkCount, _ => Origin);
      assert a[..] == hand && b[..] == hand;
      AddSlots(a, b);
      panel := Some(Panel(false, Origin));
      assert State() == Setup(s);
    }

    /** Appends two fresh zeroed slots and their hidden palm spheres. */
    method AddSlots(a: array<Vec3>, b: array<Vec3>)
      requires Valid() && a !in slots && b !in slots && a != b
      requires a[..] == seq(LandmarkCount, _ => Origin) && b[..] == a[..]
      modifies this
      ensures Valid() && slots == old(slots) + [a, b]
      ensures State() == old(State()).(smoothed := old(Smoothed) + [a[..], a[..]],
                                       palms := old(palms) + [PalmSphere(false, Origin), PalmSphere(false, Origin)])
    {
      slots := slots + [a, b];
      Smoothed := Smoothed + [a[..], b[..]];
      palms := palms + [PalmSphere(false, Origin), PalmSphere(false, Origin)];
    }

    /** `cleanupHandTracking`. */
    method CleanupHandTracking()
      requires Valid()
      modifies this
      ensures Valid() && State() == Cleanup(old(State())) && slots == []
    {
      slots := [];
      Smoothed := [];
      palms := [];
      facingTrue := 0;
      facingFalse := 0;
      uiActive := false;
      panel := None;
      uiPosition := Origin;
    }
  
    /** `getWristPosition`. */
    method GetWristPosition(handIndex: int) returns (p: Vec3)
      requires Valid()
      ensures p == WristPosition(State().smoothed, handIndex)
    {
      if 0 <= handIndex < |slots| {
        p := slots[handIndex][Wrist];
      } else {
        p := Origin;
      }
    }

    /** `getForwardDirection`, before normalisation. */
    method GetForwardDirection(handIndex: int) returns (d: Vec3)
      requires Valid()
      ensures d == ForwardAxis(State().smoothed, handIndex)
    {
      if 0 <= handIndex < |slots| {
        var wrist := slots[handIndex][Wrist];
        var middleBase := slots[handIndex][MiddleBase];
        d := Sub(middleBase, wrist);
      } else {
        d := Vec3(0.0, 0.0, -1.0);
      }
    }

    /** `updateUIPanel`, with the panel's smoothed position following the wrist. */
    method UpdateUIPanel(wrist: Vec3, isFacing: bool)
      requires Valid()
      modifies this
      ensures Valid() && slots == old(slots) && State() == UIPanelStep(old(State()), wrist, isFacing)
    {
      if panel.None? {
        return;
      }
      if isFacing {
        facingTrue := facingTrue + 1;
        facingFalse := 0;
        if facingTrue >= FacingTrueThreshold {
          uiPosition := Lerp(uiPosition, Add(wrist, UIPanelOffset), EmaAlpha);
          panel := Some(Panel(true, uiPosition));
        }
      } else {
        facingFalse := facingFalse + 1;
        facingTrue := 0;
        if facingFalse >= FacingFalseThreshold {
          panel := Some(panel.value.(visible := false));
        }
      }
    }

    /** The pinch edge detector for hand `h`. */
    method DetectPinchEdge(h: nat, handedness: Handedness, now: bool)
      requires Valid() && h < NumHands
      modifies this
      ensures Valid() && slots == old(slots)
      ensures State() == EdgeUpdate(old(State()), h, handedness, now)
    {
      if now && !pinching[h] {
        pinching := pinching[h := true];
        calls := calls + [PinchStartCall(h, handedness, uiActive)];
      } else if !now && pinching[h] {
        pinching := pinching[h := false];
        calls := calls + [PinchEndCall(h)];
      }
    }

    /** The landmark loop for slot `h`: its array is smoothed in place and no other slot changes. */
    method SmoothSlot(h: nat, raw: seq<Landmark>)
      requires Valid() && h < |slots| && |raw| == LandmarkCount
      modifies this, slots[h]
      ensures Valid() && slots == old(slots)
      ensures State() == old(State()).(smoothed := old(Smoothed)[h := SmoothedHand(old(Smoothed)[h], raw, DefaultHandConfig)])
    {
      SmoothInPlace(slots[h], raw, DefaultHandConfig);
      Smoothed := Smoothed[h := slots[h][..]];
    }

    /** `updatePalmSphere`, then for a 'Left' hand `updateUIPanel` and `isUIActive`. */
    method ShowFacing(h: nat, handedness: Handedness, pts: seq<Vec3>, facing: bool)
      requires Valid() && h < |slots| && |pts| == LandmarkCount
      modifies this
      ensures Valid() && slots == old(slots)
      ensures State() == FacingUpdate(old(State()), h, handedness, pts, facing)
    {
      palms := palms[h := UpdatedPalmSphere(palms[h], pts, facing)];
      if handedness == Left {
        UpdateUIPanel(pts[Wrist], facing);
        uiActive := facing;
      }
    }

    /** The body of `predictWebcam`'s loop for detected hand `h`, whose slot exists. */
    method ProcessHand(h: nat, hand: DetectedHand, width: real, height: real)
      requires Valid() && h < |slots| && h < NumHands && |hand.landmarks| == LandmarkCount
      modifies this, slots[h]
      ensures Valid() && slots == old(slots)
      ensures State() == HandStep(old(State()), hand.handedness, h,
                                  ReadHand(old(State()).smoothed[h], hand, width, height, DefaultHandConfig))
    {
      var now := IsPinching2D(hand.landmarks, width, height, DefaultPinchThreshold);
      DetectPinchEdge(h, hand.handedness, now);
      SmoothSlot(h, hand.landmarks);
      var pts := slots[h][..];
      var facing := IsPalmFacing(pts, hand.handedness);
      ShowFacing(h, hand.handedness, pts, facing);
      calls := calls + [RaycastCall(h, hand.handedness, uiActive)];
    }

    /** The start of `predictWebcam`: the first two palm spheres and the panel hidden, `isUIActive` reset. */
    method StartFrame()
      requires Valid()
      modifies this
      ensures Valid() && slots == old(slots) && State() == FrameStart(old(State()))
    {
      for i := 0 to NumHands
        invariant Valid() && slots == old(slots)
        invariant State() == old(State()).(palms := HiddenPalms(old(palms), i))
      {
        if i < |palms| {
          palms := palms[i := palms[i].(visible := false)];
        }
      }
      if panel.Some? {
        panel := Some(panel.value.(visible := false));
      }
      uiActive := false;
    }

    /** `predictWebcam` for one detector result. */
    method PredictWebcam(hands: seq<DetectedHand>, width: real, height: real)
      requires Valid() && ValidDetection(hands)
      modifies this, set i | 0 <= i < |slots| :: slots[i]
      ensures Valid() && slots == old(slots)
      ensures State() == Frame(old(State()), hands, width, height, DefaultHandConfig)
    {
      ghost var s := State();
      StartFrame();
      ghost var rds := FrameReadings(s, hands, width, height, DefaultHandConfig);
      for i := 0 to |hands|
        invariant Valid() && slots == old(slots)
        invariant State() == ProcessHands(FrameStart(s), hands, rds, i)
      {
        FrameLoopStep(s, hands, width, height, DefaultHandConfig, i);
        if i < |slots| {
          ProcessHand(i, hands[i], width, height);
        }
      }
    }
  }
}
