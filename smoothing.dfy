/**
 * The landmark smoother: the affine map from detector coordinates into scene
 * space (handTracking.js `handConfig`, main.js's fixed constants) and the
 * exponential moving average that pulls each stored smoothed landmark toward
 * the frame's target.
 */
module Smoothing {
  import opened Geometry

  /** `EMA_ALPHA`: the fraction of the remaining gap closed each frame. */
  const EmaAlpha: real := 0.35

  /** The part of the gap that survives one frame, 1 - EMA_ALPHA. */
  const EmaRetained: real := 0.65

  /** The configurable scene mapping; the rotation offset is the identity and is not carried. */
  datatype HandConfig = HandConfig(xScale: real, yScale: real, zMagnification: real, zOffset: real)

  /** `handConfig` as declared in handTracking.js and as every scene setup resets it. */
  const DefaultHandConfig: HandConfig := HandConfig(2.0, -2.0, 2.0, 0.0)

  /** The constants main.js writes inline: scales 2 and -2, `Z_MAGNIFICATION_FACTOR` 5, offset 0. */
  const DemoHandConfig: HandConfig := HandConfig(2.0, -2.0, 5.0, 0.0)

  /** The scene-space target of one raw landmark: X mirrored about the frame centre, Y about its middle. */
  function TargetPosition(cfg: HandConfig, l: Landmark): (r: Vec3)
    ensures l.x == 0.5 ==> r.x == 0.0
    ensures l.y == 0.5 ==> r.y == 0.0
    ensures l.z == 0.0 ==> r.z == cfg.zOffset
  {
    Vec3((1.0 - l.x - 0.5) * cfg.xScale, (l.y - 0.5) * cfg.yScale, l.z * cfg.zMagnification + cfg.zOffset)
  }

  /** One frame of smoothing for one hand: the first |raw| stored points move toward their targets. */
  function SmoothedHand(pts: seq<Vec3>, raw: seq<Landmark>, cfg: HandConfig): (r: seq<Vec3>)
    requires |raw| <= |pts|
    ensures |r| == |pts|
    decreases |raw|
  {
    if raw == [] then pts
    else
      var i := |raw| - 1;
      SmoothedHand(pts, raw[..i], cfg)[i := Lerp(pts[i], TargetPosition(cfg, raw[i]), EmaAlpha)]
  }

  /** Each reported landmark's point moves 35% of the way to its target; the points past the report stay put. */
  lemma {:induction false} SmoothedHandAt(pts: seq<Vec3>, raw: seq<Landmark>, cfg: HandConfig, i: nat)
    requires |raw| <= |pts| && i < |pts|
    ensures SmoothedHand(pts, raw, cfg)[i] == if i < |raw| then Lerp(pts[i], TargetPosition(cfg, raw[i]), EmaAlpha) else pts[i]
    decreases |raw|
  {
    if raw != [] && i != |raw| - 1 {
      var r := raw[..|raw| - 1];
      SmoothedHandAt(pts, r, cfg, i);
      assert i < |r| ==> r[i] == raw[i];
    }
  }

  /** The inner landmark loop of `predictWebcam`, lerping the persistent per-hand points in place. */
  method SmoothInPlace(pts: array<Vec3>, raw: seq<Landmark>, cfg: HandConfig)
    requires |raw| <= pts.Length
    modifies pts
    ensures pts[..] == SmoothedHand(old(pts[..]), raw, cfg)
  {
    for i := 0 to |raw|
      invariant forall k :: 0 <= k < i ==> pts[k] == Lerp(old(pts[k]), TargetPosition(cfg, raw[k]), EmaAlpha)
      invariant forall k :: i <= k < pts.Length ==> pts[k] == old(pts[k])
    {
      pts[i] := Lerp(pts[i], TargetPosition(cfg, raw[i]), EmaAlpha);
    }
    forall k | 0 <= k < pts.Length
      ensures pts[k] == SmoothedHand(old(pts[..]), raw, cfg)[k]
    {
      SmoothedHandAt(old(pts[..]), raw, cfg, k);
    }
  }

  // ---------------------------------------------------------------- mapping

  /** The frame centre maps onto the depth axis: (0.5, 0.5, z) lands at (0, 0, zMagnification * z + zOffset). */
  lemma CentreMapsToDepthAxis(cfg: HandConfig, z: real)
    ensures TargetPosition(cfg, Landmark(0.5, 0.5, z)) == Vec3(0.0, 0.0, cfg.zMagnification * z + cfg.zOffset)
    ensures TargetPosition(DefaultHandConfig, Landmark(0.5, 0.5, z)) == Vec3(0.0, 0.0, 2.0 * z)
    ensures TargetPosition(DemoHandConfig, Landmark(0.5, 0.5, z)) == Vec3(0.0, 0.0, 5.0 * z)
  {
  }

  /** The mapping is affine: the difference of two targets is the scaled difference of the raw points, X negated. */
  lemma TargetIsAffine(cfg: HandConfig, a: Landmark, b: Landmark)
    ensures Sub(TargetPosition(cfg, a), TargetPosition(cfg, b))
         == Vec3(-(a.x - b.x) * cfg.xScale, (a.y - b.y) * cfg.yScale, (a.z - b.z) * cfg.zMagnification)
  {
  }

  /** With either shipped configuration X is mirrored, Y is inverted and depth keeps its order. */
  lemma ShippedConfigsMirrorX(cfg: HandConfig, a: Landmark, b: Landmark)
    requires cfg == DefaultHandConfig || cfg == DemoHandConfig
    ensures a.x < b.x ==> TargetPosition(cfg, a).x > TargetPosition(cfg, b).x
    ensures a.y < b.y ==> TargetPosition(cfg, a).y > TargetPosition(cfg, b).y
    ensures a.z < b.z ==> TargetPosition(cfg, a).z < TargetPosition(cfg, b).z
  {
  }

  // ---------------------------------------------------------------- the moving average

  function Pow(b: real, n: nat): real {
    if n == 0 then 1.0 else b * Pow(b, n - 1)
  }

  /** `n` frames of smoothing toward a target `t` that does not move. */
  function EmaIterate(s: Vec3, t: Vec3, n: nat): Vec3 {
    if n == 0 then s else Lerp(EmaIterate(s, t, n - 1), t, EmaAlpha)
  }

  lemma NormSqScale(k: real, a: Vec3)
    ensures NormSq(Scale(k, a)) == k * k * NormSq(a)
  {
    calc {
      NormSq(Scale(k, a));
      (k * a.x) * (k * a.x) + (k * a.y) * (k * a.y) + (k * a.z) * (k * a.z);
      k * k * (a.x * a.x) + k * k * (a.y * a.y) + k * k * (a.z * a.z);
    }
  }

  lemma NormSqNonNegative(a: Vec3)
    ensures NormSq(a) >= 0.0
  {
  }

  /** One smoothing step leaves 0.65 of the gap to the target. */
  lemma EmaStepGap(s: Vec3, t: Vec3)
    ensures Sub(Lerp(s, t, EmaAlpha), t) == Scale(EmaRetained, Sub(s, t))
  {
  }

  lemma ScaleTwice(a: real, b: real, d: Vec3)
    ensures Scale(a, Scale(b, d)) == Scale(a * b, d)
  {
    assert a * (b * d.x) == (a * b) * d.x;
    assert a * (b * d.y) == (a * b) * d.y;
    assert a * (b * d.z) == (a * b) * d.z;
  }

  /** One smoothing step leaves 0.65 of the gap to the target, so the squared distance shrinks by 0.4225. */
  lemma EmaStepContracts(s: Vec3, t: Vec3)
    ensures Sub(Lerp(s, t, EmaAlpha), t) == Scale(EmaRetained, Sub(s, t))
    ensures NormSq(Sub(Lerp(s, t, EmaAlpha), t)) == 0.4225 * NormSq(Sub(s, t))
    ensures NormSq(Sub(Lerp(s, t, EmaAlpha), t)) <= NormSq(Sub(s, t))
  {
    EmaStepGap(s, t);
    NormSqScale(EmaRetained, Sub(s, t));
    NormSqNonNegative(Sub(s, t));
  }

  /** The target is a fixed point of the smoother. */
  lemma EmaFixedPoint(t: Vec3)
    ensures Lerp(t, t, EmaAlpha) == t
  {
  }

  /** After `n` frames toward a constant target the gap is the initial gap scaled by 0.65^n. */
  lemma {:induction false} EmaIterateGap(s: Vec3, t: Vec3, n: nat)
    ensures Sub(EmaIterate(s, t, n), t) == Scale(Pow(EmaRetained, n), Sub(s, t))
  {
    if n > 0 {
      EmaIterateGap(s, t, n - 1);
      EmaStepGap(EmaIterate(s, t, n - 1), t);
      ScaleTwice(EmaRetained, Pow(EmaRetained, n - 1), Sub(s, t));
    }
  }

  /** With a constant target the distance never increases from one frame to the next. */
  lemma EmaNeverMovesAway(s: Vec3, t: Vec3, n: nat)
    ensures NormSq(Sub(EmaIterate(s, t, n + 1), t)) <= NormSq(Sub(EmaIterate(s, t, n), t))
  {
    EmaStepContracts(EmaIterate(s, t, n), t);
  }

  lemma {:induction false} PowRetainedBounds(n: nat)
    ensures 0.0 <= Pow(EmaRetained, n) <= 1.0
    ensures n >= 11 ==> Pow(EmaRetained, n) <= Pow(EmaRetained, 11)
  {
    if n > 0 {
      PowRetainedBounds(n - 1);
      if n > 11 {
        assert Pow(EmaRetained, n) <= Pow(EmaRetained, n - 1);
      }
    }
  }

  lemma PowRetainedElevenIsSmall()
    ensures Pow(EmaRetained, 11) < 0.01
  {
    assert Pow(EmaRetained, 11) == 0.65 * 0.65 * 0.65 * 0.65 * 0.65 * 0.65 * 0.65 * 0.65 * 0.65 * 0.65 * 0.65;
  }

  /** From the eleventh frame on, a constant target is within 1% of the initial distance. */
  lemma EmaWithinOnePercent(s: Vec3, t: Vec3, n: nat)
    requires n >= 11
    ensures NormSq(Sub(EmaIterate(s, t, n), t)) <= 0.0001 * NormSq(Sub(s, t))
  {
    var p := Pow(EmaRetained, n);
    var d := Sub(s, t);
    EmaIterateGap(s, t, n);
    NormSqScale(p, d);
    PowRetainedBounds(n);
    PowRetainedElevenIsSmall();
    assert p * p <= 0.01 * p <= 0.0001;
    NormSqNonNegative(d);
    assert p * p * NormSq(d) <= 0.0001 * NormSq(d);
  }

  /** `n` frames in which a hand reports the same raw landmarks; the hand keeps its number of points. */
  function SmoothedHandIterate(pts: seq<Vec3>, raw: seq<Landmark>, cfg: HandConfig, n: nat): (r: seq<Vec3>)
    requires |raw| <= |pts|
    ensures |r| == |pts|
  {
    if n == 0 then pts else SmoothedHand(SmoothedHandIterate(pts, raw, cfg, n - 1), raw, cfg)
  }

  /** A hand held still: every reported landmark follows the single-point moving average, the rest stay put. */
  lemma {:induction false} HeldHandFollowsEma(pts: seq<Vec3>, raw: seq<Landmark>, cfg: HandConfig, n: nat, i: nat)
    requires |raw| <= |pts| && i < |pts|
    ensures SmoothedHandIterate(pts, raw, cfg, n)[i]
         == (if i < |raw| then EmaIterate(pts[i], TargetPosition(cfg, raw[i]), n) else pts[i])
  {
    if n > 0 {
      HeldHandFollowsEma(pts, raw, cfg, n - 1, i);
      SmoothedHandAt(SmoothedHandIterate(pts, raw, cfg, n - 1), raw, cfg, i);
    }
  }
}
