/**
 * The hand skeleton: the 21 detector landmarks and `HAND_CONNECTIONS`, the
 * 20 bones drawn between them (the same table in handTracking.js and main.js),
 * and main.js's fill of each bone's line-position buffer.
 */
module Skeleton {
  import opened Geometry

  /** Landmarks per hand. */
  const LandmarkCount: nat := 21

  const Wrist: nat := 0
  const ThumbTip: nat := 4
  const IndexBase: nat := 5
  const IndexTip: nat := 8
  const MiddleBase: nat := 9
  const RingBase: nat := 13
  const PinkyBase: nat := 17

  /** Thumb, index, middle, ring and pinky chains, each rooted at the wrist. */
  const HandConnections: seq<(nat, nat)> := [
    (0, 1), (1, 2), (2, 3), (3, 4),
    (0, 5), (5, 6), (6, 7), (7, 8),
    (0, 9), (9, 10), (10, 11), (11, 12),
    (0, 13), (13, 14), (14, 15), (15, 16),
    (0, 17), (17, 18), (18, 19), (19, 20)
  ]

  /**
   * The table is a tree over the landmarks rooted at the wrist: 20 bones, each
   * from a lower to a higher index inside 0..20, and every landmark other than
   * the wrist is the end of exactly one bone (bone i ends at i + 1).
   */
  lemma ConnectionsFormHandTree()
    ensures |HandConnections| == LandmarkCount - 1
    ensures forall i :: 0 <= i < |HandConnections| ==>
      HandConnections[i].0 < HandConnections[i].1 < LandmarkCount
    ensures forall i :: 0 <= i < |HandConnections| ==> HandConnections[i].1 == i + 1
    ensures forall i, j ::
      (0 <= i < |HandConnections| && 0 <= j < |HandConnections| &&
       HandConnections[i].1 == HandConnections[j].1) ==> i == j
  {
  }

  /** The six floats of one line buffer: start point then end point. */
  function Segment(pts: seq<Vec3>, c: (nat, nat)): seq<real>
    requires c.0 < |pts| && c.1 < |pts|
  {
    [pts[c.0].x, pts[c.0].y, pts[c.0].z, pts[c.1].x, pts[c.1].y, pts[c.1].z]
  }

  /** main.js's connection loop: bone i's buffer receives the smoothed coordinates of its two landmarks. */
  method FillConnectionBuffers(lines: seq<array<real>>, pts: seq<Vec3>)
    requires |lines| == |HandConnections| && |pts| == LandmarkCount
    requires forall i :: 0 <= i < |lines| ==> lines[i].Length == 6
    requires forall i, j :: 0 <= i < j < |lines| ==> lines[i] != lines[j]
    modifies set i | 0 <= i < |lines| :: lines[i]
    ensures forall i :: 0 <= i < |lines| ==> lines[i][..] == Segment(pts, HandConnections[i])
  {
    ConnectionsFormHandTree();
    for i := 0 to |lines|
      invariant forall k :: 0 <= k < i ==> lines[k][..] == Segment(pts, HandConnections[k])
    {
      var (a, b) := HandConnections[i];
      var positions := lines[i];
      positions[0] := pts[a].x;
      positions[1] := pts[a].y;
      positions[2] := pts[a].z;
      positions[3] := pts[b].x;
      positions[4] := pts[b].y;
      positions[5] := pts[b].z;
      assert positions[..] == Segment(pts, HandConnections[i]);
    }
  }
}
