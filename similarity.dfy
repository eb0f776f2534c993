/**
 * The browser's joint-angle extractor and pose similarity scorer
 * (`getAngle` and `calculatePoseSimilarity` in app.js).
 *
 * An angle of 0 doubles as "not computable": a joint whose angle is not
 * strictly positive in either pose is left out of the score.
 */
module PoseSimilarity {

  import opened Wrappers
  import opened Trig
  import opened Skeleton

  /** One MediaPipe landmark: normalised coordinates and a confidence. */
  datatype Landmark = Landmark(x: real, y: real, z: real, visibility: real)

  /** A landmark array as the browser holds it; None where the array has no entry. */
  type Pose = seq<Option<Landmark>>

  /** Landmarks less visible than this are ignored. */
  const MinVisibility: real := 0.5

  /** `landmarks[i]`: undefined past the end of the array. */
  function At(pose: Pose, i: nat): Option<Landmark>
  {
    if i < |pose| then pose[i] else None
  }

  /** A landmark the angle extractor accepts: present and visible enough. */
  predicate Usable(p: Option<Landmark>)
  {
    p.Some? && p.value.visibility >= MinVisibility
  }

  /**
   * `getAngle`: the angle at `p2` between the rays to `p1` and `p3`, in degrees,
   * folded into [0, 180]; 0 when a landmark is missing or barely visible.
   */
  function GetAngle(atan2: (real, real) -> real, p1: Option<Landmark>, p2: Option<Landmark>, p3: Option<Landmark>): (angle: real)
    requires IsAtan2(atan2)
    ensures 0.0 <= angle <= 180.0
    ensures !(Usable(p1) && Usable(p2) && Usable(p3)) ==> angle == 0.0
  {
    if p1.None? || p2.None? || p3.None? then 0.0
    else if p1.value.visibility < MinVisibility || p2.value.visibility < MinVisibility || p3.value.visibility < MinVisibility then 0.0
    else
      var a, b, c := p1.value, p2.value, p3.value;
      var radians := atan2(c.y - b.y, c.x - b.x) - atan2(a.y - b.y, a.x - b.x);
      var degrees := Abs(radians * 180.0 / Pi);
      if degrees > 180.0 then 360.0 - degrees else degrees
  }

  /** The angle at a vertex does not depend on which of its two rays is measured first. */
  lemma GetAngleSymmetric(atan2: (real, real) -> real, p1: Option<Landmark>, p2: Option<Landmark>, p3: Option<Landmark>)
    requires IsAtan2(atan2)
    ensures GetAngle(atan2, p1, p2, p3) == GetAngle(atan2, p3, p2, p1)
  {
  }

  /**
   * The sentinel collision: two fully visible rays in the same direction give
   * angle 0, which the scorer then reads as "not computable".
   */
  lemma ClosedJointReadsAsMissing(atan2: (real, real) -> real, outer: Landmark, vertex: Landmark)
    requires IsAtan2(atan2)
    requires outer.visibility >= MinVisibility && vertex.visibility >= MinVisibility
    ensures GetAngle(atan2, Some(outer), Some(vertex), Some(outer)) == 0.0
  {
  }

  function JointAngle(atan2: (real, real) -> real, pose: Pose, j: Joint): real
    requires IsAtan2(atan2)
  {
    var t := Landmarks(j);
    GetAngle(atan2, At(pose, t.first), At(pose, t.vertex), At(pose, t.last))
  }

  /** `getAngles`: the eight joint angles of a pose, in joint order. */
  function JointAngles(atan2: (real, real) -> real, pose: Pose): (angles: seq<real>)
    requires IsAtan2(atan2)
    ensures |angles| == |AllJoints|
    ensures forall i :: 0 <= i < |angles| ==> 0.0 <= angles[i] <= 180.0
  {
    seq(|AllJoints|, i requires 0 <= i < |AllJoints| => JointAngle(atan2, pose, AllJoints[i]))
  }

  /** A joint takes part in the score only when both of its angles are positive. */
  predicate Contributes(u: real, r: real)
  {
    u > 0.0 && r > 0.0
  }

  /** `validAngleCount` after the loop has visited every joint of `ua`/`ra`. */
  function ValidCount(ua: seq<real>, ra: seq<real>): (n: nat)
    requires |ua| == |ra|
    ensures n <= |ua|
  {
    if ua == [] then 0
    else
      var k := |ua| - 1;
      ValidCount(ua[..k], ra[..k]) + (if Contributes(ua[k], ra[k]) then 1 else 0)
  }

  /** `angleDifferenceSum` after the loop has visited every joint of `ua`/`ra`. */
  function DiffSum(ua: seq<real>, ra: seq<real>): (sum: real)
    requires |ua| == |ra|
    ensures 0.0 <= sum
  {
    if ua == [] then 0.0
    else
      var k := |ua| - 1;
      DiffSum(ua[..k], ra[..k]) + (if Contributes(ua[k], ra[k]) then Abs(ua[k] - ra[k]) else 0.0)
  }

  /** `Math.max(0, Math.min(1, s))`. */
  function Clamp01(s: real): real
  {
    Max(0.0, Min(1.0, s))
  }

  /**
   * The score of two angle vectors: 0 when no joint contributes, otherwise
   * `floor(clamp(1 - sum / (count * 180), 0, 1) * 100)`.
   */
  function Score(ua: seq<real>, ra: seq<real>): (score: int)
    requires |ua| == |ra|
    ensures 0 <= score <= 100
    ensures ValidCount(ua, ra) == 0 ==> score == 0
  {
    var n := ValidCount(ua, ra);
    if n == 0 then 0
    else (Clamp01(1.0 - DiffSum(ua, ra) / (n as real * 180.0)) * 100.0).Floor
  }

  /** `calculatePoseSimilarity` as a function of the two (possibly absent) poses. */
  function Similarity(atan2: (real, real) -> real, user: Option<Pose>, reference: Option<Pose>): (score: int)
    requires IsAtan2(atan2)
    ensures 0 <= score <= 100
    ensures user.None? || reference.None? ==> score == 0
  {
    if user.None? || reference.None? then 0
    else Score(JointAngles(atan2, user.value), JointAngles(atan2, reference.value))
  }

  /**
   * The `forEach` over the joints in `calculatePoseSimilarity`: a joint whose
   * two angles are both positive adds its absolute difference to the sum and
   * one to the count.
   */
  method SumDifferences(userAngles: seq<real>, refAngles: seq<real>)
    returns (angleDifferenceSum: real, validAngleCount: nat)
    requires |userAngles| == |refAngles|
    ensures angleDifferenceSum == DiffSum(userAngles, refAngles)
    ensures validAngleCount == ValidCount(userAngles, refAngles)
  {
    angleDifferenceSum, validAngleCount := 0.0, 0;
    for i := 0 to |userAngles|
      invariant angleDifferenceSum == DiffSum(userAngles[..i], refAngles[..i])
      invariant validAngleCount == ValidCount(userAngles[..i], refAngles[..i])
    {
      assert userAngles[..i + 1][..i] == userAngles[..i];
      assert refAngles[..i + 1][..i] == refAngles[..i];
      if userAngles[i] > 0.0 && refAngles[i] > 0.0 {
        angleDifferenceSum := angleDifferenceSum + Abs(userAngles[i] - refAngles[i]);
        validAngleCount := validAngleCount + 1;
      }
    }
    assert userAngles[..|userAngles|] == userAngles;
    assert refAngles[..|refAngles|] == refAngles;
  }

  /**
   * `calculatePoseSimilarity`: compute both poses' joint angles, then
   * accumulate the difference sum and the count of contributing joints.
   */
  method CalculatePoseSimilarity(atan2: (real, real) -> real, userLandmarks: Option<Pose>, refLandmarks: Option<Pose>)
    returns (score: int)
    requires IsAtan2(atan2)
    ensures score == Similarity(atan2, userLandmarks, refLandmarks)
  {
    if userLandmarks.None? || refLandmarks.None? {
      return 0;
    }
    var userAngles := JointAngles(atan2, userLandmarks.value);
    var refAngles := JointAngles(atan2, refLandmarks.value);
    var angleDifferenceSum, validAngleCount := SumDifferences(userAngles, refAngles);
    if validAngleCount == 0 {
      return 0;
    }
    var maxAngleDifference := validAngleCount as real * 180.0;
    var angleSimilarity := 1.0 - angleDifferenceSum / maxAngleDifference;
    score := (Max(0.0, Min(1.0, angleSimilarity)) * 100.0).Floor;
  }

  lemma {:induction false} ValidCountSymmetric(ua: seq<real>, ra: seq<real>)
    requires |ua| == |ra|
    ensures ValidCount(ua, ra) == ValidCount(ra, ua)
  {
    if ua != [] {
      var k := |ua| - 1;
      ValidCountSymmetric(ua[..k], ra[..k]);
    }
  }

  lemma {:induction false} DiffSumSymmetric(ua: seq<real>, ra: seq<real>)
    requires |ua| == |ra|
    ensures DiffSum(ua, ra) == DiffSum(ra, ua)
  {
    if ua != [] {
      var k := |ua| - 1;
      DiffSumSymmetric(ua[..k], ra[..k]);
    }
  }

  /** The score does not depend on which pose is the user's: `Math.abs` makes each term symmetric. */
  lemma SimilaritySymmetric(atan2: (real, real) -> real, user: Option<Pose>, reference: Option<Pose>)
    requires IsAtan2(atan2)
    ensures Similarity(atan2, user, reference) == Similarity(atan2, reference, user)
  {
    if user.Some? && reference.Some? {
      var ua, ra := JointAngles(atan2, user.value), JointAngles(atan2, reference.value);
      ValidCountSymmetric(ua, ra);
      DiffSumSymmetric(ua, ra);
    }
  }

  /** Joints whose two angles agree add nothing to the difference sum. */
  lemma {:induction false} DiffSumOfAgreement(ua: seq<real>, ra: seq<real>)
    requires |ua| == |ra|
    requires forall i :: 0 <= i < |ua| && Contributes(ua[i], ra[i]) ==> ua[i] == ra[i]
    ensures DiffSum(ua, ra) == 0.0
  {
    if ua != [] {
      var k := |ua| - 1;
      DiffSumOfAgreement(ua[..k], ra[..k]);
    }
  }

  /** Every contributing joint agreeing, and at least one contributing, scores 100. */
  lemma ScoreOfAgreement(ua: seq<real>, ra: seq<real>)
    requires |ua| == |ra|
    requires ValidCount(ua, ra) > 0
    requires forall i :: 0 <= i < |ua| && Contributes(ua[i], ra[i]) ==> ua[i] == ra[i]
    ensures Score(ua, ra) == 100
  {
    DiffSumOfAgreement(ua, ra);
    NoDifferenceScoresFull(DiffSum(ua, ra), ValidCount(ua, ra) as real * 180.0);
  }

  lemma NoDifferenceScoresFull(sum: real, maxDifference: real)
    requires sum == 0.0 && maxDifference > 0.0
    ensures (Clamp01(1.0 - sum / maxDifference) * 100.0).Floor == 100
  {
  }

  /** At least one joint contributes exactly when some joint has both angles positive. */
  lemma {:induction false} ValidCountPositive(ua: seq<real>, ra: seq<real>)
    requires |ua| == |ra|
    ensures ValidCount(ua, ra) > 0 <==> exists i :: 0 <= i < |ua| && Contributes(ua[i], ra[i])
  {
    if ua != [] {
      var k := |ua| - 1;
      ValidCountPositive(ua[..k], ra[..k]);
      if ValidCount(ua[..k], ra[..k]) > 0 {
        var i :| 0 <= i < k && Contributes(ua[..k][i], ra[..k][i]);
        assert Contributes(ua[i], ra[i]);
      }
      if exists i :: 0 <= i < |ua| && Contributes(ua[i], ra[i]) {
        var i :| 0 <= i < |ua| && Contributes(ua[i], ra[i]);
        if i < k {
          assert Contributes(ua[..k][i], ra[..k][i]);
        }
      }
    }
  }

  /** An angle vector compared with itself scores 100, or 0 when none of its angles is positive. */
  lemma ScoreOfSelf(a: seq<real>)
    ensures Score(a, a) == if exists i :: 0 <= i < |a| && a[i] > 0.0 then 100 else 0
  {
    ValidCountPositive(a, a);
    if exists i :: 0 <= i < |a| && a[i] > 0.0 {
      var i :| 0 <= i < |a| && a[i] > 0.0;
      assert Contributes(a[i], a[i]);
      ScoreOfAgreement(a, a);
    }
  }

  /** A pose compared with itself scores 100 as soon as one of its joint angles is positive. */
  lemma SamePoseScoresFull(atan2: (real, real) -> real, pose: Pose, j: Joint)
    requires IsAtan2(atan2)
    requires j in AllJoints && JointAngle(atan2, pose, j) > 0.0
    ensures Similarity(atan2, Some(pose), Some(pose)) == 100
  {
    var a := JointAngles(atan2, pose);
    var i :| 0 <= i < |AllJoints| && AllJoints[i] == j;
    assert a[i] > 0.0;
    ScoreOfSelf(a);
  }

  /**
   * A pose all of whose joint angles are 0 (the "not computable" sentinel)
   * scores 0 even against itself.
   */
  lemma SamePoseWithoutAnglesScoresZero(atan2: (real, real) -> real, pose: Pose)
    requires IsAtan2(atan2)
    requires forall j :: j in AllJoints ==> JointAngle(atan2, pose, j) == 0.0
    ensures Similarity(atan2, Some(pose), Some(pose)) == 0
  {
    var a := JointAngles(atan2, pose);
    forall i | 0 <= i < |a| ensures a[i] == 0.0 {
      assert AllJoints[i] in AllJoints;
    }
    ScoreOfSelf(a);
  }

  /** A pose none of whose landmarks is usable scores 0 against anything, in either position. */
  lemma HiddenPoseScoresZero(atan2: (real, real) -> real, hidden: Pose, other: Option<Pose>)
    requires IsAtan2(atan2)
    requires forall i :: 0 <= i < |hidden| ==> !Usable(hidden[i])
    ensures Similarity(atan2, Some(hidden), other) == 0
    ensures Similarity(atan2, other, Some(hidden)) == 0
  {
    if other.Some? {
      var h, o := JointAngles(atan2, hidden), JointAngles(atan2, other.value);
      forall i | 0 <= i < |h| ensures h[i] == 0.0 {
        var t := Landmarks(AllJoints[i]);
        assert !Usable(At(hidden, t.first));
      }
      ValidCountPositive(h, o);
      ValidCountPositive(o, h);
    }
  }

  /**
   * For angles the extractor can produce, the raw similarity
   * `1 - sum / (count * 180)` already lies in [0, 1]: the clamp never changes it.
   */
  lemma {:induction false} DiffSumBound(ua: seq<real>, ra: seq<real>)
    requires |ua| == |ra|
    requires forall i :: 0 <= i < |ua| ==> 0.0 <= ua[i] <= 180.0 && 0.0 <= ra[i] <= 180.0
    ensures DiffSum(ua, ra) <= 180.0 * ValidCount(ua, ra) as real
  {
    if ua != [] {
      var k := |ua| - 1;
      DiffSumBound(ua[..k], ra[..k]);
    }
  }
}
