/**
 * The server's pose evaluation and chat endpoints (app.py): the vector
 * angle `calculate_angle`, the request checks, the per-joint difference
 * map, the "perfect" threshold and the choice of the joint to correct.
 * The language model is a function parameter; None stands for an
 * exception raised by the call.
 */
module PoseEvaluation {

  import opened Wrappers
  import opened Trig
  import opened Skeleton

  /** A landmark as the request's JSON decodes it: a dictionary from field name to number. */
  type Point = map<string, real>

  /** A pose as the request carries it; None where the list holds `null`. */
  type PosePayload = seq<Option<Point>>

  /** Differences below this many degrees need no correction. */
  const Tolerance: real := 5.0

  const NotJsonError: string := "Request must be JSON"
  const InvalidPoseError: string := "Eksik veya geçersiz poz verisi"
  const PerfectMessage: string := "Mükemmel! Pozisyonu harika yakaladın, hiçbir düzeltmeye ihtiyacın yok. Harika iş!"
  const ModelError: string := "Gemini API'den geri bildirim alınırken bir hata oluştu."
  const MessageRequiredError: string := "Message field is required"
  const ChatError: string := "Chatbot yanıtı alınamadı."

  /** The single-field JSON bodies the endpoints answer with. */
  datatype Body =
    | FeedbackBody(feedback: string)
    | ResponseBody(response: string)
    | ErrorBody(error: string)

  datatype Reply = Reply(status: int, body: Body)

  /** Python truthiness of a point: not None and not an empty dictionary. */
  predicate Truthy(p: Option<Point>)
  {
    p.Some? && |p.value| != 0
  }

  /** Both coordinates can be read without a `KeyError`. */
  predicate HasXY(p: Option<Point>)
  {
    p.Some? && "x" in p.value && "y" in p.value
  }

  predicate SamePosition(p: Point, q: Point)
    requires "x" in p && "y" in p && "x" in q && "y" in q
  {
    p["x"] == q["x"] && p["y"] == q["y"]
  }

  lemma SquareNonNegative(v: real)
    ensures v * v >= 0.0
    ensures v != 0.0 ==> v * v > 0.0
  {
  }

  /** Only the zero vector has zero length. */
  lemma LengthZero(sqrt: real -> real, vx: real, vy: real)
    requires IsSqrt(sqrt)
    ensures 0.0 <= sqrt(vx * vx + vy * vy)
    ensures sqrt(vx * vx + vy * vy) == 0.0 <==> vx == 0.0 && vy == 0.0
  {
    SquareNonNegative(vx);
    SquareNonNegative(vy);
    if vx == 0.0 && vy == 0.0 {
      assert vx * vx + vy * vy == 0.0;
    } else {
      assert 0.0 < vx * vx + vy * vy;
    }
  }

  /**
   * `calculate_angle`: the angle at `p2` between the vectors to `p1` and
   * `p3`, in degrees. None when a point is missing or empty, lacks a
   * coordinate, or coincides with the vertex (a zero-length vector);
   * otherwise a value in [0, 180], since the cosine is clamped to [-1, 1]
   * before `acos`.
   */
  function CalculateAngle(sqrt: real -> real, acos: real -> real, p1: Option<Point>, p2: Option<Point>, p3: Option<Point>)
    : (angle: Option<real>)
    requires IsSqrt(sqrt) && IsAcos(acos)
    ensures !Truthy(p1) || !Truthy(p2) || !Truthy(p3) ==> angle.None?
    ensures angle.None? <==>
              !(HasXY(p1) && HasXY(p2) && HasXY(p3))
              || SamePosition(p1.value, p2.value) || SamePosition(p3.value, p2.value)
    ensures angle.Some? ==> 0.0 <= angle.value <= 180.0
  {
    if !Truthy(p1) || !Truthy(p2) || !Truthy(p3) then None
    else if !(HasXY(p1) && HasXY(p2) && HasXY(p3)) then None
    else
      var a, b, c := p1.value, p2.value, p3.value;
      var v1x, v1y := a["x"] - b["x"], a["y"] - b["y"];
      var v2x, v2y := c["x"] - b["x"], c["y"] - b["y"];
      var dotProduct := v1x * v2x + v1y * v2y;
      var magnitude1 := sqrt(v1x * v1x + v1y * v1y);
      var magnitude2 := sqrt(v2x * v2x + v2y * v2y);
      LengthZero(sqrt, v1x, v1y);
      LengthZero(sqrt, v2x, v2y);
      if magnitude1 == 0.0 || magnitude2 == 0.0 then None
      else Some(acos(Min(Max(dotProduct / (magnitude1 * magnitude2), -1.0), 1.0)) * 180.0 / Pi)
  }

  /** The eight joint angles of a validated pose, in the order of the server's dictionary. */
  function ServerAngles(sqrt: real -> real, acos: real -> real, pose: PosePayload): (angles: seq<Option<real>>)
    requires IsSqrt(sqrt) && IsAcos(acos) && |pose| >= PoseSize
    ensures |angles| == |AllJoints|
    ensures forall i :: 0 <= i < |angles| && angles[i].Some? ==> 0.0 <= angles[i].value <= 180.0
  {
    seq(|AllJoints|, i requires 0 <= i < |AllJoints| =>
      var t := Landmarks(AllJoints[i]);
      CalculateAngle(sqrt, acos, pose[t.first], pose[t.vertex], pose[t.last]))
  }

  /** One entry of `angle_diffs`: the joint's position in `AllJoints` and its difference. */
  datatype Diff = Diff(joint: nat, value: real)

  /**
   * `angle_diffs`: the absolute difference for each joint whose two angles
   * are both known, keyed in joint order.
   */
  function AngleDiffs(ua: seq<Option<real>>, ra: seq<Option<real>>): (diffs: seq<Diff>)
    requires |ua| == |ra|
    ensures forall k :: 0 <= k < |diffs| ==>
              && diffs[k].joint < |ua|
              && ua[diffs[k].joint].Some? && ra[diffs[k].joint].Some?
              && diffs[k].value == Abs(ua[diffs[k].joint].value - ra[diffs[k].joint].value)
    ensures forall k1, k2 :: 0 <= k1 < k2 < |diffs| ==> diffs[k1].joint < diffs[k2].joint
  {
    if ua == [] then []
    else
      var n := |ua| - 1;
      var rest := AngleDiffs(ua[..n], ra[..n]);
      if ua[n].Some? && ra[n].Some? then rest + [Diff(n, Abs(ua[n].value - ra[n].value))] else rest
  }

  /** Every joint whose two angles are known has an entry in `angle_diffs`. */
  lemma {:induction false} AngleDiffsComplete(ua: seq<Option<real>>, ra: seq<Option<real>>, i: nat)
    requires |ua| == |ra| && i < |ua|
    requires ua[i].Some? && ra[i].Some?
    ensures exists k :: 0 <= k < |AngleDiffs(ua, ra)| && AngleDiffs(ua, ra)[k].joint == i
  {
    var n := |ua| - 1;
    var rest := AngleDiffs(ua[..n], ra[..n]);
    if i == n {
      assert AngleDiffs(ua, ra)[|rest|].joint == i;
    } else {
      AngleDiffsComplete(ua[..n], ra[..n], i);
      var k :| 0 <= k < |rest| && rest[k].joint == i;
      assert AngleDiffs(ua, ra)[k].joint == i;
    }
  }

  /** `all(diff < 5 for diff in angle_diffs.values())`, true of an empty map. */
  predicate AllWithinTolerance(diffs: seq<Diff>)
  {
    forall k :: 0 <= k < |diffs| ==> diffs[k].value < Tolerance
  }

  /**
   * `max(angle_diffs, key=angle_diffs.get)`: the position of a largest
   * difference, the first one among equals, since `max` keeps its current
   * pick unless a later value is strictly greater.
   */
  function MostProblematic(diffs: seq<Diff>): (k: nat)
    requires |diffs| > 0
    ensures k < |diffs|
    ensures forall i :: 0 <= i < |diffs| ==> diffs[i].value <= diffs[k].value
    ensures forall i :: 0 <= i < k ==> diffs[i].value < diffs[k].value
  {
    if |diffs| == 1 then 0
    else
      var best := MostProblematic(diffs[..|diffs| - 1]);
      if diffs[|diffs| - 1].value > diffs[best].value then |diffs| - 1 else best
  }

  /** The JSON fields of an evaluation request; None where a field is absent or `null`. */
  datatype PoseRequest = PoseRequest(isJson: bool, userPose: Option<PosePayload>, referencePose: Option<PosePayload>)

  /** Both poses present, non-empty and with at least 33 entries. */
  predicate PosesValid(req: PoseRequest)
  {
    && req.userPose.Some? && req.referencePose.Some?
    && |req.userPose.value| >= PoseSize && |req.referencePose.value| >= PoseSize
  }

  /** What `evaluate_pose` decides before it would call the language model. */
  datatype Verdict =
    | NotJson
    | InvalidPoses
    | Perfect
    | Correct(joint: nat, userAngle: real, referenceAngle: real)

  /**
   * The decision `evaluate_pose` takes on the two poses' angles: "perfect"
   * when every known difference is below 5 degrees, otherwise the joint with
   * the largest difference, with its two angles.
   */
  function Decide(ua: seq<Option<real>>, ra: seq<Option<real>>): (verdict: Verdict)
    requires |ua| == |ra|
    ensures verdict.Perfect? || verdict.Correct?
    ensures verdict.Correct? ==>
              && verdict.joint < |ua|
              && ua[verdict.joint] == Some(verdict.userAngle) && ra[verdict.joint] == Some(verdict.referenceAngle)
              && Abs(verdict.userAngle - verdict.referenceAngle) >= Tolerance
  {
    var diffs := AngleDiffs(ua, ra);
    if AllWithinTolerance(diffs) then Perfect
    else
      var k := MostProblematic(diffs);
      var j := diffs[k].joint;
      Correct(j, ua[j].value, ra[j].value)
  }

  /**
   * The verdict is "perfect" exactly when every joint with two known angles
   * differs by less than 5 degrees, which includes the case where no joint
   * has two known angles.
   */
  lemma PerfectExactlyWithinTolerance(ua: seq<Option<real>>, ra: seq<Option<real>>)
    requires |ua| == |ra|
    ensures Decide(ua, ra) == Perfect <==>
              forall i :: 0 <= i < |ua| && ua[i].Some? && ra[i].Some? ==> Abs(ua[i].value - ra[i].value) < Tolerance
  {
    var diffs := AngleDiffs(ua, ra);
    if !AllWithinTolerance(diffs) {
      var k :| 0 <= k < |diffs| && diffs[k].value >= Tolerance;
      assert Abs(ua[diffs[k].joint].value - ra[diffs[k].joint].value) >= Tolerance;
    } else {
      forall i | 0 <= i < |ua| && ua[i].Some? && ra[i].Some?
        ensures Abs(ua[i].value - ra[i].value) < Tolerance
      {
        AngleDiffsComplete(ua, ra, i);
      }
    }
  }

  /**
   * The joint sent for correction has the largest difference of all joints
   * with two known angles, and every joint before it in dictionary order has
   * a strictly smaller one.
   */
  lemma CorrectionTargetsLargestDifference(ua: seq<Option<real>>, ra: seq<Option<real>>)
    requires |ua| == |ra|
    requires Decide(ua, ra).Correct?
    ensures var v := Decide(ua, ra);
            forall i :: 0 <= i < |ua| && ua[i].Some? && ra[i].Some? ==>
              && Abs(ua[i].value - ra[i].value) <= Abs(v.userAngle - v.referenceAngle)
              && (i < v.joint ==> Abs(ua[i].value - ra[i].value) < Abs(v.userAngle - v.referenceAngle))
  {
    var diffs := AngleDiffs(ua, ra);
    var k := MostProblematic(diffs);
    forall i | 0 <= i < |ua| && ua[i].Some? && ra[i].Some?
      ensures Abs(ua[i].value - ra[i].value) <= diffs[k].value
      ensures i < diffs[k].joint ==> Abs(ua[i].value - ra[i].value) < diffs[k].value
    {
      DiffAgainstLargest(ua, ra, i);
    }
  }

  /** One joint compared with the entry `max` picks. */
  lemma DiffAgainstLargest(ua: seq<Option<real>>, ra: seq<Option<real>>, i: nat)
    requires |ua| == |ra| && i < |ua| && ua[i].Some? && ra[i].Some?
    requires |AngleDiffs(ua, ra)| > 0
    ensures var diffs := AngleDiffs(ua, ra);
            var k := MostProblematic(diffs);
            && Abs(ua[i].value - ra[i].value) <= diffs[k].value
            && (i < diffs[k].joint ==> Abs(ua[i].value - ra[i].value) < diffs[k].value)
  {
    var diffs := AngleDiffs(ua, ra);
    var k := MostProblematic(diffs);
    AngleDiffsComplete(ua, ra, i);
    var m :| 0 <= m < |diffs| && diffs[m].joint == i;
    if i < diffs[k].joint {
      assert m < k;
    }
  }

  /**
   * The checks of `evaluate_pose` and its decision: reject a body that is not
   * JSON or lacks a usable pose, before any angle is computed; otherwise
   * decide on the angles of the eight joints of both poses.
   */
  function Assess(sqrt: real -> real, acos: real -> real, req: PoseRequest): (verdict: Verdict)
    requires IsSqrt(sqrt) && IsAcos(acos)
    ensures verdict == NotJson <==> !req.isJson
    ensures verdict == InvalidPoses <==> req.isJson && !PosesValid(req)
    ensures verdict.Correct? ==>
              && verdict.joint < |AllJoints|
              && 0.0 <= verdict.userAngle <= 180.0 && 0.0 <= verdict.referenceAngle <= 180.0
              && Abs(verdict.userAngle - verdict.referenceAngle) >= Tolerance
  {
    if !req.isJson then NotJson
    else if !PosesValid(req) then InvalidPoses
    else Decide(ServerAngles(sqrt, acos, req.userPose.value), ServerAngles(sqrt, acos, req.referencePose.value))
  }

  /**
   * `evaluate_pose`: 400 for a bad request, the fixed "perfect" feedback,
   * the language model's suggestion for the worst joint, or 500 when the
   * model call fails.
   */
  function EvaluatePose(sqrt: real -> real, acos: real -> real, model: (string, real, real) -> Option<string>, req: PoseRequest)
    : (reply: Reply)
    requires IsSqrt(sqrt) && IsAcos(acos)
    ensures reply.status == 400 <==> !req.isJson || !PosesValid(req)
    ensures reply.status == 400 ==> reply.body.ErrorBody?
    ensures reply.status == 500 ==> reply.body == ErrorBody(ModelError)
    ensures reply.status in {200, 400, 500}
    ensures reply.status == 200 ==> reply.body.FeedbackBody?
    ensures !req.isJson ==> reply == Reply(400, ErrorBody(NotJsonError))
    ensures req.isJson && !PosesValid(req) ==> reply == Reply(400, ErrorBody(InvalidPoseError))
    ensures Assess(sqrt, acos, req) == Perfect ==> reply == Reply(200, FeedbackBody(PerfectMessage))
    ensures var v := Assess(sqrt, acos, req);
            v.Correct? ==>
              var answer := model(ServerKey(AllJoints[v.joint]), v.userAngle, v.referenceAngle);
              reply == if answer.Some? then Reply(200, FeedbackBody(answer.value)) else Reply(500, ErrorBody(ModelError))
  {
    match Assess(sqrt, acos, req)
    case NotJson => Reply(400, ErrorBody(NotJsonError))
    case InvalidPoses => Reply(400, ErrorBody(InvalidPoseError))
    case Perfect => Reply(200, FeedbackBody(PerfectMessage))
    case Correct(j, userAngle, referenceAngle) =>
      match model(ServerKey(AllJoints[j]), userAngle, referenceAngle)
      case Some(text) => Reply(200, FeedbackBody(text))
      case None => Reply(500, ErrorBody(ModelError))
  }

  /**
   * A rejected request computes no angle and a perfect pose never reaches
   * the language model: in both cases the reply is the same whatever the
   * angle functions and the model do.
   */
  lemma ModelConsultedOnlyForCorrections(
    sqrt1: real -> real, acos1: real -> real, model1: (string, real, real) -> Option<string>,
    sqrt2: real -> real, acos2: real -> real, model2: (string, real, real) -> Option<string>,
    req: PoseRequest)
    requires IsSqrt(sqrt1) && IsAcos(acos1) && IsSqrt(sqrt2) && IsAcos(acos2)
    ensures !req.isJson || !PosesValid(req) ==>
              EvaluatePose(sqrt1, acos1, model1, req) == EvaluatePose(sqrt2, acos2, model2, req)
    ensures Assess(sqrt1, acos1, req) == Perfect ==>
              EvaluatePose(sqrt1, acos1, model1, req) == EvaluatePose(sqrt1, acos1, model2, req)
              == Reply(200, FeedbackBody(PerfectMessage))
  {
  }

  /** The JSON field of a chat request; None where it is absent or `null`. */
  datatype ChatRequest = ChatRequest(isJson: bool, message: Option<string>)

  /**
   * `chat`: 400 unless the body is JSON with a non-empty `message`; then the
   * model's answer, or 500 when the call fails.
   */
  function Chat(model: string -> Option<string>, req: ChatRequest): (reply: Reply)
    ensures reply.status == 400 <==> !req.isJson || req.message.None? || req.message.value == ""
    ensures reply.status == 200 ==>
              req.message.Some? && reply.body.ResponseBody? && model(req.message.value) == Some(reply.body.response)
    ensures reply.status == 500 ==>
              req.message.Some? && model(req.message.value).None? && reply.body == ErrorBody(ChatError)
  {
    if !req.isJson then Reply(400, ErrorBody(NotJsonError))
    else if req.message.None? || req.message.value == "" then Reply(400, ErrorBody(MessageRequiredError))
    else
      match model(req.message.value)
      case Some(text) => Reply(200, ResponseBody(text))
      case None => Reply(500, ErrorBody(ChatError))
  }
}
