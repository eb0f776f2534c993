/**
 * The pose evaluation endpoint of app.py seen from the browser session of
 * app.js: the JSON reply becomes the outcome the feedback handler reads,
 * and `FeedbackText` turns it into the text the panel shows.
 */
module FeedbackPipeline {

  import opened Wrappers
  import opened Trig
  import Skeleton
  import PoseEvaluation
  import DanceSession

  /**
   * The reply as `response.json()` hands it to the handler: the status, and
   * the `feedback` and `error` fields of the single-field body.
   */
  function AsOutcome(reply: PoseEvaluation.Reply): (outcome: DanceSession.Outcome)
    ensures outcome.Received? && outcome.status == reply.status
    ensures outcome.feedback.Some? <==> reply.body.FeedbackBody?
    ensures outcome.error.Some? <==> reply.body.ErrorBody?
  {
    match reply.body
    case FeedbackBody(text) => DanceSession.Received(reply.status, Some(text), None)
    case ResponseBody(_) => DanceSession.Received(reply.status, None, None)
    case ErrorBody(text) => DanceSession.Received(reply.status, None, Some(text))
  }

  /** The text the panel shows once the evaluation request for `req` has been answered. */
  function Shown(sqrt: real -> real, acos: real -> real, model: (string, real, real) -> Option<string>,
                 req: PoseEvaluation.PoseRequest): (text: string)
    requires IsSqrt(sqrt) && IsAcos(acos)
    ensures text != ""
  {
    DanceSession.FeedbackText(AsOutcome(PoseEvaluation.EvaluatePose(sqrt, acos, model, req)))
  }

  /**
   * Every error reply carries a non-2xx status, so the panel never shows
   * the server's error texts: a rejected request and a failed model call
   * both end in the fixed apology.
   */
  lemma ErrorRepliesShowApology(sqrt: real -> real, acos: real -> real, model: (string, real, real) -> Option<string>,
                                req: PoseEvaluation.PoseRequest)
    requires IsSqrt(sqrt) && IsAcos(acos)
    ensures PoseEvaluation.EvaluatePose(sqrt, acos, model, req).body.ErrorBody? ==>
              Shown(sqrt, acos, model, req) == DanceSession.ApologyMessage
    ensures !req.isJson || !PoseEvaluation.PosesValid(req) ==>
              Shown(sqrt, acos, model, req) == DanceSession.ApologyMessage
  {
    var reply := PoseEvaluation.EvaluatePose(sqrt, acos, model, req);
    if reply.body.ErrorBody? {
      assert reply.status != 200;
    }
  }

  /**
   * A perfect pose shows the fixed praise; a correction shows the model's
   * text, unless the model failed or answered with an empty text, which
   * ends in the apology.
   */
  lemma VerdictShown(sqrt: real -> real, acos: real -> real, model: (string, real, real) -> Option<string>,
                     req: PoseEvaluation.PoseRequest)
    requires IsSqrt(sqrt) && IsAcos(acos)
    ensures PoseEvaluation.Assess(sqrt, acos, req) == PoseEvaluation.Perfect ==>
              Shown(sqrt, acos, model, req) == PoseEvaluation.PerfectMessage
    ensures var v := PoseEvaluation.Assess(sqrt, acos, req);
            v.Correct? ==>
              var answer := model(Skeleton.ServerKey(Skeleton.AllJoints[v.joint]), v.userAngle, v.referenceAngle);
              Shown(sqrt, acos, model, req)
              == if answer.Some? && answer.value != "" then answer.value else DanceSession.ApologyMessage
  {
  }
}
