/**
 * The browser session of app.js: the reference frame lookup, the feedback
 * throttle, one tick of the 500 ms evaluation loop, and the step, speed and
 * song controls. The React state the component keeps (`accuracy`,
 * `geminiFeedback`, `geminiLoading`, `lastFeedbackTime`, `currentStep`,
 * `started`, the playback rate and the song index) are the fields of `Session`.
 */
module DanceSession {

  import opened Wrappers
  import opened Trig
  import opened PoseSimilarity

  /** `videoSources.length`: the number of dance steps. */
  const StepCount: int := 6

  /** `songSources.length`. */
  const SongCount: int := 3

  /** The reference file names derived from `videoSources`, step by step. */
  const VideoNames: seq<string> := ["dance1", "dance2", "dance3", "dance4", "dance5", "dance6"]

  /** Reference samples per second of playback. */
  const Fps: int := 30

  /** Minimum spacing of two feedback requests, in milliseconds. */
  const FeedbackInterval: int := 3000

  const NotVisibleMessage: string := "Kamerada görünmüyorsunuz. Lütfen doğru şekilde pozisyon alın."
  const ApologyMessage: string := "Geri bildirim için API'ye bağlanılamadı."

  const MinRate: real := 0.25
  const MaxRate: real := 3.0
  const RateStep: real := 0.25

  /** One entry of a reference file; `landmarks` is None when the entry or its field is missing. */
  datatype Frame = Frame(landmarks: Option<Pose>)

  /** The pre-recorded samples of one clip, 30 per second. */
  type Segment = seq<Frame>

  /** What the tick reads from the reference video element. */
  datatype RefVideo = RefVideo(paused: bool, ended: bool, currentTime: real)

  /** The body of the request to the pose evaluation endpoint. */
  datatype FeedbackRequest = FeedbackRequest(userPose: Pose, referencePose: Pose)

  /**
   * How a feedback request ended: an HTTP response with its status and the
   * `feedback` and `error` fields of its JSON body, or a transport failure
   * (no response, or a body that is not JSON).
   */
  datatype Outcome =
    | Received(status: int, feedback: Option<string>, error: Option<string>)
    | TransportFailure

  /** JavaScript truthiness of an optional string field. */
  predicate Truthy(field: Option<string>)
  {
    field.Some? && field.value != ""
  }

  /**
   * The text the feedback panel shows once a request has ended: the
   * `feedback` field, else the `error` field, of a successful response; the
   * fixed apology otherwise. Something is always shown, and it comes from the
   * response or is the apology.
   */
  function FeedbackText(outcome: Outcome): (text: string)
    ensures text != ""
    ensures text == ApologyMessage
         || (outcome.Received? && 200 <= outcome.status < 300
             && (Some(text) == outcome.feedback || Some(text) == outcome.error))
    ensures outcome.Received? && 200 <= outcome.status < 300 && Truthy(outcome.feedback) ==>
              text == outcome.feedback.value
    ensures outcome.Received? && 200 <= outcome.status < 300 && !Truthy(outcome.feedback) && Truthy(outcome.error) ==>
              text == outcome.error.value
    ensures outcome.TransportFailure? || !(200 <= outcome.status < 300)
            || (!Truthy(outcome.feedback) && !Truthy(outcome.error)) ==>
              text == ApologyMessage
  {
    match outcome
    case TransportFailure => ApologyMessage
    case Received(status, feedback, error) =>
      if !(200 <= status < 300) then ApologyMessage
      else if Truthy(feedback) then feedback.value
      else if Truthy(error) then error.value
      else ApologyMessage
  }

  /** `Math.floor(currentRefTime * videoFps)`: the sample taken at or just before `t`. */
  function FrameIndex(t: real): (i: int)
    ensures i as real <= t * Fps as real < i as real + 1.0
  {
    (t * Fps as real).Floor
  }

  /** Later playback never selects an earlier sample. */
  lemma FrameIndexMonotonic(t1: real, t2: real)
    requires t1 <= t2
    ensures FrameIndex(t1) <= FrameIndex(t2)
  {
  }

  /** The lookup in the active clip's reference samples. */
  function ResolveFrame(frames: Segment, t: real): (pose: Option<Pose>)
    ensures pose.Some? ==> 0 <= FrameIndex(t) < |frames| && frames[FrameIndex(t)].landmarks == pose
    ensures t * Fps as real >= |frames| as real ==> pose.None?
    ensures t < 0.0 ==> pose.None?
    ensures 0.0 <= t && t * Fps as real < |frames| as real ==> pose == frames[FrameIndex(t)].landmarks
  {
    var i := FrameIndex(t);
    if i >= |frames| || i < 0 then None else frames[i].landmarks
  }

  /** A 5-second clip played to the 2-second mark shows sample 60. */
  lemma FrameAtTwoSeconds(frames: Segment)
    requires |frames| == 150
    ensures ResolveFrame(frames, 2.0) == frames[60].landmarks
  {
  }

  /** The reference pose the tick compares against, or None when there is none. */
  function ReferencePose(segments: map<string, Segment>, step: int, t: real): (pose: Option<Pose>)
    requires 1 <= step <= StepCount
    ensures VideoNames[step - 1] !in segments ==> pose.None?
    ensures VideoNames[step - 1] in segments ==> pose == ResolveFrame(segments[VideoNames[step - 1]], t)
  {
    var name := VideoNames[step - 1];
    if name !in segments then None else ResolveFrame(segments[name], t)
  }

  /** Whether the reference video is running: present, not paused and not ended. */
  predicate Playing(video: Option<RefVideo>)
  {
    video.Some? && !video.value.paused && !video.value.ended
  }

  /** The step after `step`: the next one, or back to the first after the last. */
  function NextStep(step: int): (next: int)
    requires 1 <= step <= StepCount
    ensures 1 <= next <= StepCount
    ensures next == 1 <==> step == StepCount
  {
    if step < StepCount then step + 1 else 1
  }

  /** A rate the speed buttons can reach from the initial rate 1: a multiple of 0.25 in [0.25, 3]. */
  ghost predicate RateOk(rate: real)
  {
    MinRate <= rate <= MaxRate && (rate * 4.0).Floor as real == rate * 4.0
  }

  /** `increaseSpeed`: a quarter faster, at most 3. */
  function Faster(rate: real): (r: real)
    ensures r <= MaxRate
    ensures RateOk(rate) ==> RateOk(r) && r >= rate
  {
    Min(rate + RateStep, MaxRate)
  }

  /** `decreaseSpeed`: a quarter slower, at least 0.25. */
  function Slower(rate: real): (r: real)
    ensures r >= MinRate
    ensures RateOk(rate) ==> RateOk(r) && r <= rate
  {
    Max(rate - RateStep, MinRate)
  }

  /** Slowing down undoes speeding up except at the top rate, and the other way round except at the bottom. */
  lemma SpeedRoundTrip(rate: real)
    requires RateOk(rate)
    ensures Slower(Faster(rate)) == rate <==> rate < MaxRate
    ensures Faster(Slower(rate)) == rate <==> rate > MinRate
  {
    var k := (rate * 4.0).Floor;
    assert k as real == rate * 4.0;
    if rate < MaxRate {
      assert k < 12;
    }
    if rate > MinRate {
      assert k > 1;
    }
  }

  /** `playNextSong`. */
  function NextSong(index: int): (next: int)
    requires 0 <= index < SongCount
    ensures 0 <= next < SongCount
  {
    (index + 1) % SongCount
  }

  /** `playPrevSong`. */
  function PrevSong(index: int): (prev: int)
    requires 0 <= index < SongCount
    ensures 0 <= prev < SongCount
  {
    (index - 1 + SongCount) % SongCount
  }

  /** The previous-song button undoes the next-song button and vice versa. */
  lemma SongRoundTrip(index: int)
    requires 0 <= index < SongCount
    ensures PrevSong(NextSong(index)) == index
    ensures NextSong(PrevSong(index)) == index
  {
  }

  class Session {
    var started: bool
    var currentStep: int
    var accuracy: int
    var feedback: string
    /** `geminiLoading`: a feedback request is outstanding. */
    var inFlight: bool
    /** `lastFeedbackTime`, in milliseconds. */
    var lastFeedbackTime: int
    /** `refVideoRate`: the rate the speed display shows and a freshly loaded clip adopts. */
    var playbackRate: real
    /**
     * The `playbackRate` of the reference video element, None while no
     * element is mounted. The element exists exactly while the dance runs and
     * is replaced, at rate 1, whenever the step changes.
     */
    var elementRate: Option<real>
    var songIndex: int

    ghost predicate Valid()
      reads this
    {
      && 1 <= currentStep <= StepCount
      && 0 <= accuracy <= 100
      && RateOk(playbackRate)
      && (elementRate.Some? <==> started)
      && (elementRate.Some? ==> RateOk(elementRate.value))
      && 0 <= songIndex < SongCount
    }

    /** Whether a feedback request may be issued at time `now`. */
    predicate ThrottleOpen(now: int)
      reads this
    {
      !inFlight && now - lastFeedbackTime >= FeedbackInterval
    }

    /** The component's initial state. */
    constructor ()
      ensures Valid()
      ensures !started && currentStep == 1 && accuracy == 0 && feedback == ""
      ensures !inFlight && lastFeedbackTime == 0
      ensures playbackRate == 1.0 && elementRate.None? && songIndex == 0
    {
      started, currentStep, accuracy, feedback := false, 1, 0, "";
      inFlight, lastFeedbackTime := false, 0;
      playbackRate, elementRate, songIndex := 1.0, None, 0;
    }

    /**
     * `startDance`: begin at the first step with an empty feedback panel. A
     * reference element is mounted, at rate 1, unless the dance already runs
     * at the first step.
     */
    method StartDance()
      requires Valid()
      modifies this`started, this`currentStep, this`feedback, this`elementRate
      ensures Valid()
      ensures started && currentStep == 1 && feedback == ""
      ensures elementRate == if old(started) && old(currentStep) == 1 then old(elementRate) else Some(1.0)
    {
      if !started || currentStep != 1 {
        elementRate := Some(1.0);
      }
      started, currentStep, feedback := true, 1, "";
    }

    /**
     * `skipToNext`: the next step with score and feedback cleared, or, after
     * the last step, back to the first with the session stopped. Neither
     * branch touches the feedback throttle. The new step's reference element
     * starts at rate 1; after the last step the element goes away.
     */
    method SkipToNext()
      requires Valid() && started
      modifies this`started, this`currentStep, this`accuracy, this`feedback, this`elementRate
      ensures Valid()
      ensures currentStep == NextStep(old(currentStep))
      ensures old(currentStep) < StepCount ==>
                started && accuracy == 0 && feedback == "" && elementRate == Some(1.0)
      ensures old(currentStep) == StepCount ==>
                !started && accuracy == old(accuracy) && feedback == old(feedback) && elementRate.None?
    {
      if currentStep < StepCount {
        currentStep, accuracy, feedback := currentStep + 1, 0, "";
        elementRate := Some(1.0);
      } else {
        currentStep, started := 1, false;
        elementRate := None;
      }
    }

    /** `onLoadedData` of the reference element: it adopts the displayed rate. */
    method ReferenceLoaded()
      requires Valid()
      modifies this`elementRate
      ensures Valid()
      ensures elementRate == if old(elementRate).Some? then Some(playbackRate) else None
    {
      if elementRate.Some? {
        elementRate := Some(playbackRate);
      }
    }

    /**
     * `increaseSpeed`: the element's own rate, a quarter faster, becomes both
     * the element's and the displayed rate; nothing happens without an element.
     */
    method IncreaseSpeed()
      requires Valid()
      modifies this`playbackRate, this`elementRate
      ensures Valid()
      ensures old(elementRate).None? ==> playbackRate == old(playbackRate) && elementRate.None?
      ensures old(elementRate).Some? ==>
                playbackRate == Faster(old(elementRate).value) && elementRate == Some(playbackRate)
    {
      if elementRate.Some? {
        playbackRate := Faster(elementRate.value);
        elementRate := Some(playbackRate);
      }
    }

    /**
     * `decreaseSpeed`: the element's own rate, a quarter slower, becomes both
     * the element's and the displayed rate; nothing happens without an element.
     */
    method DecreaseSpeed()
      requires Valid()
      modifies this`playbackRate, this`elementRate
      ensures Valid()
      ensures old(elementRate).None? ==> playbackRate == old(playbackRate) && elementRate.None?
      ensures old(elementRate).Some? ==>
                playbackRate == Slower(old(elementRate).value) && elementRate == Some(playbackRate)
    {
      if elementRate.Some? {
        playbackRate := Slower(elementRate.value);
        elementRate := Some(playbackRate);
      }
    }

    method PlayNextSong()
      requires Valid()
      modifies this`songIndex
      ensures Valid()
      ensures songIndex == NextSong(old(songIndex))
    {
      songIndex := NextSong(songIndex);
    }

    method PlayPrevSong()
      requires Valid()
      modifies this`songIndex
      ensures Valid()
      ensures songIndex == PrevSong(old(songIndex))
    {
      songIndex := PrevSong(songIndex);
    }

    /**
     * `evaluateAndGetFeedback` up to the point where it awaits the server.
     * A closed throttle makes it a no-op. Past the throttle, a missing user
     * pose shows the "not visible" message and zeroes the score without
     * touching the timer; otherwise the request is issued, with the in-flight
     * flag set and the timer restarted.
     */
    method EvaluateAndGetFeedback(now: int, userPose: Option<Pose>, refPose: Pose)
      returns (request: Option<FeedbackRequest>)
      requires Valid()
      modifies this`accuracy, this`feedback, this`inFlight, this`lastFeedbackTime
      ensures Valid()
      ensures request.Some? <==> old(ThrottleOpen(now)) && userPose.Some?
      ensures !old(ThrottleOpen(now)) ==> unchanged(this)
      ensures old(ThrottleOpen(now)) && userPose.None? ==>
                feedback == NotVisibleMessage && accuracy == 0
                && inFlight == old(inFlight) && lastFeedbackTime == old(lastFeedbackTime)
      ensures request.Some? ==>
                request.value == FeedbackRequest(userPose.value, refPose)
                && inFlight && lastFeedbackTime == now
                && feedback == old(feedback) && accuracy == old(accuracy)
    {
      if inFlight || now - lastFeedbackTime < FeedbackInterval {
        return None;
      }
      if userPose.None? {
        feedback, accuracy := NotVisibleMessage, 0;
        return None;
      }
      inFlight, lastFeedbackTime := true, now;
      request := Some(FeedbackRequest(userPose.value, refPose));
    }

    /** The end of an issued request: show what came back and clear the in-flight flag. */
    method CompleteFeedback(outcome: Outcome)
      requires Valid()
      modifies this`feedback, this`inFlight
      ensures Valid()
      ensures feedback == FeedbackText(outcome) && !inFlight
    {
      feedback, inFlight := FeedbackText(outcome), false;
    }

    /**
     * `mainEvaluationLoop`: one tick of the 500 ms evaluation loop, given the
     * reference video element, the loaded reference segments, the latest
     * user pose and the clock. A stopped reference clears score and
     * feedback; missing data zeroes the score only; otherwise the score is
     * published and the throttle consulted. Since the user pose is present by
     * then, the "not visible" branch of the throttle cannot fire here.
     */
    method Tick(atan2: (real, real) -> real, video: Option<RefVideo>, segments: map<string, Segment>,
                userPose: Option<Pose>, now: int)
      returns (request: Option<FeedbackRequest>)
      requires Valid() && started && IsAtan2(atan2)
      modifies this`accuracy, this`feedback, this`inFlight, this`lastFeedbackTime
      ensures Valid()
      ensures !Playing(video) ==>
                accuracy == 0 && feedback == "" && request.None?
                && inFlight == old(inFlight) && lastFeedbackTime == old(lastFeedbackTime)
      ensures Playing(video) ==> feedback == old(feedback)
      ensures Playing(video) && (userPose.None? || ReferencePose(segments, currentStep, video.value.currentTime).None?) ==>
                accuracy == 0 && request.None?
                && inFlight == old(inFlight) && lastFeedbackTime == old(lastFeedbackTime)
      ensures Playing(video) && userPose.Some? && ReferencePose(segments, currentStep, video.value.currentTime).Some? ==>
                var reference := ReferencePose(segments, currentStep, video.value.currentTime);
                && accuracy == Similarity(atan2, userPose, reference)
                && (request.Some? <==> old(ThrottleOpen(now)))
                && (request.Some? ==>
                      request.value == FeedbackRequest(userPose.value, reference.value)
                      && inFlight && lastFeedbackTime == now)
                && (request.None? ==> inFlight == old(inFlight) && lastFeedbackTime == old(lastFeedbackTime))
    {
      if video.None? || video.value.paused || video.value.ended {
        accuracy, feedback := 0, "";
        return None;
      }
      var name := VideoNames[currentStep - 1];
      if userPose.None? || name !in segments {
        accuracy := 0;
        return None;
      }
      var frames := segments[name];
      var frameNumber := FrameIndex(video.value.currentTime);
      if frameNumber >= |frames| || frameNumber < 0 {
        accuracy := 0;
        return None;
      }
      var relevantReferencePose := frames[frameNumber].landmarks;
      if relevantReferencePose.None? {
        accuracy := 0;
        return None;
      }
      accuracy := CalculatePoseSimilarity(atan2, userPose, relevantReferencePose);
      request := EvaluateAndGetFeedback(now, userPose, relevantReferencePose.value);
    }
  }

  /**
   * Two feedback attempts with a visible user, `gap` milliseconds apart: the
   * first is sent; the second is sent exactly when the first has completed
   * and at least 3000 ms have passed.
   */
  method ThrottleSpacing(t0: int, gap: int, pose: Pose, reference: Pose, completeFirst: bool, outcome: Outcome)
    returns (firstSent: bool, secondSent: bool)
    requires t0 >= FeedbackInterval
    ensures firstSent
    ensures secondSent <==> completeFirst && gap >= FeedbackInterval
  {
    var session := new Session();
    var first := session.EvaluateAndGetFeedback(t0, Some(pose), reference);
    if completeFirst {
      session.CompleteFeedback(outcome);
    }
    var second := session.EvaluateAndGetFeedback(t0 + gap, Some(pose), reference);
    firstSent, secondSent := first.Some?, second.Some?;
  }

  /**
   * A completed request, then the user leaves the frame `gap` milliseconds
   * later: the "not visible" message replaces the response only once the
   * throttle has reopened.
   */
  method HiddenUserAfterFeedback(t0: int, gap: int, pose: Pose, reference: Pose, outcome: Outcome)
    returns (shown: string, score: int)
    requires t0 >= FeedbackInterval
    ensures gap >= FeedbackInterval ==> shown == NotVisibleMessage && score == 0
    ensures gap < FeedbackInterval ==> shown == FeedbackText(outcome)
  {
    var session := new Session();
    var first := session.EvaluateAndGetFeedback(t0, Some(pose), reference);
    session.CompleteFeedback(outcome);
    var second := session.EvaluateAndGetFeedback(t0 + gap, None, reference);
    shown, score := session.feedback, session.accuracy;
  }

  /**
   * The speed buttons read the element's own rate. Right after a step change
   * the new element still runs at rate 1 until it has loaded, so a click in
   * that window starts again from 1, while a click after loading continues
   * from the displayed rate.
   */
  method SpeedClickAcrossStepChange() returns (beforeSkip: real, clickBeforeLoad: real, clickAfterLoad: real)
    ensures beforeSkip == 1.5
    ensures clickBeforeLoad == 1.25
    ensures clickAfterLoad == 1.75
  {
    var early := new Session();
    early.StartDance();
    early.ReferenceLoaded();
    early.IncreaseSpeed();
    early.IncreaseSpeed();
    beforeSkip := early.playbackRate;
    early.SkipToNext();
    early.IncreaseSpeed();
    clickBeforeLoad := early.playbackRate;

    var late := new Session();
    late.StartDance();
    late.ReferenceLoaded();
    late.IncreaseSpeed();
    late.IncreaseSpeed();
    late.SkipToNext();
    late.ReferenceLoaded();
    late.IncreaseSpeed();
    clickAfterLoad := late.playbackRate;
  }
}
