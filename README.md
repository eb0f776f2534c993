# Dance coach: pose comparison and feedback throttling

The application coaches a dancer in front of a camera. A browser page (app.js)
plays a reference clip for each of six dance steps and extracts the user's
33-landmark pose. Every 500 ms it compares that pose with the pre-recorded
reference pose for the current playback time. From eight joint angles it
computes a 0–100 accuracy score. At most every three seconds it asks a Flask
server (app.py) for spoken-style feedback. The server recomputes the eight
angles with its own angle formula. If every joint is within 5 degrees, it
answers with fixed praise. Otherwise it asks a language model about the joint
that differs most.

This project models that core in Dafny:

- `Trig` (trig.dfy): `Math.atan2`, `math.acos` and `math.sqrt` are function
  parameters. Only their ranges are assumed: atan2 lies in [-π, π], acos lies
  in [0, π] on [-1, 1], and sqrt is non-negative and zero only at zero.
- `Skeleton` (skeleton.dfy): the eight joints and their landmark index
  triples, which the two sources share, and the server's dictionary keys.
- `PoseSimilarity` (similarity.dfy): the browser's `getAngle` and
  `calculatePoseSimilarity`. The latter's accumulating loop is a method proved
  against a specification function `Similarity`.
- `DanceSession` (session.dfy): the browser session state as a class
  `Session`. Its methods are the feedback throttle, the completion of a
  feedback request, one evaluation tick, and the step, speed and song
  controls. The reference frame lookup and the speed and song arithmetic are
  functions beside it.
- `PoseEvaluation` (evaluation.dfy): the server's `calculate_angle`,
  `evaluate_pose` and `chat`. They are pure functions; the language model is a
  function parameter whose None result stands for a raised exception.
- `FeedbackPipeline` (pipeline.dfy): what the browser's feedback panel shows
  for each reply of `evaluate_pose`.

The asynchronous feedback request is two events on `Session`.
`EvaluateAndGetFeedback` sets the in-flight flag, restarts the timer and
returns the request to send. `CompleteFeedback` takes the response's outcome,
shows its text and clears the flag. The clock (`Date.now()`) is a parameter.

Behaviours of the code worth knowing, all of which the model keeps:

- In `evaluateAndGetFeedback`, the "not visible" message comes after the
  throttle check (app.js:319-327). A closed throttle therefore suppresses it
  as well.
- The tick returns early when there is no user pose (app.js:381-384), so from
  the tick the "not visible" branch can never fire. `Session.Tick` states this:
  while the reference plays, the tick never changes the feedback text.
- The tick clears the feedback text only when the reference video is missing,
  paused or ended (app.js:370-374). Missing data only zeroes the score.
- `skipToNext` resets neither the feedback timer nor, on the wrap-around from
  the last step, the score and the feedback text (app.js:115-125).
- Every error reply of the server carries a non-2xx status. The browser turns
  any non-2xx status into its own apology (app.js:343-345), so the server's
  error texts are never shown (`FeedbackPipeline.ErrorRepliesShowApology`).
- The server's dictionary calls the 11-13-15 triple "sağ_dirsek" (right elbow),
  while the browser calls the same triple `leftElbow`. The triples agree and
  only the names differ.
- The speed buttons start from the reference element's own rate, not from the
  displayed rate (app.js:131, app.js:138). The element is replaced on every
  step change (app.js:541) and runs at rate 1 until it has loaded and adopted
  the displayed rate (app.js:551-554). A click in that window therefore starts
  again from 1 (`DanceSession.SpeedClickAcrossStepChange`).

## Model

| member | source | states |
|---|---|---|
| Skeleton.Landmarks | app.js:284-293 | every joint's three landmark indices are distinct and below 33, so both sources index inside a validated pose |
| Skeleton.ServerKey | app.py:169-176 | the server's key for a joint starts with "sağ_" (right) exactly when the triple's vertex is odd-numbered, else with "sol_" (left) |
| Skeleton.ServerKeyInjective | app.py:169-176 | distinct joints have distinct keys, so each dictionary holds one entry per joint |
| PoseSimilarity.GetAngle | app.js:268-279 | the angle is always in [0, 180]; it is 0 whenever a landmark is absent or has visibility below 0.5 |
| PoseSimilarity.GetAngleSymmetric | app.js:273-278 | swapping the two outer landmarks leaves the angle unchanged |
| PoseSimilarity.ClosedJointReadsAsMissing | app.js:269-278 | a fully closed joint (both outer landmarks at the same place) gives 0, the same value as a missing landmark |
| PoseSimilarity.JointAngles | app.js:284-296 | eight angles, one per joint in key order, each in [0, 180] |
| PoseSimilarity.ValidCount | app.js:298-307 | the number of contributing joints never exceeds the number of joints |
| PoseSimilarity.DiffSum | app.js:298-307 | the accumulated difference is never negative |
| PoseSimilarity.Score | app.js:309-314 | the score is an integer in [0, 100], and 0 when no joint contributes |
| PoseSimilarity.Similarity | app.js:281-282 | the score is in [0, 100], and 0 when either pose is absent |
| PoseSimilarity.SumDifferences | app.js:298-307 | the loop's sum and count equal the specification functions `DiffSum` and `ValidCount` |
| PoseSimilarity.CalculatePoseSimilarity | app.js:281-315 | the method's result is `Similarity` of its two poses |
| PoseSimilarity.ValidCountSymmetric | app.js:302 | a joint contributes in the pair (u, r) exactly when it does in (r, u) |
| PoseSimilarity.DiffSumSymmetric | app.js:303-304 | the accumulated absolute difference does not depend on the order of the poses |
| PoseSimilarity.SimilaritySymmetric | app.js:281-315 | the score is symmetric in its two pose arguments |
| PoseSimilarity.DiffSumOfAgreement | app.js:302-304 | if every contributing joint has equal angles, the difference sum is 0 |
| PoseSimilarity.ScoreOfAgreement | app.js:309-314 | if some joint contributes and every contributing joint agrees, the score is 100 |
| PoseSimilarity.ValidCountPositive | app.js:302-309 | the count is positive exactly when some joint has both angles strictly positive |
| PoseSimilarity.ScoreOfSelf | app.js:302-314 | an angle vector scored against itself gives 100 if some angle is positive, else 0 |
| PoseSimilarity.SamePoseScoresFull | app.js:281-315 | a pose scored against itself gives 100 when one of its joint angles is positive |
| PoseSimilarity.SamePoseWithoutAnglesScoresZero | app.js:281-315 | a pose all of whose joint angles are 0 scores 0 even against itself |
| PoseSimilarity.HiddenPoseScoresZero | app.js:269-271 | a pose with no usable landmark scores 0 against any pose, in either argument position |
| PoseSimilarity.DiffSumBound | app.js:311-314 | with angles in [0, 180] the difference sum is at most 180 times the count, so the clamp never changes the raw similarity |
| DanceSession.FeedbackText | app.js:343-358 | the shown text is never empty; for a 2xx response a truthy `feedback` field is shown, else a truthy `error` field; a transport failure, a non-2xx status or a response with neither field truthy shows the fixed apology |
| DanceSession.FrameIndex | app.js:386 | the sample index is the floor of time times 30 |
| DanceSession.FrameIndexMonotonic | app.js:386 | later playback never selects an earlier sample |
| DanceSession.ResolveFrame | app.js:386-393 | a time inside the clip gives the `landmarks` of sample floor(30·t); a sample is found only for an index in range; negative times and times past the clip's end find none |
| DanceSession.FrameAtTwoSeconds | app.js:376-393 | in a 150-sample clip, 2 s of playback selects sample 60 |
| DanceSession.ReferencePose | app.js:377-393 | no reference pose when the current step's clip has no loaded samples; otherwise exactly the sample lookup in that clip |
| DanceSession.NextStep | app.js:115-125 | the next step stays in 1..6 and is 1 exactly after the last step |
| DanceSession.Faster | app.js:129-135 | the rate never exceeds 3 and a reachable rate stays a reachable multiple of 0.25 |
| DanceSession.Slower | app.js:136-142 | the rate never drops below 0.25 and a reachable rate stays reachable |
| DanceSession.SpeedRoundTrip | app.js:129-142 | slower undoes faster exactly below the top rate, and faster undoes slower exactly above the bottom rate |
| DanceSession.NextSong | app.js:144-149 | the song index stays in 0..2 |
| DanceSession.PrevSong | app.js:150-155 | the song index stays in 0..2 |
| DanceSession.SongRoundTrip | app.js:144-155 | the previous-song and next-song buttons undo each other |
| DanceSession.Session.constructor | app.js:43-70 | the initial state: not started, step 1, score 0, no feedback, nothing in flight, timer 0, rate 1, no reference element, first song |
| DanceSession.Session.StartDance | app.js:108-113 | starts at step 1 with an empty feedback panel; a reference element is mounted at rate 1 unless the dance already ran at step 1 |
| DanceSession.Session.SkipToNext | app.js:115-125 | advances the step and clears score and feedback, with a fresh reference element at rate 1; after the last step it returns to step 1 and stops, leaving score and feedback as they were and removing the element; the feedback timer is untouched |
| DanceSession.Session.ReferenceLoaded | app.js:551-554 | a mounted reference element adopts the displayed rate |
| DanceSession.Session.IncreaseSpeed | app.js:129-135 | with an element, both the element's and the displayed rate become `Faster` of the element's own rate; without one nothing changes |
| DanceSession.Session.DecreaseSpeed | app.js:136-142 | with an element, both the element's and the displayed rate become `Slower` of the element's own rate; without one nothing changes |
| DanceSession.Session.PlayNextSong | app.js:144-149 | the song index becomes `NextSong` of the old one |
| DanceSession.Session.PlayPrevSong | app.js:150-155 | the song index becomes `PrevSong` of the old one |
| DanceSession.Session.EvaluateAndGetFeedback | app.js:317-332 | a request is issued exactly when the throttle is open and a user pose is present; a closed throttle changes nothing; an absent pose past the throttle shows the "not visible" text with score 0 and keeps the timer; an issued request sets the in-flight flag and the timer to now |
| DanceSession.Session.CompleteFeedback | app.js:343-361 | the panel shows `FeedbackText` of the outcome and the in-flight flag is cleared whatever the outcome |
| DanceSession.SpeedClickAcrossStepChange | app.js:129-135 | after two clicks to 1.5 and a step change, a click before the new clip has loaded gives 1.25, a click after it has loaded gives 1.75 |
| DanceSession.Session.Tick | app.js:368-397 | a stopped reference zeroes the score and clears feedback; missing user pose, clip, frame or landmarks zero the score only; otherwise the score is `Similarity` of the two poses and a request is issued exactly when the throttle is open; feedback never changes while the reference plays |
| DanceSession.ThrottleSpacing | app.js:318-331 | of two attempts with a visible user, the second is sent exactly when the first has completed and at least 3000 ms have passed |
| DanceSession.HiddenUserAfterFeedback | app.js:318-327 | after a completed request, a user who leaves the frame sees the "not visible" text only once 3000 ms have passed; before that the response's text stays |
| PoseEvaluation.LengthZero | app.py:130-133 | a vector's computed length is 0 exactly when the vector is zero |
| PoseEvaluation.CalculateAngle | app.py:122-137 | None for a falsy point; None exactly when a coordinate is missing or an outer point coincides with the vertex; any other result is in [0, 180] |
| PoseEvaluation.ServerAngles | app.py:168-187 | eight optional angles in dictionary order, each known one in [0, 180] |
| PoseEvaluation.AngleDiffs | app.py:189-193 | every entry belongs to a joint with both angles known and holds their absolute difference, with keys in dictionary order |
| PoseEvaluation.AngleDiffsComplete | app.py:189-193 | every joint with both angles known has an entry |
| PoseEvaluation.MostProblematic | app.py:198 | the chosen entry has a difference at least every other entry's, and strictly greater than every earlier entry's |
| PoseEvaluation.Decide | app.py:195-204 | a correction names a joint with both angles known, carries those angles and differs by at least 5 degrees |
| PoseEvaluation.PerfectExactlyWithinTolerance | app.py:189-196 | the verdict is "perfect" exactly when every joint with both angles known differs by less than 5 degrees, including when there is none |
| PoseEvaluation.CorrectionTargetsLargestDifference | app.py:198 | the corrected joint's difference is at least every other known joint's, and strictly greater than every earlier joint's |
| PoseEvaluation.DiffAgainstLargest | app.py:198 | one known joint compared with the chosen entry: not larger, and strictly smaller if earlier |
| PoseEvaluation.Assess | app.py:159-204 | a non-JSON body or an invalid pose is rejected before any angle is computed; a correction names one of the eight joints with angles in [0, 180] differing by at least 5 |
| PoseEvaluation.EvaluatePose | app.py:158-208 | status 400 exactly for a non-JSON body or a missing or short pose, with the matching error text; a perfect verdict gives 200 with the fixed praise; a correction asks the model about the chosen joint's key and angles and gives 200 with its answer, or 500 with the fixed error when the call fails |
| PoseEvaluation.ModelConsultedOnlyForCorrections | app.py:165-196 | a rejected request's reply depends on neither the angle functions nor the model; a perfect verdict's reply does not depend on the model |
| PoseEvaluation.Chat | app.py:144-156 | status 400 exactly for a non-JSON body or a missing or empty message; 200 carries the model's answer; 500 carries the fixed error after a failed model call |
| FeedbackPipeline.AsOutcome | app.js:347-351 | the reply's status is kept, and its `feedback` and `error` fields are present exactly when the body has them |
| FeedbackPipeline.Shown | app.js:343-358 | the panel never shows an empty text after an evaluation reply |
| FeedbackPipeline.ErrorRepliesShowApology | app.js:343-358 | every error reply of the server, and every rejected request, ends in the browser's apology |
| FeedbackPipeline.VerdictShown | app.py:195-205 | a perfect pose shows the fixed praise; a correction shows the model's text, or the apology when the model failed or answered with an empty text |

## Left out

- React rendering, JSX, the `useEffect` dependencies and the `setInterval` and `requestAnimationFrame` scheduling are not modelled. One tick is the method `Session.Tick`, and the tick runs only while `started` holds (its precondition).
- MediaPipe pose estimation, camera access and the video element are inputs. The tick receives the element as `Option<RefVideo>`, with its paused and ended flags and playback time, and receives the latest user pose. Only the element's rate is session state (`Session.elementRate`): it exists exactly while the dance runs, because the element is rendered only on the dance screen (app.js:478-568).
- DanceSession.Session.SkipToNext: requires a running dance, because its button is rendered only on the dance screen (app.js:568).
- `fetch`, HTTP and JSON parsing are not modelled. A response is the `Outcome` datatype: a status with the `feedback` and `error` fields, or a transport failure. This also covers a body that is not JSON.
- The loading of the reference clips' samples (`loadReferenceData`) is not modelled: the tick receives the loaded samples as a map from clip name to samples. The clip names are the constants `VideoNames`, not derived from the video paths.
- `handleSend`'s edits of the chat message list are not modelled: they are interface state. The chat endpoint's own checks are `PoseEvaluation.Chat`. The congratulation message that `skipToNext` appends to the chat on the wrap-around is not modelled either.
- The language model chains, prompt templates, the document store and the `/rag_query` endpoint are not modelled. The model is a function parameter whose None result stands for a raised exception.
- IEEE floating point is not modelled: angles and times are reals. `Math.atan2`, `math.acos` and `math.sqrt` are unknown functions constrained only by their ranges.
- PoseSimilarity.GetAngle: its range contract relies only on atan2 lying in [-π, π]. Which angle a visible joint gets depends on the unmodelled atan2.
- PoseEvaluation.CalculateAngle: the exact acos value is not modelled. The contract states when the result is None and that it lies in [0, 180].
- PoseEvaluation.CalculateAngle: a point whose values are not numbers (the `TypeError` case) is not modelled. A point is a dictionary from field names to reals, so only a missing key (`KeyError`) is.
- PoseEvaluation.Chat: a `message` that is not a string is not modelled; the message is an optional string.
- React's stale closures over `geminiLoading`, and responses arriving after the step has changed, are not modelled. The in-flight flag is a plain field and each completion applies to the current session.
- The pause and play buttons act only on the video element. The tick sees their effect through the element's paused flag.
- The music `Audio` object, its mute state and the volume are not modelled. The song controls model only the song index.
