# Workout counters, spoken feedback and the results hand-off

This project models the core of a camera-based workout coach and proves properties of that model. The coach has three parts:

- **Exercise scripts.** Each one reads the joint angles of a detected pose, frame by frame. It keeps the rep counters, a form latch and a success rate, and it hands feedback texts to a spoken-feedback dispatcher. When the workout ends it writes a two-line results file.
- **A web server.** It starts one exercise script at a time (`/start`). On `/stop` it reads the results file back and logs the workout.
- **The spoken-feedback dispatcher.** Each script puts its feedback texts on its own dispatcher queue.

The model has one module per exercise script. Each module has:

- a `State` datatype holding the script's counting globals;
- a `Move` function with the body of the frame loop on a frame that has landmarks, and a `Next` function for one frame that may have none;
- a `Trace` function for a whole run of frames;
- a `Session` class whose fields are those globals.

`Session.Step` and `Session.Run` update the fields in place, the way the script does. Their contracts tie the new fields to `Next` and `Trace`. The lemmas state what the counters promise over any run:

- rep counters only move once the form latch is set;
- the latch stays set;
- every count closes an attempt;
- the rate is the counted share of the attempts.

Scripts that speak return, with the new state, the texts they handed to `speak_text` during the frame. Two dispatcher policies occur, and `Feedback` models both:

- a cooldown that drops a text enqueued less than five seconds earlier;
- a plain FIFO queue.

`Report` models three pieces of the results hand-off:

- `write_final_data`;
- the line splitting of `readlines()`;
- the `/stop` handler's parse loop, including its `int()` and `str.strip()`.

`ReportRoundTrip` proves that parsing what `write_final_data` wrote gives back the count and the rate text. `WebCamServer` models the `/start` and `/stop` handlers around the single global `ffmpeg_process` handle.

Inputs from the outside world are parameters:

- **Joint angles.** A frame's pose is `None` when no landmarks were found.
- **The clock.** There is one reading per frame.
- **The random message choice.** It is an index `pick`.
- **The live-video lookup.** It is a pair of optional URLs.
- **The results file.** It is the file's lines, or `None` when the file is missing.

squats.py is modelled as written. Its bottom check needs `per == 100`, which means the right knee is at 170 or more. Its parallel test needs both knees in [80, 120], so the two cannot hold together. Its top check needs `per == 0`, which means the right knee is at 85 or less, and its upright test needs knees above 160. So no frame ever counts a squat or an attempt. `Squats.BottomUnreachable`, `Squats.TopUnreachable` and `Squats.NeverCounts` state this.

## Model

| member | source | states |
|---|---|---|
| Common.Percent | integrate/pushups.py:223 | the progress value lies in [0, 100]; it is 0 exactly when the angle is at or below the low end and 100 exactly when at or above the high end; in between it is the linear interpolation |
| Common.PercentMonotonic | integrate/pushups.py:223 | a larger angle never gives a smaller progress value |
| Common.PercentHalfway | integrate/pushups.py:234-235 | the test `per >= 50` holds exactly when the angle is at least the midpoint of the range |
| Common.Symmetry | integrate/pushups.py:220 | the symmetry value is non-negative, is one of the two differences, and is 0 exactly when both joints agree |
| Common.SuccessRate | integrate/pushups.py:208-209 | while nothing is counted the old rate stands; otherwise rate × attempts = count × 100; a rate in [0, 100] stays in [0, 100] |
| Common.Choose | integrateRaspberry/pushups.py:25-38 | the randomly chosen message is one of the list's messages |
| Feedback.Speak | integrate/pushups.py:72-82 | a text enqueued less than the cooldown ago is dropped with nothing changed; otherwise it is stamped with the current time and appended to the queue; the stamps of other texts are untouched |
| Feedback.RepeatWithinCooldown | integrate/pushups.py:72-82 | two requests for one text inside the cooldown enqueue it at most once |
| Feedback.RepeatAfterCooldown | integrate/pushups.py:72-82 | two requests at least the cooldown apart both enqueue the text |
| Feedback.SpeakAllSnoc | integrate/pushups.py:72-82 | a request made after a frame's earlier requests acts on their result |
| Feedback.SpeakAllConcat | integrate/pushups.py:72-82 | two batches of requests at one time act one after the other |
| Feedback.SpeakAllAppends | integrate/pushups.py:72-82 | a frame's requests only append to the queue, never more texts than requested, and every appended text was requested |
| Feedback.FirstRequestEnqueues | integrate/pushups.py:70-82 | with no text spoken yet, a request always enqueues its text |
| Feedback.CooldownSpeaker.constructor | integrate/pushups.py:21 | the dispatcher starts with no stamps and an empty queue |
| Feedback.CooldownSpeaker.SpeakText | integrate/pushups.py:72-82 | the in-place stamps and queue become what the cooldown policy `Speak` prescribes |
| Feedback.FifoSpeaker.constructor | integrateRaspberry/pushups.py:21 | the queue starts empty |
| Feedback.FifoSpeaker.SpeakText | integrateRaspberry/pushups.py:57-59 | the text is appended to the queue, always |
| IntegratePushups.AtBent | integrate/pushups.py:237-259 | bent arms with direction 0 after halfway open an attempt (direction 1, halfway cleared, the duration since the last start recorded, the clock restarted) and speak an invalid-attempt message exactly when attempts is not a multiple of 5; bent arms show "Up" and speak nothing otherwise; a failed bent check shows and speaks "Keep your body straight" when the hip is not above 160, else "Fix Form"; count and rate are untouched |
| IntegratePushups.AtExtended | integrate/pushups.py:261-274 | extended arms with direction 1 count a rep, turn direction to 0 and speak an encouragement exactly when the count is not a multiple of 5; extended arms show "Down" and speak nothing otherwise; a failed extended check shows and speaks "Keep your body straight" when the hip is not above 160, else shows "Fix Form" silently; no attempt, timing or halfway flag changes |
| IntegratePushups.Move | integrate/pushups.py:206-274 | the latch sets on the full baseline and never clears; without it nothing that counts moves and nothing is said; attempts rise exactly on an attempt step, which turns direction to 1, restarts the clock (the start time is kept on every other frame) and speaks an invalid-attempt message exactly when attempts is not a multiple of 5; the count rises exactly on a count step, which speaks an encouragement exactly when the count is not a multiple of 5; halfway is set by `per >= 50` under the latch and cleared only by an attempt; between `per` 0 and 100 the feedback stays and nothing is said; at `per == 0` and `per == 100` the feedback is "Up"/"Down" or the posture message; bent arms off an attempt step and extended arms with direction other than 1 say nothing, a failed bent check speaks its posture message, and a failed extended check speaks "Keep your body straight" but shows "Fix Form" silently; the rate is recomputed from the counters before the frame: kept while the count is 0, otherwise count / attempts × 100; symmetry is the elbow difference; the counter invariant is kept |
| IntegratePushups.Next | integrate/pushups.py:182-206 | a frame without landmarks changes nothing and says nothing; the latch and invariant laws of one frame hold |
| IntegratePushups.Trace | integrate/pushups.py:182-311 | the counter invariant holds after any run |
| IntegratePushups.NextKeepsValid | integrate/pushups.py:248-251 | with a clock after the epoch, one frame keeps the timing invariant |
| IntegratePushups.TraceValid | integrate/pushups.py:248-251 | with clock readings after the epoch, one duration is recorded per attempt after the first, over any run |
| IntegratePushups.FormGatesCounting | integrate/pushups.py:227-232 | while the latch is unset, no counter, flag or timing changes, however many frames pass |
| IntegratePushups.FormStaysLatched | integrate/pushups.py:227-229 | once set, the latch stays set over any run |
| IntegratePushups.Session.constructor | integrate/pushups.py:161-175 | the globals start at their initial values with an empty dispatcher |
| IntegratePushups.Session.BentBlock | integrate/pushups.py:237-259 | the fields and dispatcher after the bent-arm block are those `AtBent` prescribes |
| IntegratePushups.Session.ExtendedBlock | integrate/pushups.py:261-274 | the fields and dispatcher after the extended-arm block are those `AtExtended` prescribes |
| IntegratePushups.Session.Count | integrate/pushups.py:206-274 | the fields and dispatcher after the loop body are those `Move` prescribes |
| IntegratePushups.Session.Step | integrate/pushups.py:182-274 | one frame updates the fields and dispatcher as `Next` prescribes |
| IntegratePushups.Session.Run | integrate/pushups.py:182-311 | after the frame loop the fields are `Trace` of the frames, the dispatcher has heard exactly the run's requests, and the counter invariant holds |
| RaspberryPushups.AtBent | integrateRaspberry/pushups.py:204-219 | bent arms with direction 0 after halfway open an attempt (direction 1, halfway cleared) and request an encouragement exactly when the attempts reach a multiple of 5; bent arms say "Up"; otherwise "Fix Form" and a random invalid-attempt message |
| RaspberryPushups.AtExtended | integrateRaspberry/pushups.py:221-228 | extended arms with direction 1 count a rep and turn direction to 0; the feedback is "Down" or "Fix Form" |
| RaspberryPushups.Move | integrateRaspberry/pushups.py:177-228 | the latch sets on the baseline and never clears; without it nothing counts or is said; attempts and count rise exactly on their steps; an attempt turns direction to 1; halfway is set by `per >= 50` under the latch and cleared only by an attempt, which requests an encouragement exactly on multiples of 5; a failed bent check requests an invalid-attempt message; bent arms at `per == 0` show "Up" and say nothing off an attempt step; at `per == 100` the feedback is "Down" with the full baseline, else "Fix Form"; between the two ends the feedback is kept, so the change-only announcement is fixed on every frame; away from `per == 0` nothing is said; the rate is recomputed from the counters before the frame: kept while the count is 0, otherwise count / attempts × 100; the counter invariant is kept |
| RaspberryPushups.Next | integrateRaspberry/pushups.py:177-234 | a frame without landmarks changes nothing; with landmarks the feedback is spoken only when it differs from the previous frame's, and the previous feedback is updated to it |
| RaspberryPushups.Trace | integrateRaspberry/pushups.py:153-234 | the counter invariant holds after any run |
| RaspberryPushups.TraceSnoc | integrateRaspberry/pushups.py:153-234 | one more frame extends the run's state and spoken texts by that frame's |
| RaspberryPushups.SameFeedbackSpokenOnce | integrateRaspberry/pushups.py:232-234 | when a frame's feedback repeats the previous frame's, only the loop body's own requests are spoken, not the feedback again |
| RaspberryPushups.FormGatesCounting | integrateRaspberry/pushups.py:195-200 | while the latch is unset nothing that counts moves over any run |
| RaspberryPushups.FormStaysLatched | integrateRaspberry/pushups.py:195-197 | once set, the latch stays set over any run |
| RaspberryPushups.Session.constructor | integrateRaspberry/pushups.py:138-146 | the globals start at their initial values with an empty queue |
| RaspberryPushups.Session.BentBlock | integrateRaspberry/pushups.py:204-219 | the fields and queue after the bent-arm block are those `AtBent` prescribes |
| RaspberryPushups.Session.ExtendedBlock | integrateRaspberry/pushups.py:221-228 | the fields after the extended-arm block are those `AtExtended` prescribes |
| RaspberryPushups.Session.Count | integrateRaspberry/pushups.py:177-228 | the fields and queue after the loop body are those `Move` prescribes |
| RaspberryPushups.Session.Step | integrateRaspberry/pushups.py:177-234 | one frame updates the fields and queue as `Next` prescribes |
| RaspberryPushups.Session.StepAt | integrateRaspberry/pushups.py:153-234 | after frame i the fields and queue are the state and texts of the first i+1 frames |
| RaspberryPushups.Session.Run | integrateRaspberry/pushups.py:153-234 | after the frame loop the fields are `Trace` of the frames and the queue holds exactly the run's texts |
| IntegratePushUp.AtBent | integrate/push_up.py:117-126 | bent arms with direction 0 after halfway open an attempt (direction 1, halfway cleared); the feedback is "Up" or "Fix Form" |
| IntegratePushUp.AtExtended | integrate/push_up.py:128-136 | extended arms with direction 1 count a rep and turn direction to 0; the feedback is "Down" or "Fix Form" |
| IntegratePushUp.Move | integrate/push_up.py:90-136 | the latch sets on the baseline and never clears; without it nothing moves; attempts and count rise exactly on their steps; halfway is set from `per >= 50` under the latch and cleared by an attempt; a failed extended check says "Fix Form"; the rate is recomputed from the counters before the frame: kept while the count is 0, otherwise count / attempts × 100; the invariant is kept |
| IntegratePushUp.Next | integrate/push_up.py:75-136 | a frame without landmarks changes nothing; the latch and invariant laws of one frame |
| IntegratePushUp.Trace | integrate/push_up.py:75-136 | the counter invariant holds after any run |
| IntegratePushUp.ElbowAtThreshold | integrate/push_up.py:104-110 | a right elbow of exactly 160 reads as fully extended but fails the extended check: "Fix Form", no count |
| IntegratePushUp.FormGatesCounting | integrate/push_up.py:108-113 | while the latch is unset nothing that counts moves over any run |
| IntegratePushUp.FormStaysLatched | integrate/push_up.py:108-110 | once set, the latch stays set over any run |
| IntegratePushUp.Session.constructor | integrate/push_up.py:63-69 | the globals start at their initial values |
| IntegratePushUp.Session.Step | integrate/push_up.py:90-136 | one frame updates the fields as `Next` prescribes |
| IntegratePushUp.Session.Run | integrate/push_up.py:75-136 | after the frame loop the fields are `Trace` of the frames and the invariant holds |
| PushUp.Move | push_up.py:29-68 | the latch sets on the baseline; without it nothing changes; direction opens at `per == 0` with bent arms and closes at `per == 100` with the baseline; the count rises exactly on a close; direction stays 0 or 1 |
| PushUp.Next | push_up.py:29-68 | a frame without landmarks changes nothing; the count never falls; direction stays 0 or 1 |
| PushUp.BentRightElbowImplied | push_up.py:41-58 | at `per == 0` the right-elbow part of the bent test always holds, so only the other three conditions decide |
| PushUp.TracePhase | push_up.py:21-68 | direction stays 0 or 1 over any run |
| PushUp.CountMonotone | push_up.py:21-68 | the count never decreases over a run |
| PushUp.CountsMatchOpens | push_up.py:51-68 | count plus the open phase grows by exactly the number of opening frames, so no rep is counted that was not opened |
| PushUp.Session.constructor | push_up.py:12-15 | the globals start at their initial values |
| PushUp.Session.Step | push_up.py:29-68 | one frame updates the fields as `Next` prescribes |
| PushUp.Session.Run | push_up.py:21-68 | after the frame loop the fields are `Trace` of the frames |
| RaspberryBicepCurls.Complete | integrateRaspberry/bicepcurls.py:242-255 | completing a valid curl counts it, records its duration and says an encouragement on counts not divisible by 5; an invalid one says a random invalid-attempt message; both close the curl |
| RaspberryBicepCurls.Begin | integrateRaspberry/bicepcurls.py:229-239 | an elbow below 135 with no open curl opens one (attempts +1, clock started); the curl becomes valid below 45 |
| RaspberryBicepCurls.Move | integrateRaspberry/bicepcurls.py:210-255 | the latch sets on the shoulder test; without it nothing counts or is said; attempts rise exactly on a start; started, valid, count and durations follow the start/complete steps; the spoken text is fixed by the step; the rate is recomputed from the counters before the frame: kept while the count is 0, otherwise count / attempts × 100; the invariant is kept |
| RaspberryBicepCurls.Next | integrateRaspberry/bicepcurls.py:209-255 | a frame without landmarks changes nothing; at most one text per frame; the invariant is kept |
| RaspberryBicepCurls.Trace | integrateRaspberry/bicepcurls.py:185-255 | the counter invariant holds after any run |
| RaspberryBicepCurls.ElbowAtThreshold | integrateRaspberry/bicepcurls.py:229-242 | an elbow of exactly 135 neither starts nor completes a curl |
| RaspberryBicepCurls.BentHoldStartsOnce | integrateRaspberry/bicepcurls.py:229-234 | holding the elbow bent over two frames starts at most one attempt |
| RaspberryBicepCurls.FormGatesCounting | integrateRaspberry/bicepcurls.py:222-226 | while the latch is unset nothing that counts moves over any run |
| RaspberryBicepCurls.FormStaysLatched | integrateRaspberry/bicepcurls.py:222-223 | once set, the latch stays set over any run |
| RaspberryBicepCurls.Session.constructor | integrateRaspberry/bicepcurls.py:163-178 | the globals start at their initial values with an empty dispatcher |
| RaspberryBicepCurls.Session.CompleteBlock | integrateRaspberry/bicepcurls.py:242-255 | the fields and dispatcher after the completion block are those `Complete` prescribes |
| RaspberryBicepCurls.Session.BeginBlock | integrateRaspberry/bicepcurls.py:229-239 | the fields after the start and valid checks are those `Begin` prescribes |
| RaspberryBicepCurls.Session.Count | integrateRaspberry/bicepcurls.py:210-255 | the fields and dispatcher after the loop body are those `Move` prescribes |
| RaspberryBicepCurls.Session.Step | integrateRaspberry/bicepcurls.py:209-255 | one frame updates the fields and dispatcher as `Next` prescribes |
| RaspberryBicepCurls.Session.Run | integrateRaspberry/bicepcurls.py:185-255 | after the frame loop the fields are `Trace` of the frames and the dispatcher has heard exactly the run's requests |
| BicepCurls.Move | bicep_curls.py:33-74 | the latch sets on the shoulder test; without it nothing changes; attempts rise exactly on a start; a curl is valid once the elbow goes below 45 under the latch; a completion counts and times exactly the valid curls; the invariant is kept |
| BicepCurls.Next | bicep_curls.py:33-74 | a frame without landmarks changes nothing; without the latch nothing changes; the invariant is kept |
| BicepCurls.ElbowAtThreshold | bicep_curls.py:51-64 | an elbow of exactly 135 neither starts nor completes a curl |
| BicepCurls.TraceCounters | bicep_curls.py:26-74 | over any run the count never exceeds the attempts and there is one duration per counted curl |
| BicepCurls.FormGatesCounting | bicep_curls.py:44-48 | while the latch is unset the state does not change at all |
| BicepCurls.OneCurl | bicep_curls.py:51-74 | from rest, an elbow at 30 then at 150 counts one curl of one attempt, timed from the first frame |
| BicepCurls.ShallowCurl | bicep_curls.py:51-74 | from rest, an elbow at 90 then at 150 is one attempt and no count |
| BicepCurls.Session.constructor | bicep_curls.py:11-20 | the globals start at their initial values |
| BicepCurls.Session.Step | bicep_curls.py:33-74 | one frame updates the fields as `Next` prescribes |
| BicepCurls.Session.Run | bicep_curls.py:26-74 | after the frame loop the fields are `Trace` of the frames |
| RaspberrySquats.Descend | integrateRaspberry/squats.py:210-221 | bending opens an attempt when none is open (attempts +1, start time set) and marks halfway below 100; no count changes |
| RaspberrySquats.Rise | integrateRaspberry/squats.py:223-241 | standing counts a squat that reached halfway and records its duration, with an encouragement on counts not divisible by 5; standing from an open shallow attempt says a random invalid-attempt message; either way the attempt is closed |
| RaspberrySquats.Move | integrateRaspberry/squats.py:187-249 | the latch sets on upright hips; without it nothing counts or is said; attempts, start time, halfway, the open attempt, the count and the durations follow the start, count and fail steps; the spoken texts are fixed by the step; symmetry is the knee difference; the rate is recomputed from the counters before the frame: kept while the count is 0, otherwise count / attempts × 100; the invariant is kept |
| RaspberrySquats.Next | integrateRaspberry/squats.py:185-249 | a frame without landmarks changes nothing; at most one text per frame; the invariant is kept |
| RaspberrySquats.Trace | integrateRaspberry/squats.py:165-249 | the counter invariant holds after any run |
| RaspberrySquats.BentHoldStartsOnce | integrateRaspberry/squats.py:210-216 | staying bent over two frames starts at most one attempt |
| RaspberrySquats.ShallowSquat | integrateRaspberry/squats.py:210-241 | a squat that never goes below 100 is attempted but not counted, and standing up says a random invalid-attempt message |
| RaspberrySquats.FormGatesCounting | integrateRaspberry/squats.py:205-209 | while the latch is unset nothing that counts moves over any run |
| RaspberrySquats.Session.constructor | integrateRaspberry/squats.py:143-159 | the globals start at their initial values with an empty queue |
| RaspberrySquats.Session.DescendBlock | integrateRaspberry/squats.py:210-221 | the fields after the knees-bent block are those `Descend` prescribes |
| RaspberrySquats.Session.RiseBlock | integrateRaspberry/squats.py:223-241 | the fields and queue after the standing block are those `Rise` prescribes |
| RaspberrySquats.Session.Count | integrateRaspberry/squats.py:187-249 | the fields and queue after the loop body are those `Move` prescribes |
| RaspberrySquats.Session.Step | integrateRaspberry/squats.py:185-249 | one frame updates the fields and queue as `Next` prescribes |
| RaspberrySquats.Session.Run | integrateRaspberry/squats.py:165-249 | after the frame loop the fields are `Trace` of the frames and the queue holds exactly the run's texts |
| IntegrateSquats.Descend | integrate/squats.py:174-181 | knees bent with direction 0 open a rep (attempts +1), with an invalid-attempt message on attempts not divisible by 5; the clock restarts on every bent frame |
| IntegrateSquats.Rise | integrate/squats.py:183-189 | knees straight with direction 1 count a rep, with an encouragement on counts not divisible by 5 |
| IntegrateSquats.Move | integrate/squats.py:157-189 | the latch sets on upright hips; without it nothing counts or is said; attempts and count rise exactly on their steps; the start time is the frame's time on every bent frame under the latch; the spoken texts are fixed by the step; symmetry is the knee difference; the rate is recomputed from the counters before the frame: kept while the count is 0, otherwise count / attempts × 100; the invariant is kept |
| IntegrateSquats.Next | integrate/squats.py:155-189 | a frame without landmarks changes nothing; at most one text per frame; the invariant is kept |
| IntegrateSquats.NoDepthRequirement | integrate/squats.py:174-189 | under the latch, any bend below 140 followed by standing counts a rep, whatever the depth |
| IntegrateSquats.Trace | integrate/squats.py:135-189 | the counter invariant holds after any run |
| IntegrateSquats.SaidAtMostOnePerFrame | integrate/squats.py:135-189 | a run requests at most one text per frame |
| IntegrateSquats.FormGatesCounting | integrate/squats.py:169-173 | while the latch is unset nothing that counts moves over any run |
| IntegrateSquats.Session.constructor | integrate/squats.py:115-129 | the globals start at their initial values with an empty queue |
| IntegrateSquats.Session.DescendBlock | integrate/squats.py:174-181 | the fields and queue after the knees-bent block are those `Descend` prescribes |
| IntegrateSquats.Session.RiseBlock | integrate/squats.py:183-189 | the fields and queue after the knees-straight block are those `Rise` prescribes |
| IntegrateSquats.Session.Count | integrate/squats.py:157-189 | the fields and queue after the loop body are those `Move` prescribes |
| IntegrateSquats.Session.Step | integrate/squats.py:155-189 | one frame updates the fields and queue as `Next` prescribes |
| IntegrateSquats.Session.Run | integrate/squats.py:135-189 | after the frame loop the fields are `Trace` of the frames and the queue holds exactly the run's texts |
| SquatsLessStrict.Move | squats_less_strict.py:34-73 | a squat starts when both knees go below 130 with none open; it becomes valid when both thighs are parallel; standing up with both knees above 160 counts and times exactly the valid squats; the rate is recomputed from the counters before the frame: kept while the count is 0, otherwise count / attempts × 100; the invariant is kept |
| SquatsLessStrict.Next | squats_less_strict.py:34-73 | a frame without landmarks changes nothing; the invariant is kept |
| SquatsLessStrict.HipsIgnored | squats_less_strict.py:34-73 | the hip angles have no influence on a frame: counting is not gated on form |
| SquatsLessStrict.MiddleBandChangesNothing | squats_less_strict.py:50-73 | with both knees in [130, 160] no counter, flag, time or text changes |
| SquatsLessStrict.Trace | squats_less_strict.py:27-73 | the counter invariant holds after any run |
| SquatsLessStrict.CountersMonotone | squats_less_strict.py:27-73 | count and attempts never decrease over a run |
| SquatsLessStrict.Session.constructor | squats_less_strict.py:11-21 | the globals start at their initial values |
| SquatsLessStrict.Session.Step | squats_less_strict.py:34-73 | one frame updates the fields as `Next` prescribes |
| SquatsLessStrict.Session.Run | squats_less_strict.py:27-73 | after the frame loop the fields are `Trace` of the frames |
| Squats.Stage | squats.py:62-84 | the stage text: at `per == 100` "Up" with both knees in the parallel band, else "Go Lower"; at `per == 0` "Down" when knees and hips are upright, else "Stand Up Straight"; in between the feedback is kept |
| Squats.AtBottom | squats.py:62-69 | only direction, the bottom flag and the feedback can change; a parallel bottom at `per == 100` with direction 0 turns direction to 1 and sets the bottom flag, otherwise both stay; the feedback is the bottom stage text at `per == 100` and unchanged elsewhere |
| Squats.AtTop | squats.py:71-84 | only count, attempts, direction, the bottom flag and the feedback can change; upright at `per == 0` after a bottom counts a squat and an attempt and restarts the cycle; upright after halfway with direction 0 adds an attempt only; in every other case the counters, direction and flag stay; the feedback is the top stage text at `per == 0` and unchanged elsewhere |
| Squats.Issues | squats.py:87-92 | uneven knees win over everything and give "Knees Even"; heels up past halfway give "Heels Down"; a low chest past halfway otherwise gives "Chest Up"; at or before halfway with even knees the stage feedback stands |
| Squats.Move | squats.py:33-92 | the rate is recomputed from the counters before the frame: kept while the count is 0, otherwise count / attempts × 100; the latch sets on the standing baseline and, unset, nothing but the rate changes; halfway sticks and is set from `per >= 50`; direction, count, attempts and the bottom flag change exactly on the bottom, top and halfway steps; the feedback is the stage text after the form-issue overrides; the invariant is kept |
| Squats.Next | squats.py:31-92 | a frame without landmarks changes nothing; the invariant is kept |
| Squats.BottomUnreachable | squats.py:48-69 | the bottom step can never happen: `per == 100` puts the right knee outside the parallel band |
| Squats.TopUnreachable | squats.py:48-84 | neither the top step nor the halfway attempt can ever happen: `per == 0` puts the right knee below the upright test |
| Squats.StageAsWritten | squats.py:62-84 | at `per == 100` the feedback is always "Go Lower", and at `per == 0` always "Stand Up Straight" |
| Squats.MoveNeverCounts | squats.py:31-92 | no frame changes count, attempts, direction or the bottom flag |
| Squats.Trace | squats.py:23-92 | the invariant holds after any run |
| Squats.NeverCounts | squats.py:11-92 | from the start of a session, whatever the frames, count, attempts, direction and the rate stay 0 and the bottom flag is never bound |
| Squats.HalfwaySticks | squats.py:59-60 | once set, the halfway flag is never cleared over a run |
| Squats.Session.constructor | squats.py:11-17 | the globals start at their initial values |
| Squats.Session.IssuesBlock | squats.py:87-92 | the feedback after the form-issue checks is the one `Issues` prescribes and nothing else changes |
| Squats.Session.BottomBlock | squats.py:62-69 | the fields after the bottom check are those `AtBottom` prescribes |
| Squats.Session.TopBlock | squats.py:71-84 | the fields after the top check are those `AtTop` prescribes |
| Squats.Session.Step | squats.py:31-92 | one frame updates the fields as `Next` prescribes |
| Squats.Session.Run | squats.py:23-92 | after the frame loop the fields are `Trace` of the frames |
| Report.NatToString | integrate/pushups.py:149 | the written count is a non-empty string of digits without a leading zero |
| Report.DigitsRoundTrip | integrate/windowsWebCamServer.py:227 | reading the digits of a written count gives the count back |
| Report.ParseIntRoundTrip | integrate/windowsWebCamServer.py:227 | `int()` of a written count gives the count back |
| Report.ParseIntRefuses | integrate/windowsWebCamServer.py:227 | `int()` refuses the empty string, a lone sign and a text not ending in a digit |
| Report.Strip | integrate/windowsWebCamServer.py:227 | `strip()` gives a slice of its argument with no whitespace at either end |
| Report.StripPadded | integrate/windowsWebCamServer.py:227 | stripping whitespace around a core gives the core |
| Report.SecondField | integrate/windowsWebCamServer.py:227 | the second colon-separated field contains no colon |
| Report.FieldOf | integrate/windowsWebCamServer.py:227-229 | the second field of `key:value` is `value` when neither part holds a colon |
| Report.RemovePercent | integrate/windowsWebCamServer.py:229 | removing '%' leaves no '%', changes nothing in a text without one, and never lengthens it |
| Report.Lines | integrate/windowsWebCamServer.py:224 | the lines read join back to the whole text, and none is empty |
| Report.LinesFirst | integrate/windowsWebCamServer.py:224 | a text up to its first newline is read as the first line, newline included |
| Report.WriteReport | integrate/pushups.py:140-150 | the results file is the count line followed by the rate line |
| Report.ParseLine | integrate/windowsWebCamServer.py:226-229 | a line naming a count sets the count, or is refused when `int()` refuses it; otherwise a line naming a rate sets the rate and keeps the count; any other line changes nothing |
| Report.ParseInt | integrate/windowsWebCamServer.py:227 | `int()` accepts exactly an optional sign followed by at least one digit; its value is the digits' value, negated after '-' |
| Report.IndexOf | integrate/windowsWebCamServer.py:224-227 | the first position of a character, or the length when it is absent: every earlier character differs from it |
| Report.ParseLines | integrate/windowsWebCamServer.py:220-229 | the parse loop as a function of the lines read; a refused count is the count text of one of those lines, naming "Count:" and refused by `int()` |
| Report.CountFromLine | integrate/windowsWebCamServer.py:226-227 | a count other than the default 0 was read by `int()` from one of the lines naming "Count:" |
| Report.RateFromLine | integrate/windowsWebCamServer.py:228-229 | a rate was read from one of the lines naming "Success Rate:", as its stripped second field with '%' removed |
| Report.ParseOne | integrate/windowsWebCamServer.py:226-229 | one pass of the loop body on `count` and `success_rate` does what `ParseLine` defines |
| Report.ParseStep | integrate/windowsWebCamServer.py:225-229 | one more pass of the loop reads one more line |
| Report.ParseReport | integrate/windowsWebCamServer.py:220-229 | the parse loop over the lines returns what `ParseLines` defines: the defaults, updated line by line, stopping at a refused count |
| Report.BadCountSticks | integrate/windowsWebCamServer.py:222-229 | once a count is refused, later lines are never read |
| Report.DefaultsStand | integrate/windowsWebCamServer.py:220-221 | with no line naming a count or a rate, the count 0 and no rate stand |
| Report.LastCountWins | integrate/windowsWebCamServer.py:226-227 | a later count line overrides every earlier one, whatever non-count lines follow |
| Report.KeepsCount | integrate/windowsWebCamServer.py:226-229 | lines that do not name a count leave the count as it was |
| Report.RateLineHasNoCount | integrate/pushups.py:150 | the written rate line does not contain "Count:", so the parser reads it as a rate |
| Report.ReportLines | integrate/pushups.py:149-150 | reading the written file back gives exactly its two lines |
| Report.CountLineParses | integrate/windowsWebCamServer.py:226-227 | the written count line sets the count to the written count |
| Report.RateLineParses | integrate/windowsWebCamServer.py:228-229 | the written rate line sets the rate to the written rate text |
| Report.ReportRoundTrip | integrate/windowsWebCamServer.py:220-229 | parsing what `write_final_data` wrote gives back its count and its rate text |
| WebCamServer.Server.constructor | integrate/windowsWebCamServer.py:21 | no stream runs at first, nothing is announced and nothing is logged |
| WebCamServer.Server.Start | integrate/windowsWebCamServer.py:163-196 | a running stream gives 400 "Stream is already running" and changes nothing; otherwise the script is launched and the reply is 200, announcing the stream when both URLs are present and non-empty, and otherwise answering that no live video was found yet; nothing is logged |
| WebCamServer.Server.Stop | integrate/windowsWebCamServer.py:198-238 | no stream gives 400 "No stream is running" and changes nothing; otherwise the handle is cleared whatever follows; a missing file gives 400; a refused count gives 500 with nothing logged; a parsed file gives 200 with its summary and logs exactly one workout; nothing is announced |

## Left out

- Camera capture, pose detection, drawing, window handling and the ffmpeg streaming pipe are left out. The model starts from the joint angles of each frame. A frame whose pose is `None` stands for "no landmarks".
- The text-to-speech engine and the thread that drains `feedback_queue` are left out. So is the command-listener thread that sets `should_exit`. The model stops at what is put on the queue.
- The server's own `speak_text` runs the speech engine in a thread. It is modelled only as the list `announcements`.
- Time: every frame carries one clock reading (`now`), used for every `time.time()` call in that frame. `time.sleep` in the handlers is left out.
- Randomness: `np.random.choice` is an index `pick`. `Choose` promises only that the result is one of the list's messages.
- The YouTube OAuth flow and the live-video lookup are the two optional URLs passed to `Start`.
- `subprocess.Popen` is modelled as recording the launched script's name. `send_signal` and `wait` are left out.
- The Supabase insert is modelled as appending to `logged`. Its network behaviour and errors are left out.
- The request JSON is left out. A missing username or start time (Python `None`) is not modelled. They are plain strings here.
- Floating point: angles, times and rates are exact reals. `np.interp` is exact linear interpolation, so the tests `per == 0` and `per == 100` are exact.
- Report.WriteReport: the `.2f` formatting of the rate is not modelled. The rate is carried as its formatted text, described only as digits with a decimal point (`FormattedRate`).
- Report.ParseLine: `float()` on the rate text is not modelled, so a rate that `float()` would refuse does not raise here. The rate stays the text that was read, and `None` stands for the default `0.0`.
- WebCamServer.Server.Stop: a rate line whose text `float()` refuses (for example "Success Rate: %") makes the handler raise at integrate/windowsWebCamServer.py:229 and answer 500; the model answers 200 and logs the workout, because `float()` is not modelled.
- Report.ParseInt: accepts an optional sign and ASCII digits only. `int()` also accepts underscores between digits and non-ASCII digits.
- WebCamServer.Server.Stop: the 500 reply of an uncaught `ValueError` is modelled as the message "Internal Server Error". The framework's own error page is left out.
- Timing displays are left out. The average-time and total-time values are shown but never used for counting.
- The `bar` progress values are left out. So is `per` in the curl scripts, where it is only displayed.
- The shoulder angles of integrateRaspberry/squats.py are left out. The script computes them but never reads them.
- The `direction` global of integrateRaspberry/squats.py is left out. Its counting uses only `is_attempting` and `reached_halfway`.
- The `form` global of squats_less_strict.py is left out. It is declared and never used.
- The shutdown sequence is left out: releasing the camera, closing the ffmpeg pipe and stopping the speech engine. Only the file that `write_final_data` writes is modelled, by `Report.WriteReport`.
- integrate/windowsWebCamServer.py is the server modelled. raspberryWebCamServer.py and the top-level windowsWebCamServer.py are not part of this model.
