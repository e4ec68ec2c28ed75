# Cipher7 (VisionAI) screening and therapy core, modelled in Dafny

Cipher7 is a web application for a pediatric vision screening. A guardian
gives consent. A webcam check makes sure the face is centred, the eyes are
open and the light is good enough. Three camera or on-screen tests follow
and each stores a score in [0, 1] in the browser's session storage:

- eye alignment (symmetry and steadiness of the eye centres)
- eye tracking (following a moving target around four waypoints)
- contrast sensitivity (naming shapes of falling contrast, eye by eye)

The result page weighs the three scores into a risk score, classifies it as
low, moderate or high, and saves the screening to the backend once. There
are also three therapy games: a moving dot, a contrast challenge and an
object-matching memory game. Each keeps a best result and a session count
in the browser's local storage. The backend is an Express service. It
authenticates requests with a bearer token, admits browser origins by a
configured list, stores screenings and therapy sessions, registers users
and checks their credentials, and builds a parent's summary report.

This project models that core. The browser pages and game components are
classes whose fields are the component state; their handlers are methods,
proved against specification functions. The pure helpers (averages,
standard deviations, grouping, scoring, formatting) are functions with
lemmas. The backend handlers are functions from the request's data to a
`Result` (a value or an `HttpError`). Database queries, token verification,
password hashing, locale formatting, `Math.sqrt`, `Math.atan2` and
`Math.hypot` are not modelled. Their results are parameters: function
parameters, or the rows a query returned.

JavaScript values are modelled as the datatype `Js.Value` (undefined,
null, boolean, number, string, object). The model also spells out JS
truthiness, `||` and `??`, `Number()`, `toFixed(2)`, `Math.round`, and what
`JSON.stringify` and `JSON.parse` do to a stored object.

Files, one module each: `base`, `strings`, `js`, `stats`, `face` (shared
helpers); `screening_session`, `instructions`, `webcam`, `alignment`,
`tracking`, `contrast`, `results` (the screening flow); `therapy_progress`,
`moving_dot`, `contrast_challenge`, `object_match` (the therapy games);
`auth_middleware`, `app`, `screening_controller`, `screening_service`,
`therapy_service`, `auth_service`, `report_controller` (the backend).

## Model

| member | source | states |
|---|---|---|
| ScreeningSession.ReadEntry | src/lib/screeningSession.js:1-11 | The session read back is never falsy. No window, a missing entry, an empty string or unparsable text all read as the empty object `{}`, and a truthy parsed value reads as itself. |
| ScreeningSession.StoredMembersNormal | src/lib/screeningSession.js:5-6 | Every member of a session parsed from stored JSON is defined and already in its JSON-normal form. |
| ScreeningSession.SessionStore.constructor | src/lib/screeningSession.js:1-11 | The store starts with the given window flag and stored entry, and is valid. |
| ScreeningSession.SessionStore.Write | src/lib/screeningSession.js:13-17 | Returns its argument. With a window it stores the JSON-normal form of the data, and reading back gives exactly that; without one nothing is stored. |
| ScreeningSession.WriteThenRead | src/lib/screeningSession.js:13-17 | Writing then reading keeps exactly the defined members, each in JSON-normal form; undefined members disappear. |
| ScreeningSession.SessionStore.Merge | src/lib/screeningSession.js:19-23 | The result is the current session overlaid with the patch. Afterwards each patched key reads as the patch's value, or is absent if that value is undefined; every other key reads as before. |
| ScreeningSession.SessionStore.MergeDefined | src/lib/screeningSession.js:19-23 | A patch of already-stored values is merged member for member into the session, with a window; without one nothing changes. |
| ScreeningSession.SessionStore.MergeScore | src/lib/screeningSession.js:19-23 | Merging one numeric score sets that key to the number and leaves every other key as it was. |
| ScreeningSession.SessionStore.Clear | src/lib/screeningSession.js:25-28 | With a window the entry is removed; in every case the session then reads as `{}`. |
| ScreeningSession.FirstMissing | src/app/screening/results/page.js:58-69 | Finds the first score in a range that the session lacks, with every earlier score present; returns none exactly when all of them are present. |
| ScreeningSession.Redirect | src/app/screening/results/page.js:53-70 | A step page's guard. Without consent it sends the user to the instructions. Otherwise it goes to the page of the first step whose score is missing. There is no redirect exactly when consent is given and every score the page needs is present. |
| ScreeningSession.RedirectAntitone | src/app/screening/tracking/page.js:42-51 | A session that passes the guard of a later step passes the guard of every earlier step. |
| Instructions.InstructionsPage.constructor | src/app/screening/instructions/page.js:19-23 | Consent starts unticked. Mounting clears the session, which then reads as `{}`. |
| Instructions.InstructionsPage.SetConsent | src/app/screening/instructions/page.js:103-104 | The consent flag becomes the checkbox state. |
| Instructions.InstructionsPage.HandleStart | src/app/screening/instructions/page.js:25-28 | Without consent nothing is stored. With consent the session keeps its members, gains `consentGiven: true` and loses `savedScreeningId`. |
| Instructions.StartPatchEffect | src/app/screening/instructions/page.js:27 | Storing the start patch over a stored session drops `savedScreeningId` and sets consent, leaving the rest intact. |
| Instructions.InstructionsPage.StartHref | src/app/screening/instructions/page.js:111 | The start link leads anywhere but `#` exactly when consent is given. |
| Webcam.CheckFaceCentered | src/app/screening/webcam/page.js:369-375 | True exactly when the nose tip is within 0.08 of the frame centre on both axes. |
| Webcam.SelectLandmarks | src/app/screening/webcam/page.js:353-355 | The landmark at each index, in order, including the missing ones. |
| Webcam.VerticalEyeDistance | src/app/screening/webcam/page.js:391-396 | The eye opening is never negative. It is the vertical distance between the 2nd and 6th eye landmarks, or 0 when either is missing. |
| Webcam.CheckEyesVisible | src/app/screening/webcam/page.js:377-389 | True exactly when both eye openings exceed 0.02 and differ by less than 0.12. |
| Webcam.EyeHeightLandmarks | src/app/screening/webcam/page.js:377-396 | The openings are measured between landmarks 7 and 153, and between 249 and 380. If any of these is missing, the eyes do not count as visible. |
| Webcam.LightingOfAverage | src/app/screening/webcam/page.js:424-427 | Dim exactly below a mean brightness of 60, bright exactly above 200, good in between. |
| Webcam.SamplePositions | src/app/screening/webcam/page.js:413-414 | The sampling positions stay inside the canvas, and there is at least one. |
| Webcam.Step | src/app/screening/webcam/page.js:406-408 | For a side of at least 10 pixels the sampling step is at least 1, and half a step lies inside the side. |
| Webcam.Rows | src/app/screening/webcam/page.js:413 | The sampled rows are non-empty and inside the canvas. |
| Webcam.Cols | src/app/screening/webcam/page.js:414 | The sampled columns are non-empty and inside the canvas. |
| Webcam.GridCount | src/app/screening/webcam/page.js:410-421 | A non-empty grid samples at least one pixel, so the `!count` guard never fires. |
| Webcam.LightingOf | src/app/screening/webcam/page.js:398-428 | The label is "checking" exactly when the canvas has no width or no height. |
| Webcam.AssessLighting | src/app/screening/webcam/page.js:398-428 | "checking" without a canvas or a context; otherwise the label of the sampled grid's mean brightness. |
| Webcam.SampleGrid | src/app/screening/webcam/page.js:410-421 | The nested sampling loops add up exactly the grid's brightness sum and count at least one sample. |
| Webcam.SampleRow | src/app/screening/webcam/page.js:414-419 | The inner loop sums exactly the sampled pixels of one row and counts one sample per column. |
| Webcam.UniformRow | src/app/screening/webcam/page.js:414-419 | In a canvas of one brightness, a row's sum is that brightness times the number of columns. |
| Webcam.UniformGrid | src/app/screening/webcam/page.js:413-421 | In a canvas of one brightness, the grid's sum is that brightness times the number of samples. |
| Webcam.UniformLighting | src/app/screening/webcam/page.js:398-428 | A canvas of one brightness gets the label of that brightness. |
| Webcam.WebcamCheck.constructor | src/app/screening/webcam/page.js:25-30 | Not centred, eyes not visible, lighting being checked, not ready. |
| Webcam.WebcamCheck.EvaluateResults | src/app/screening/webcam/page.js:109-137 | Without a face the status is reset and not ready. With a face the status holds the three checks. The check is ready exactly when the face is centred, the eyes are visible and the light is good or bright. |
| Alignment.PresentPoints | src/app/screening/alignment/page.js:404 | Each output point is a reported landmark among the indices, and every reported landmark is in the output. The output is empty exactly when none is reported. For one index it is that landmark when reported, and nothing otherwise. |
| Alignment.PresentPointsConcat | src/app/screening/alignment/page.js:404 | The points of two index lists in a row are the first list's points followed by the second's. With the one-index case, this fixes the output: every reported point, in index order, and nothing else. |
| Alignment.PresentPointsAround | src/app/screening/alignment/page.js:404 | A reported landmark comes after the points reported before it and before the points reported after it. |
| Alignment.AveragePoint | src/app/screening/alignment/page.js:403-417 | Null exactly when none of the points is reported. Otherwise it is the point whose x and y are the means of the reported points' x and y. |
| Alignment.AveragePointOfPair | src/app/screening/alignment/page.js:403-417 | An eye centre from two landmarks is their midpoint when both are reported, and the one reported point when the other is missing. |
| Alignment.AveragePointWithin | src/app/screening/alignment/page.js:403-417 | The centroid lies in every box that holds all the reported points. |
| Alignment.DeriveSample | src/app/screening/alignment/page.js:179-206 | A sample is taken exactly when both eye centres and both nose-bridge points are reported; both deviations are non-negative. |
| Alignment.MirroredEyesNoDeviation | src/app/screening/alignment/page.js:191-192 | Eye centres that mirror each other across the midline, at equal height, give zero horizontal and vertical deviation. |
| Alignment.SubTerm | src/app/screening/alignment/page.js:223-225 | A spread gives a sub-score in [0, 1]. The sub-score is 0 from the threshold on, and 1 for no spread. |
| Alignment.SubTermAntitone | src/app/screening/alignment/page.js:223-225 | A larger spread never gives a larger sub-score. |
| Alignment.Blend | src/app/screening/alignment/page.js:227-230 | Sub-scores in [0, 1] blend to a score in [0, 1]. |
| Alignment.FromSpreads | src/app/screening/alignment/page.js:223-232 | Each sub-score lies in [0, 1], and the final score is their blend. |
| Alignment.ScoreOf | src/app/screening/alignment/page.js:208-233 | No samples give the fixed default `{0, 1, -, 1}`. Otherwise there is an angle score, and the final score always lies in [0, 1]. |
| Alignment.NoSpreadScoresOne | src/app/screening/alignment/page.js:223-230 | Zero spreads score exactly 1. |
| Alignment.FullSpreadScoresZero | src/app/screening/alignment/page.js:223-230 | Spreads at or beyond all three thresholds score exactly 0. |
| Alignment.SteadyFaceScoresOne | src/app/screening/alignment/page.js:208-233 | A face whose samples all repeat the same measures scores exactly 1. |
| Alignment.StatusLabelMonotone | src/app/screening/alignment/page.js:243-248 | The label is excellent above 0.7, mild above 0.4 and significant otherwise, and a higher score never gets a worse label. |
| Alignment.AlignmentTest.constructor | src/app/screening/alignment/page.js:26-29 | Idle, no score, no samples. |
| Alignment.AlignmentTest.StartTest | src/app/screening/alignment/page.js:235-239 | Empties the buffer, clears the score and sets the test running. |
| Alignment.AlignmentTest.OnResults | src/app/screening/alignment/page.js:78-84 | Appends exactly the frame's derived sample when the test runs and the face has all points; otherwise the buffer is unchanged. |
| Alignment.AlignmentTest.FinalizeScore | src/app/screening/alignment/page.js:119-126 | The test is complete with the score of the buffered samples. The session then holds that `alignmentDeviationScore`, and every other member is unchanged. |
| Alignment.AlignmentTest.Summary | src/app/screening/alignment/page.js:241-257 | There is a label exactly when there is a score, and it is that score's label. |
| Js.Round2Near | src/app/screening/results/page.js:80 | `Number(x.toFixed(2))` moves a value by at most half a hundredth. |
| Js.Round2UnitInterval | src/app/screening/alignment/page.js:229 | Rounding to two places keeps a value inside [0, 1]. |
| Js.Round2Monotone | src/app/screening/results/page.js:80 | Rounding to two places never reverses an order. |
| Js.Round2Idempotent | src/app/screening/tracking/page.js:236 | Rounding an already rounded value changes nothing. |
| Js.MathRound | backend/src/controllers/report.controller.js:8 | `Math.round` gives the integer within half a unit, with halves rounded up. |
| Js.JsonNormalIdempotent | src/lib/screeningSession.js:13-17 | Storing a value that already went through JSON stores it unchanged. |
| Js.ParsedMembersPlain | src/lib/screeningSession.js:5-6 | Every member of a parsed object is defined and in stored form. |
| Stats.StandardDeviation | src/app/screening/alignment/page.js:419-425 | The result is non-negative, its square is the population variance, and it is 0 for no values. |
| Stats.StandardDeviationConstant | src/app/screening/alignment/page.js:419-425 | Equal values have standard deviation 0. |
| Stats.VarianceNonnegative | src/app/screening/alignment/page.js:422-423 | The variance is never negative. |
| Stats.AverageBounds | src/app/screening/alignment/page.js:403-417 | The mean of values within bounds lies within those bounds. |
| Stats.AverageConstant | src/app/screening/tracking/page.js:402-405 | The mean of equal values is that value. |
| Tracking.SegmentAt | src/app/screening/tracking/page.js:196-199 | The segment is a waypoint index. Before the last segment the elapsed time lies within that segment's three seconds, and the last segment covers everything from 9 s on. |
| Tracking.SegmentAtMonotone | src/app/screening/tracking/page.js:196-199 | The target never moves back to an earlier segment. |
| Tracking.CaptureOf | src/app/screening/tracking/page.js:144-174 | A sample is taken exactly when both pupils are reported. It records the current segment, a non-negative distance, and the pupils' horizontal gap as the lag. |
| Tracking.SamplesIn | src/app/screening/tracking/page.js:407-414 | A segment's group holds only samples of that segment, drawn from the input. |
| Tracking.SamplesInComplete | src/app/screening/tracking/page.js:407-414 | Every sample is in its own segment's group. |
| Tracking.SamplesInAbsent | src/app/screening/tracking/page.js:407-414 | A segment with no samples has an empty group. |
| Tracking.GroupedAppend | src/app/screening/tracking/page.js:409-411 | Recording one more sample appends it to its own segment's list and changes no other list. |
| Tracking.GroupBy | src/app/screening/tracking/page.js:407-414 | The loop builds exactly the grouping specified by segment. |
| Tracking.PartitionCount | src/app/screening/tracking/page.js:220 | The four groups together hold every sample exactly once. |
| Tracking.SegmentGroups | src/app/screening/tracking/page.js:221 | `Object.values` lists at most one group per waypoint. |
| Tracking.SegmentGroupsMembers | src/app/screening/tracking/page.js:221 | A group is listed exactly when it is the group of a segment present. |
| Tracking.SegmentGroupsWellFormed | src/app/screening/tracking/page.js:220-228 | Every listed group has non-negative measures. |
| Tracking.ScoreSegment | src/app/screening/tracking/page.js:221-228 | Both segment scores are non-negative and at most 1. A segment whose gaze is always at least 0.25 away scores 0 for distance. |
| Tracking.AverageNonnegative | src/app/screening/tracking/page.js:402-405 | The mean of non-negative values is non-negative. |
| Tracking.TotalVariation | src/app/screening/tracking/page.js:418-426 | The summed frame-to-frame change is non-negative. |
| Tracking.ConstantVariation | src/app/screening/tracking/page.js:418-426 | A constant distance has no frame-to-frame change. |
| Tracking.VariationIgnoresFirst | src/app/screening/tracking/page.js:420 | Changing the first distance does not change the summed variation. |
| Tracking.AverageAtLeast | src/app/screening/tracking/page.js:402-405 | The mean of values that are all at least a bound is at least that bound. |
| Tracking.CalculateSmoothness | src/app/screening/tracking/page.js:416-430 | The loop computes exactly the specified smoothness of the distances. |
| Tracking.SmoothnessBounds | src/app/screening/tracking/page.js:416-430 | Smoothness lies in [0, 1]. |
| Tracking.SmoothnessConstant | src/app/screening/tracking/page.js:416-430 | A gaze at a constant distance, over three or more samples, scores smoothness 1. |
| Tracking.SmoothnessIgnoresFirst | src/app/screening/tracking/page.js:420 | The first sample's distance plays no part in smoothness, because the loop starts at 2. |
| Tracking.Stability | src/app/screening/tracking/page.js:235-238 | The stability score lies in [0, 1] and within 0.005 of the blend `0.6·d + 0.25·l + 0.15·s`. |
| Tracking.Combine | src/app/screening/tracking/page.js:230-239 | The lag and distance scores are the means of the segment scores. The score, lag and distance all lie in [0, 1], and the smoothness is the one given. |
| Tracking.ScoreOf | src/app/screening/tracking/page.js:213-240 | With no samples, the score is the all-zero default with no distance score. Otherwise the distance and lag scores are the means over the segments present, in segment order, of each segment's scores. The smoothness is that of the samples' distances, and the stability score is the 0.6/0.25/0.15 blend of the three to within 0.005, in [0, 1]. |
| Tracking.OneSegmentScore | src/app/screening/tracking/page.js:213-240 | A test whose samples all lie in one segment gets exactly that segment's distance and lag scores. |
| Tracking.ComputeScore | src/app/screening/tracking/page.js:213-240 | The grouping and scoring steps compute exactly the specified score. |
| Tracking.TrackingTest.constructor | src/app/screening/tracking/page.js:32-40 | Idle, segment 0, no samples, no score, no start time. |
| Tracking.TrackingTest.StartTest | src/app/screening/tracking/page.js:176-181 | Empties the buffer, clears the score and the clock, returns to segment 0 and runs. |
| Tracking.TrackingTest.AnimatePointer | src/app/screening/tracking/page.js:189-200 | Outside a run nothing changes. In a run an unset (or 0) clock is set to this frame's time, and the segment becomes the one for the elapsed time. |
| Tracking.TrackingTest.OnResults | src/app/screening/tracking/page.js:81-85 | Appends exactly the frame's sample when the test runs and both pupils are reported. |
| Tracking.TrackingTest.FinishTest | src/app/screening/tracking/page.js:121-126 | Complete, with the score of the buffered samples. The session holds that `trackingStabilityScore`, and every other member is unchanged. |
| Tracking.TrackingTest.HandleContinue | src/app/screening/tracking/page.js:260-270 | Goes to the contrast step exactly when there is a score and the stored text is not unparsable. Nothing stored and an empty string both read as `{}`. It then stores the score over the existing members; otherwise nothing is stored. |
| Contrast.TestSequenceShape | src/app/screening/contrast/page.js:11-18 | Six trials alternate left and right eye, left first, each fainter than the one before, from 0.3 down to 0.12. |
| Contrast.ReactionTime | src/app/screening/contrast/page.js:123 | The reaction time plus one second per countdown step left is 2000 ms. |
| Contrast.OfEye | src/app/screening/contrast/page.js:140-141 | Only the answers for that eye, all taken from the input. |
| Contrast.Accuracy | src/app/screening/contrast/page.js:143-145 | In [0, 1]; exactly 1 when every answer is right, exactly 0 when none is. |
| Contrast.OfEyeOverSequence | src/app/screening/contrast/page.js:140-141 | Over the whole sequence the left eye gets trials 1, 3, 5 and the right eye trials 2, 4, 6. |
| Contrast.BalanceScore | src/app/screening/contrast/page.js:147-156 | The balance score lies in [0, 1]. |
| Contrast.BalanceOverSequence | src/app/screening/contrast/page.js:147-156 | Over the fixed sequence the balance is always 5/6, whatever the answers. |
| Contrast.ReactionScore | src/app/screening/contrast/page.js:152-157 | In [0, 1], and exactly 1 when both eyes' mean reaction times are equal. |
| Contrast.AccuracyScore | src/app/screening/contrast/page.js:143-155 | The mean of the two eyes' accuracies, in [0, 1]. |
| Contrast.ContrastScore | src/app/screening/contrast/page.js:159-161 | In [0, 1] and within 0.005 of `0.6·accuracy + 0.25·balance + 0.15·reaction`. |
| Contrast.SequenceScorable | src/app/screening/contrast/page.js:139-161 | Timed answers to the whole sequence can always be scored. |
| Contrast.Answered | src/app/screening/contrast/page.js:118-125 | The appended record carries the trial, the answer and the reaction time of the countdown. |
| Contrast.FinalRecordsAsWritten | src/app/screening/contrast/page.js:129 | The records handed to scoring end with a copy of the last trial that has no reaction time. |
| Contrast.AsWrittenNeverScorable | src/app/screening/contrast/page.js:129 | As written, the final records can never be scored: the right eye's mean reaction time is NaN. |
| Contrast.FinalRecords | src/app/screening/contrast/page.js:117-129 | The intended records: the earlier ones plus the very record just appended. |
| Contrast.FinalRecordsScorable | src/app/screening/contrast/page.js:117-129 | With the intended records, a run through the sequence is always scored. |
| Contrast.ContrastTest.constructor | src/app/screening/contrast/page.js:41-48 | First trial, no answers, countdown 3, not complete. |
| Contrast.ContrastTest.Tick | src/app/screening/contrast/page.js:80-86 | The countdown drops by one until it reaches 0, and nothing else changes. |
| Contrast.ContrastTest.HandleResponse | src/app/screening/contrast/page.js:116-137 | Appends the answer record. Before the last trial it moves to the next trial and restarts the countdown. At the last trial it completes: the answers are scorable, and the session holds their score with every other member unchanged. This is the intended score of the corrected program (see Findings). |
| Results.SessionNumber | src/app/screening/results/page.js:72-74 | A missing score reads as 0 and a number as itself; an object is NaN. |
| Results.RawRiskWeights | src/app/screening/results/page.js:76-79 | The weights sum to one: equal scores give that score back, unit scores give a unit risk, and the risk never falls when a score rises. |
| Results.NormalizedRisk | src/app/screening/results/page.js:80 | The normalised risk lies in [0, 1], within 0.005 of a raw risk in [0, 1], and is clamped to 0 or 1 beyond. |
| Results.ClassifyRisk | src/app/screening/results/page.js:385-389 | Low exactly up to 0.3, moderate exactly in (0.3, 0.6], high exactly above 0.6. |
| Results.ClassifyMonotone | src/app/screening/results/page.js:385-389 | A higher risk never lands in a lower risk band. |
| Results.ScoresOf | src/app/screening/results/page.js:72-81 | The three scores are read as numbers, and the risk is known exactly when all three are. A known risk lies in [0, 1] and is classified by its band; an unknown (NaN) risk is classified high. |
| Results.ScoresPatch | src/app/screening/results/page.js:83-89 | The patch merged into the session consists of stored-form values only. |
| Results.PayloadOf | src/app/screening/results/page.js:119-129 | The posted body carries the scores, the risk, the class and the truthiness of consent. |
| Results.ResultsPage.constructor | src/app/screening/results/page.js:45-50 | No session, no scores, not saving, no error, not initialised. |
| Results.ResultsPage.Mount | src/app/screening/results/page.js:52-107 | Redirects exactly as the guard for three scores says, and then changes nothing. Otherwise the page is initialised with the session and its scores, and the session gains the scores patch. |
| Results.ResultsPage.BeginSave | src/app/screening/results/page.js:109-121 | A payload is posted exactly when there are a session and scores and no saved id yet; the page is then saving, with no error. |
| Results.ResultsPage.SaveSucceeded | src/app/screening/results/page.js:133-145 | The response's id is set on the page's session and merged into the stored session, with every other stored member unchanged. The save runs again exactly when that id is falsy. |
| Results.ResultsPage.SaveFailed | src/app/screening/results/page.js:139-145 | The error's message is shown, or a default when it is empty; saving stops. |
| Results.ResultsPage.RetrySave | src/app/screening/results/page.js:156-159 | Forgets the saved id, so with scores the save runs again. |
| TherapyProgress.DefaultsAreEmpty | src/lib/therapyProgress.js:15-22 | Every game starts with 0 sessions, high score 0, best streak 0, no best time and no last update. |
| TherapyProgress.DefaultsArePlain | src/lib/therapyProgress.js:15-22 | The defaults are already in stored form. |
| TherapyProgress.ReadShape | src/lib/therapyProgress.js:3-13 | No window, no entry, an empty string or unparsable text give the defaults. Otherwise the stored members are laid over the defaults. |
| TherapyProgress.ShallowMerge | src/lib/therapyProgress.js:8 | The merge is shallow: a stored game record replaces that game's default as a whole, and the other games keep their defaults. |
| TherapyProgress.OverlayIsPlain | src/lib/therapyProgress.js:8 | The merged progress consists of stored-form values. |
| TherapyProgress.UpdateShape | src/lib/therapyProgress.js:31-35 | The update keeps the current keys and adds the patch's keys and `lastUpdated`. Patched keys take the patch's values, the others keep theirs, and `lastUpdated` is the given time. |
| TherapyProgress.ReadAfterUpdate | src/lib/therapyProgress.js:28-38 | Loading the stored update over any defaults gives back exactly the update. |
| TherapyProgress.LoadAfterUpdate | src/lib/therapyProgress.js:24-38 | Loading after an update returns exactly what the update returned. |
| TherapyProgress.ProgressStore.constructor | src/lib/therapyProgress.js:1-22 | A valid store over the given window and entry, with the default progress. |
| TherapyProgress.ProgressStore.Update | src/lib/therapyProgress.js:28-38 | Without a window it returns nothing and stores nothing. With one it returns the current progress updated by the patch, stores it as JSON, and a later load returns it. |
| TherapyProgress.ProgressStore.UpdateGame | src/lib/therapyProgress.js:28-38 | Updating one game's record: a later load returns the previous progress with that record and the new time. |
| TherapyProgress.NextSessionCount | src/components/therapy/ContrastChallenge.jsx:58 | The new session count is a stored-form value. |
| TherapyProgress.SessionCounted | src/components/therapy/ContrastChallenge.jsx:58 | A numeric session count goes up by one; a missing one becomes 1. |
| TherapyProgress.KeptMax | src/components/therapy/ContrastChallenge.jsx:54 | A missing best becomes the larger of 0 and the score, and a numeric best the larger of best and score. |
| TherapyProgress.KeptMaxBounds | src/components/therapy/MovingDotGame.jsx:67 | The kept maximum is at least the score and the previous best, and is one of the two. |
| TherapyProgress.GameRecord | src/components/therapy/ContrastChallenge.jsx:55-60 | A finished game's record is a defined, stored-form object. |
| TherapyProgress.GameRecordMembers | src/components/therapy/ContrastChallenge.jsx:55-60 | The record has exactly the best-result key and `totalSessions`, holding the best as JSON and the next session count. |
| TherapyProgress.BestRecord | src/components/therapy/MovingDotGame.jsx:66-73 | The record a finished game session writes, in both games, is a defined, stored-form object. |
| TherapyProgress.BestRecordRaised | src/components/therapy/ContrastChallenge.jsx:54-59 | A numeric best becomes the larger of itself and the score, a missing one becomes the score, and the session count goes up by one. |
| MovingDot.PointIndex | src/components/therapy/MovingDotGame.jsx:42 | During a session, the dot is on one of the four path segments. |
| MovingDot.Intra | src/components/therapy/MovingDotGame.jsx:44 | The fraction along the segment lies in [0, 1). |
| MovingDot.PositionOnSegment | src/components/therapy/MovingDotGame.jsx:42-48 | The dot stays on the segment between its current path point and the next, and inside the box the path spans. |
| MovingDot.PositionAtPathPoints | src/components/therapy/MovingDotGame.jsx:42-48 | At each quarter of the session the dot is exactly on a path point. |
| MovingDot.TimeLeft | src/components/therapy/MovingDotGame.jsx:54 | The seconds left are never negative. |
| MovingDot.TimeLeftCountsDown | src/components/therapy/MovingDotGame.jsx:54 | During a session the seconds left run from 20 down to 1 and never go up. |
| MovingDot.FrameAt | src/components/therapy/MovingDotGame.jsx:34-56 | A frame finishes exactly when 20 s have passed. It throws exactly for a negative elapsed time, since it reads a point before the first. Otherwise it moves the dot and shows 1 to 20 seconds. |
| MovingDot.FrameMoves | src/components/therapy/MovingDotGame.jsx:42-54 | A frame during the session moves the dot along the current segment and shows the seconds for the elapsed time. |
| MovingDot.AsWrittenIgnoresTaps | src/components/therapy/MovingDotGame.jsx:65 | As written, the record does not depend on the session's taps: a first session with five taps records a high score of 0. |
| MovingDot.SessionScoreRecorded | src/components/therapy/MovingDotGame.jsx:63-73 | With the taps as the score, the stored high score is at least the taps and at least the previous numeric high score. A missing high score becomes the taps. |
| MovingDot.MovingDotGame.constructor | src/components/therapy/MovingDotGame.jsx:16-22 | Not running, no hits, 20 seconds, the stored moving-dot record. |
| MovingDot.MovingDotGame.Start | src/components/therapy/MovingDotGame.jsx:25-31 | Running with 0 hits, 20 seconds and the clock at the start time. |
| MovingDot.MovingDotGame.Hit | src/components/therapy/MovingDotGame.jsx:78-81 | A tap counts exactly while the session runs. |
| MovingDot.MovingDotGame.ResetHits | src/components/therapy/MovingDotGame.jsx:133-144 | Between sessions, the hits go back to 0. |
| MovingDot.MovingDotGame.Animate | src/components/therapy/MovingDotGame.jsx:34-76 | The frame is the one for the elapsed time. A moving frame updates the seconds left. A finishing frame stops the game and stores the record with the session's taps (the corrected program; see Findings), and a later load returns it. |
| ContrastChallenge.LevelOf | src/components/therapy/ContrastChallenge.jsx:30 | The level is a valid index, at most the round's index, and equal to it for the first four rounds. |
| ContrastChallenge.SessionRoundsOf | src/components/therapy/ContrastChallenge.jsx:30 | A started session has eight rounds. |
| ContrastChallenge.InitialRounds | src/components/therapy/ContrastChallenge.jsx:21 | The first render has eight rounds. |
| ContrastChallenge.SessionRoundsHarden | src/components/therapy/ContrastChallenge.jsx:7-16 | Round i shows the i-th drawn shape. The contrast goes 0.6, 0.45, 0.3, then 0.2 from the fourth round on, and never rises. |
| ContrastChallenge.CorrectCount | src/components/therapy/ContrastChallenge.jsx:53 | The score never exceeds the number of answers. |
| ContrastChallenge.CorrectCountAppend | src/components/therapy/ContrastChallenge.jsx:40-53 | One more answer adds one to the score exactly when it is correct. |
| ContrastChallenge.CorrectCountExtremes | src/components/therapy/ContrastChallenge.jsx:53 | All answers right gives the full count, none right gives 0. |
| ContrastChallenge.ContrastChallengeGame.constructor | src/components/therapy/ContrastChallenge.jsx:19-24 | Eight first-level rounds, round 0, no answers, not active, the stored record. |
| ContrastChallenge.ContrastChallengeGame.Start | src/components/therapy/ContrastChallenge.jsx:29-35 | Fresh hardening rounds, no answers, round 0, active. |
| ContrastChallenge.ContrastChallengeGame.Answer | src/components/therapy/ContrastChallenge.jsx:37-63 | Outside a session nothing happens. In one, the answer is logged with its correctness and the score rises by exactly that. Before the eighth round it advances. The eighth answer finishes the session with the score stored as the best streak and one more session counted. |
| ContrastChallenge.ContrastChallengeGame.ClearResults | src/components/therapy/ContrastChallenge.jsx:129-140 | Between sessions the answers, and so the score, go back to empty. |
| ObjectMatch.Ids | src/components/therapy/ObjectMatchGame.jsx:16-21 | The object id of each card, in order. |
| ObjectMatch.DeckKeyEnds | src/components/therapy/ObjectMatchGame.jsx:17 | Card i's key ends in the digit i. |
| ObjectMatch.DeckFresh | src/components/therapy/ObjectMatchGame.jsx:13-21 | Eight face-down, unmatched cards with distinct keys. |
| ObjectMatch.DeckPairs | src/components/therapy/ObjectMatchGame.jsx:14 | Every object appears on exactly two cards. |
| ObjectMatch.ShuffledFresh | src/components/therapy/ObjectMatchGame.jsx:13-23 | Any shuffle of the deck gives a valid face-down layout with nothing matched. |
| ObjectMatch.Replace | src/components/therapy/ObjectMatchGame.jsx:48 | Only the card with that key is replaced. |
| ObjectMatch.FlipOnly | src/components/therapy/ObjectMatchGame.jsx:47-48 | With distinct keys, flipping by key turns over exactly the chosen card. |
| ObjectMatch.MatchAll | src/components/therapy/ObjectMatchGame.jsx:62-66 | Every card of that object becomes matched and face up; the others are unchanged. |
| ObjectMatch.MatchAdds | src/components/therapy/ObjectMatchGame.jsx:62-66 | A match adds exactly that object to the matched set. |
| ObjectMatch.Unflip | src/components/therapy/ObjectMatchGame.jsx:70-74 | Exactly the two chosen cards turn back face down. |
| ObjectMatch.ObjectIdsDistinct | src/components/therapy/ObjectMatchGame.jsx:6-11 | The four objects have distinct ids. |
| ObjectMatch.SameLayoutKeeps | src/components/therapy/ObjectMatchGame.jsx:47-74 | An update that keeps every card's key and object keeps a valid layout. |
| ObjectMatch.SameMatchesKeep | src/components/therapy/ObjectMatchGame.jsx:47-74 | An update that keeps every card's matched state keeps the matched objects, their pairing and every selection's cards. |
| ObjectMatch.MatchLayout | src/components/therapy/ObjectMatchGame.jsx:62-66 | Matching keeps a valid layout. |
| ObjectMatch.UnflipLayout | src/components/therapy/ObjectMatchGame.jsx:70-74 | Turning cards back keeps a valid layout. |
| ObjectMatch.ConsistentCount | src/components/therapy/ObjectMatchGame.jsx:35 | The matched count never exceeds 4, and at 4 every card is matched. |
| ObjectMatch.FlipStep | src/components/therapy/ObjectMatchGame.jsx:37-56 | Flipping keeps the game consistent, and a second pick queues the pair for evaluation. |
| ObjectMatch.MatchStep | src/components/therapy/ObjectMatchGame.jsx:58-68 | Matching a queued pair keeps the game consistent, with one more matched pair. |
| ObjectMatch.MismatchStep | src/components/therapy/ObjectMatchGame.jsx:69-77 | Turning back a mismatched pair keeps the game consistent, with the same count. |
| ObjectMatch.BestTime | src/components/therapy/ObjectMatchGame.jsx:82 | No previous best (or 0) gives this time; otherwise the smaller of the two. |
| ObjectMatch.BestTimeImproves | src/components/therapy/ObjectMatchGame.jsx:82 | The new best is at most both times, and equals one of them. |
| ObjectMatch.CompletionRecord | src/components/therapy/ObjectMatchGame.jsx:83-88 | The record a completion stores is a defined, stored-form object. |
| ObjectMatch.ObjectMatchGame.constructor | src/components/therapy/ObjectMatchGame.jsx:26-33 | A fresh shuffled deck, nothing selected, no moves, no matches, no clock, the stored record. |
| ObjectMatch.ObjectMatchGame.Flip | src/components/therapy/ObjectMatchGame.jsx:37-56 | A matched or already selected card is ignored. Otherwise it turns face up and is selected; the first flip starts the clock, and a second pick is queued for evaluation. |
| ObjectMatch.ObjectMatchGame.Evaluate | src/components/therapy/ObjectMatchGame.jsx:58-78 | One more move. Equal objects are matched and counted, different ones turned back, and the selection is emptied. |
| ObjectMatch.ObjectMatchGame.CheckCompletion | src/components/therapy/ObjectMatchGame.jsx:80-94 | It finishes exactly when all four pairs are matched and the clock runs. It then stores the best time and one more session, and stops the clock; otherwise nothing changes. |
| ObjectMatch.ObjectMatchGame.Reset | src/components/therapy/ObjectMatchGame.jsx:96-103 | A fresh shuffle, with no selection, moves, matches or clock. |
| AuthMiddleware.ExtractTokenFromHeader | backend/src/middleware/auth.js:4-11 | There is a token exactly when the header splits on spaces into two parts and the first is "Bearer" in any case. The token is the second part. |
| AuthMiddleware.ExtractTokenRoundTrip | backend/src/middleware/auth.js:4-11 | "scheme token" gives the token back exactly for a Bearer scheme. Every header a token comes from has that form, with a single space. |
| AuthMiddleware.Verified | backend/src/middleware/auth.js:22-26 | The decoded claims when verification succeeds, the 401 error otherwise. |
| AuthMiddleware.RequireAuth | backend/src/middleware/auth.js:13-28 | The request goes on exactly when the chosen token is non-empty and verifies; every failure is the same 401 error. |
| AuthMiddleware.CookieTakesPrecedence | backend/src/middleware/auth.js:15-16 | A non-empty cookie token decides alone, whatever the header. Without one the header's bearer token decides. |
| AuthMiddleware.RequireRole | backend/src/middleware/auth.js:30-38 | The request goes on exactly for a user with one of the roles; otherwise 403. |
| AuthMiddleware.RequireRoleMonotone | backend/src/middleware/auth.js:30-38 | Listing more roles never shuts out a user let in before, and an empty list admits nobody. |
| App.NonEmpty | backend/src/app.js:14 | The filter keeps exactly the non-empty entries. |
| App.NonEmptyKeeps | backend/src/app.js:14 | Without empty entries the filter keeps the list as it is. |
| App.TrimAll | backend/src/app.js:13 | Each entry trimmed, in order. |
| App.AllowedOrigins | backend/src/app.js:10-14 | Unset or empty gives no origins. Every origin listed is non-empty, has no comma and no surrounding whitespace. An origin is listed exactly when it is a non-empty trimmed piece of the setting. |
| App.AllowedOriginsOfList | backend/src/app.js:10-14 | A clean list written out with commas is read back as that list. |
| App.CorsDecision | backend/src/app.js:19-31 | Unset, every origin is admitted. Set to a clean list, an origin is admitted exactly when it is empty or appears in the list verbatim. |
| App.CorsError | backend/src/app.js:19-31 | A refused origin raises an error exactly when the CORS rule does not admit it. |
| App.Respond | backend/src/app.js:46-56 | No handler gives 404 "Resource not found". An error gives its status or 500, and its message or "Internal server error". |
| App.ErrorsReachClient | backend/src/app.js:50-56 | An `HttpError` reaches the client with its own status and message; a refused origin is answered 500. |
| ScreeningService.InsertValues | backend/src/services/screening.service.js:4-67 | The eighteen values follow the columns. The ids, the final risk score, the class and consent pass through as they are; every other falsy member becomes null. |
| ScreeningService.ZeroScoresStoredAsNull | backend/src/services/screening.service.js:48-67 | A sub-score of exactly 0 is stored as null, while a final risk of 0 and a consent of false are stored as they are. |
| ScreeningService.FirstRowOrNull | backend/src/services/screening.service.js:91-93 | No rows give null; a truthy first row is returned. |
| ScreeningController.CreateScreening | backend/src/controllers/screening.controller.js:4-7 | 201 with "Screening saved" and the stored row. |
| ScreeningController.GetScreening | backend/src/controllers/screening.controller.js:9-16 | 404 "Screening not found" exactly when the lookup found nothing; otherwise the row as `data`. |
| ScreeningController.LookupToResponse | backend/src/controllers/screening.controller.js:9-16 | An empty query result gives 404, and a single row gives that row. |
| ScreeningController.ListScreenings | backend/src/controllers/screening.controller.js:18-32 | The rows exactly when the requester may list this user's screenings; otherwise 403. |
| ScreeningController.OwnerMayList | backend/src/controllers/screening.controller.js:22-25 | A user may always list their own screenings. |
| ScreeningController.ParentMayNotListOthers | backend/src/controllers/screening.controller.js:22-28 | A parent may not list another user's screenings. |
| ScreeningController.ClinicianMayList | backend/src/controllers/screening.controller.js:25 | Doctors and admins may list anyone's screenings. |
| ScreeningController.ListAllScreenings | backend/src/controllers/screening.controller.js:34-41 | The rows exactly when the role check for doctor or admin passes; otherwise 403. |
| TherapyService.EnsureChildAccess | backend/src/services/therapy.service.js:6-24 | A missing child is 404 and another parent's child 403. Access is granted exactly otherwise, with the child returned. |
| TherapyService.ChildAccessRules | backend/src/services/therapy.service.js:16-21 | The owner always has access, and so does every role other than parent. |
| TherapyService.SessionValues | backend/src/services/therapy.service.js:50-59 | The child and game pass through. Every other falsy member takes its default: 0, 0, 0, 0, level 1, notes null. |
| TherapyService.CreateTherapySession | backend/src/services/therapy.service.js:26-63 | An unknown game is 400. Otherwise the request fails exactly as the child access check fails, and on success the inserted values are those of the payload. |
| TherapyService.GameCheckedFirst | backend/src/services/therapy.service.js:38-42 | An unknown game is refused before the child is even looked at. |
| AuthService.CreateUser | backend/src/services/auth.service.js:42-74 | An unknown role is 400; a known role with an existing account is 409. Otherwise the user is created with trimmed names, the lower-cased trimmed email, the password's hash and the role. |
| AuthService.RoleCheckedFirst | backend/src/services/auth.service.js:43-45 | An unknown role is refused whatever the lookup says. |
| AuthService.StoredEmailLooksUpItself | backend/src/services/auth.service.js:21 | A stored email is its own lookup key, and storing it again changes nothing. |
| AuthService.PaddedEmailMissesLookup | backend/src/services/auth.service.js:21 | A padded email is looked up under a different key from the one it is stored under. So " a@b" passes the duplicate check when "a@b" exists, and both are stored as "a@b". |
| AuthService.VerifyCredentials | backend/src/services/auth.service.js:76-89 | A user is returned exactly when the lookup finds one and the password matches. The result is that user without `passwordHash`. Every failure is the same 401. |
| AuthService.FailuresAlike | backend/src/services/auth.service.js:76-85 | An unknown email and a wrong password give the same answer. |
| ReportController.FormatPercent | backend/src/controllers/report.controller.js:6-9 | "--" for nullish values; otherwise a text ending in '%'. |
| ReportController.Percent | backend/src/controllers/report.controller.js:8 | The percentage is the rounded hundredfold value followed by '%'. |
| ReportController.PercentReadsBack | backend/src/controllers/report.controller.js:6-9 | The rounded percentage reads back as a number within half a point of the hundredfold value, and as 0 to 100 for values in [0, 1]. |
| ReportController.FormatDate | backend/src/controllers/report.controller.js:11-15 | "N/A" for falsy values; otherwise the locale text. |
| ReportController.Minutes | backend/src/controllers/report.controller.js:91 | A falsy duration counts as 0 and a number as itself. |
| ReportController.TotalMinutesAppend | backend/src/controllers/report.controller.js:90-93 | The total over two lists of sessions is the sum of their totals. |
| ReportController.TotalMinutesBounds | backend/src/controllers/report.controller.js:90-93 | Non-negative durations give a non-negative total; no known durations give 0. |
| ReportController.ParentSummary | backend/src/controllers/report.controller.js:17-102 | Only parents get a report (403 otherwise). It holds: the latest screening exactly when there is one; the first five screenings and sessions; the session count; and the total minutes exactly when there are sessions. |

## Left out

- Timers, animation frames and React scheduling are not modelled. Each handler is one method call, and the model fixes the order of events. This covers the 600 ms pair evaluation, the 400 ms pause and the 2 s shape display in the contrast test, the 150 ms sampling, and the test-end timeouts.
- Stale closures in the alignment and tracking pages are not modelled. There, `finalizeScore` and `finishTest` run from a timeout created when the test started. The model scores the samples the page holds at that moment. The moving dot game's stale closure is modelled only by the as-written member of its finding (MovingDot.AsWrittenIgnoresTaps); the game's methods run the corrected program.
- The camera, MediaPipe face mesh, canvas drawing and the chart are not modelled. Landmarks and pixel brightness are inputs.
- Randomness is an input: the card shuffle, the drawn shapes, `crypto.randomUUID` round ids and `Date.now()` times.
- I/O, the network and the database are not modelled. The post to the backend is split into its start, success and failure; query results are inputs.
- Password hashing (bcrypt), token signing and verification (JWT), request validation (Joi), the route table and the server start are not modelled. Hashing, comparing and verifying are function parameters.
- backend/src/utils/httpError.js is not part of this model. The model assumes an error that carries the status and the message it is built with.
- NaN is kept only in the result page's risk, where a score that is not a number makes the risk unknown. Elsewhere the games store only numbers or null. `Math.max` of a non-numeric stored best is written as null.
- Number parsing covers decimal literals: an optional sign, digits with an optional fraction ("5", "5.", ".5", "0.25"), and surrounding whitespace. The exponent, hexadecimal, binary and octal forms of `Number()`, and "Infinity", are not modelled; the model reads them as NaN.
- Case folding covers ASCII letters only; `toLowerCase` and the case-insensitive Bearer match on other letters are not modelled.
- Stored progress that parses to a non-object JSON value is not modelled. The model reads it as `{}`, where the source would spread a string into indexed members or throw on a null game record.
- Messages, labels and layout are not modelled. This covers the PDF text, the report filename `user.firstName \|\| 'parent'`, and the report's per-session `pointsEarned \|\| 0` and `streak \|\| 0`.
- The alignment page's `handleContinue` is not modelled: it only navigates when there is a score. The tracking page's `handleContinue`, which writes storage itself, is modelled.
- Results.ResultsPage.BeginSave: does not model the `isCancelled` flag of an unmounted page.
- TherapyService.EnsureChildAccess, TherapyService.CreateTherapySession and ReportController.ParentSummary require a user, which the routes always authenticate first. A missing user would throw a TypeError.
- ReportController.ParentSummary requires every duration to be a number or falsy (an integer column); summing strings would concatenate.
- ObjectMatch.ObjectMatchGame.CheckCompletion, ContrastChallenge.ContrastChallengeGame.Answer and MovingDot.MovingDotGame.Animate require a browser window when they store a finished session. Without one the update returns undefined and the source's read of the new record throws.
- ObjectMatch.ObjectMatchGame.Reset: does not cancel a pair evaluation already queued by a timer. The queue is kept, and the game is coherent again once it is empty.
- Webcam.AssessLighting requires a canvas with an empty side, or at least 10 pixels in each direction. When both sides are non-empty and one is below 10, the sampling step is 0 and the source's loop never ends.
- Contrast.ContrastTest.HandleResponse: stores the intended score, computed from the records with the last reaction time appended. As written, the source stores a score that is not a number (null once stringified) on every complete run. That behaviour is stated only by Contrast.FinalRecordsAsWritten and Contrast.AsWrittenNeverScorable (see Findings).
- MovingDot.MovingDotGame.Animate: stores the intended record, with the taps of the session just played. As written, the source's stale closure records the hits shown before the session. That behaviour is stated only by MovingDot.AsWrittenIgnoresTaps (see Findings).
- Webcam.CheckFaceCentered requires the nose landmark, since the source destructures it without a guard.
- Alignment.ScoreOf: the source's default score has no `angleScore`; the model writes it as none.

## Findings

| source | as written | input that shows it | evidently intended | confidence | as-written member | corrected member |
|---|---|---|---|---|---|---|
| src/app/screening/contrast/page.js:129 | The last answer is scored from `[...responses, { ...item, correct }]`, whose last record has no `reactionTime`. The right eye's mean reaction time is then NaN, and so is `contrastSensitivityScore`. | Any complete run of six answers. | Score the records with the reaction time just appended. | not executed | Contrast.AsWrittenNeverScorable | Contrast.FinalRecordsScorable |
| src/components/therapy/MovingDotGame.jsx:65 | `finishSession` is called from the animation loop, and its closure was created when the session started. So `score = hits` reads the hits shown before the session's own taps. | A first session with five taps records a high score of 0. | Record the taps of the session. | not executed | MovingDot.AsWrittenIgnoresTaps | MovingDot.SessionScoreRecorded |
