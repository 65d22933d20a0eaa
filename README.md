# ViewGuard monitor — a Dafny model of its drowsiness logic

ViewGuard watches students in a study room through a CCTV web viewer or a webcam. It
judges from face landmarks whether each student is dozing, and it sends an alert once
the dozing has lasted long enough. This project models the decision logic of that
system and proves properties of it.

It keeps the three monitoring loops apart:

- the seat-by-seat monitor (`src/main.py`). It cuts one captured frame into seat regions,
  judges each region occupied or empty, and drives a per-seat counter;
- the channel-switching monitor (`src/main_sequential.py`). It brings channels 1..N up one
  at a time by clicking buttons and drives a per-channel counter;
- the single-camera monitor (`viewguard-new/viewguard_main.py`). It has one counter and a
  GitHub cooldown.

The first two share a 10-entry history, the cooldown test and the counter decay
(module `Hysteresis`). They differ in one place, and the model keeps that difference:

- the seat monitor clears the counter whenever it reaches the threshold;
- the channel monitor clears it only when the cooldown allows the alert, so while the
  cooldown blocks, the counter climbs past the threshold.

Around these loops the model also covers:

- the landmark detector's decision table;
- the seat lookups of the capture component;
- the channel controller;
- the seat editor and the channel-button editor;
- the GitHub and multi-channel notifiers' decision rules.

Modelling conventions:

- Time is a whole number of seconds given by the caller. Python's `timedelta.seconds`
  becomes `(now - last) % 86400`.
- Measurements are `real`s.
- Tables the program keys by `str(n)` are held keyed by `n`. `Tables.TextKeys` gives
  back the string-keyed form, and `Decimal` proves that `str` is injective.
- Anything external is a parameter: the screen grab, the mouse click, the face-mesh
  landmarks, the notifier's answer and HTTP responses.

Classes stand for the source's objects that update their fields:

- `StudentMonitor`, `SequentialStudentMonitor`, `ChannelController`;
- `DrowsinessDetector`, `CctvMonitor`;
- `RoiManager`, `ChannelSetup`.

Each loop is a `while` loop proved against a recursive function of its inputs
(`RunSeats`, `CycleFold`, `RunFrames`), and lemmas about those functions state what the
loops achieve.

## Model

| member | source | states |
|---|---|---|
| AdvancedDetector.HeadTilt | src/advanced_detector.py:100-105 | a face of zero height reads as the upright 0.5; otherwise the result times the face height is the nose's offset from the forehead |
| AdvancedDetector.MouthAspectRatio | src/advanced_detector.py:128-132 | a zero-width mouth gives 0; otherwise the ratio times the width is the vertical opening |
| AdvancedDetector.Judge | src/advanced_detector.py:203-217 | drowsy exactly when eyes are closed or the head is down; confidence 0.95 for both, 0.80 for the head alone, 0.60 for the eyes alone, 0 for neither; confidence is at least 0.75 exactly when the head is down |
| AdvancedDetector.Detect | src/advanced_detector.py:158-230 | no face gives (False, 0.0, no_face_detected), and only then is the status missing; the confidence always lies in [0, 1) |
| AdvancedDetector.DetectMeasured | src/advanced_detector.py:185-230 | for a seen face: the mean EAR, both raw EARs and the tilt are reported; eyes closed iff mean EAR < threshold, head down iff tilt > threshold (both strict); drowsy iff either; the status says drowsy iff drowsy |
| AdvancedDetector.HeadDownDecidesAtThreshold | src/advanced_detector.py:203-217 | for any confidence threshold in (0.6, 0.8], such as the monitors' 0.75, a verdict passes it exactly when a face was seen with the head down; closed eyes alone never count |
| AdvancedDetector.HeadDownFaceVerdict | src/advanced_detector.py:199-217 | under the default thresholds 0.2 and 0.58, open eyes with the nose 70% of the way down the face are drowsy with confidence 0.80 |
| Hysteresis.AppendHistory | src/main.py:121-135 | after an append the newest sample is last and the history is the last min(n + 1, 10) samples of the old history plus the new one |
| Hysteresis.AppendAllKeepsLatest | src/main.py:126-135 | after any number of appends to a history of at most 10 entries, it holds the last (at most 10) samples seen, in arrival order |
| Hysteresis.HistoryFromEmpty | src/main_sequential.py:151-159 | from an empty history, n samples leave exactly the last min(n, 10) of them |
| Hysteresis.LastNOfLastN | src/main.py:133-135 | trimming to the last n before appending more does not change the last n of the whole |
| Hysteresis.ElapsedSeconds | src/main.py:145 | the elapsed `.seconds` lies in [0, 86400), differs from the real difference by whole days, and equals it within a day |
| Hysteresis.CooldownOver | src/main.py:137-146 | no previous alert always allows one; within a day of the last alert, one is allowed exactly when at least the cooldown has elapsed |
| Hysteresis.CooldownForgetsDays | src/main_sequential.py:183-192 | since `.seconds` drops whole days, an alert any number of days plus fewer than cooldown seconds after the last is still refused |
| Hysteresis.CooldownScenario | src/main.py:137-146 | with the 300 s default: no previous alert allows one, 200 s after refuses, 301 s after allows |
| Hysteresis.Decay | src/main.py:202-205 | a benign tick lowers a positive counter by one and leaves 0 at 0 |
| Hysteresis.CountsAsDrowsyOnDetect | src/main.py:187 | on the detector's verdicts, the `is_drowsy and confidence >= CONFIDENCE_THRESHOLD` test passes exactly for a head-down face when the threshold is in (0.6, 0.8], as with the default 0.75; for every drowsy verdict when it is at most 0.6; for none above 0.95 |
| Hysteresis.DrowsyRate | src/main.py:224-228 | with no more drowsy ticks than checks the printed rate is within 0..100; all drowsy gives 100, none gives 0 |
| SeatMonitor.InitialSeatStateValid | src/main.py:86-95 | a new seat state has a zero counter, no last alert, is unoccupied with empty history and zero totals, and satisfies the seat invariant |
| SeatMonitor.OccupancyNeedsBothStrictly | src/main.py:115-117 | a seat is occupied only when darker than the brightness threshold and more textured than the edge threshold, both strict; 200 brightness is empty, 90 with 0.2 edges is occupied |
| SeatMonitor.SeatTick | src/main.py:161-205 | one `process_seat` always counts one check and records the occupancy decision; the notifier is called only for an occupied seat's confident drowsy tick, and an alert is sent only when the notifier was called |
| SeatMonitor.SeatTickBehaviour | src/main.py:161-205 | one `process_seat`: checks +1; an empty seat gets a zero counter, no history and no alert; an occupied seat records the detector's sample; a confident drowsy tick raises counter and drowsy total, and on reaching the threshold clears the counter whether or not the cooldown let the notifier be called; any other tick decays the counter; the alert time moves only on a successful send |
| SeatMonitor.SeatTickOccupied | src/main.py:169-205 | an occupied seat's tick is the counting half applied after the check is counted, the seat marked occupied and the detector's sample recorded |
| SeatMonitor.CountTick | src/main.py:187-205 | the counting half of `process_seat`: only the counter, the drowsy total and the alert time change, as above |
| SeatMonitor.SeatTickKeepsInvariant | src/main.py:169-205 | every tick keeps: unoccupied implies a zero counter, history of at most 10, drowsy total at most checks, and (threshold ≥ 1) counter below the threshold |
| SeatMonitor.SeatRateBounded | src/main.py:224-228 | a seat satisfying the invariant prints a rate within 0..100 % |
| SeatMonitor.StreakBelowThreshold | src/main.py:187-197 | confident drowsy ticks that stay short of the threshold raise the counter by their number, call no notifier and leave the alert time alone |
| SeatMonitor.RunSeatKeepsInvariant | src/main.py:169-205 | over any series of ticks the invariant holds, checks grow by one per tick, and successful sends never exceed notifier calls |
| SeatMonitor.RunSeatSplit | src/main.py:161-205 | running two series of ticks in turn is running their concatenation, with notifier calls and successes added |
| SeatMonitor.FifthSeatTick | src/main.py:187-201 | with four drowsy ticks counted, a fifth head-down tick clears the counter; the notifier is called, and the alert time moves, exactly when the cooldown is over |
| SeatMonitor.FiveSeatTicks | src/main.py:187-201 | from a zero counter, five head-down ticks 2 s apart clear the counter and alert at the fifth exactly when the cooldown is over by then |
| SeatMonitor.EndToEndScenario | src/main.py:187-201 | threshold 5, cooldown 300, a head-down face every 2 s from any start t0: ticks at t0..t0+8 send one alert at t0+8 and clear the counter; ticks at t0+10..t0+18 reach the threshold again, call no notifier, and still clear the counter |
| SeatMonitor.FrameStep | src/main.py:279-286 | a seat whose region cannot be cut out keeps its state; otherwise it takes one tick, adding one check |
| SeatMonitor.ExtendRunCases | src/main.py:274-286 | visiting a seat first gives it a state if it has none; the seat then takes one tick when its region fits the frame, and nothing else happens otherwise |
| SeatMonitor.RunSeatsStep | src/main.py:274-286 | visiting one more seat extends the frame by exactly that seat's step |
| SeatMonitor.RunSeatsKeys | src/main.py:274-277 | after a frame the seats with a state are exactly those that had one plus those visited |
| SeatMonitor.RunSeatsFrame | src/main.py:274-286 | a seat the frame does not visit keeps its state |
| SeatMonitor.RunSeatsPointwise | src/main.py:274-286 | with distinct seat ids, each visited seat ends with one tick applied to its state before the frame (a fresh one if new) |
| SeatMonitor.RunSeatsKeepsInvariant | src/main.py:274-286 | a frame keeps every seat's invariant, and its successful alerts ≤ drowsy ticks ≤ seats visited |
| SeatMonitor.StudentMonitor.constructor | src/main.py:47-66 | no seat states and all global counters zero |
| SeatMonitor.StudentMonitor.UpdateSeatHistory | src/main.py:121-135 | only that seat's history changes: the sample is appended and the oldest dropped beyond 10 |
| SeatMonitor.StudentMonitor.SendAlert | src/main.py:137-159 | the notifier is called exactly when the cooldown is over; the seat's alert time becomes now and `alerts_sent` rises only when it reports success |
| SeatMonitor.StudentMonitor.CountDrowsiness | src/main.py:187-205 | the seat state, `drowsy_detections` and `alerts_sent` move exactly as `CountTick` says |
| SeatMonitor.StudentMonitor.ProcessOccupiedSeat | src/main.py:169-205 | an occupied seat changes exactly as `SeatTick` says for an occupied seat, with the global drowsy and alert totals following it |
| SeatMonitor.StudentMonitor.ProcessSeat | src/main.py:161-205 | only that seat changes, exactly as `SeatTick` says; the global drowsy and alert totals follow it; the seat invariant is kept |
| SeatMonitor.StudentMonitor.VisitSeat | src/main.py:274-286 | a seat without a state gets a fresh one; the seat then takes its `FrameStep` |
| SeatMonitor.StudentMonitor.VisitSeats | src/main.py:274-286 | visiting the seats in order leaves the states and totals that `RunSeats` gives |
| SeatMonitor.StudentMonitor.RunFrame | src/main.py:260-286 | no screen changes nothing; otherwise `total_checks` rises by one per frame, the seat keys grow by the configured seats, each seat takes its own tick from its old state, and seats not configured keep theirs |
| SequentialMonitor.InitialChannelStateValid | src/main_sequential.py:92-102 | a new channel state has a zero counter, no alert, no person, empty history, zero totals, no check time, and satisfies the channel invariant |
| SequentialMonitor.ChannelTick | src/main_sequential.py:123-181 | one `process_channel` always counts one check and stamps it; the person flag is set exactly when a face was seen; the notifier is called only for a confident drowsy tick on a seen face, and an alert is sent only when the notifier was called |
| SequentialMonitor.ChannelTickBehaviour | src/main_sequential.py:123-181 | one `process_channel`: checks +1 and check time stamped first; no face clears the person flag and the counter, with no history and no alert; a face records the sample; a confident drowsy tick raises the counter; at the threshold the notifier is called exactly when the cooldown is over, and the counter is cleared only then; otherwise it keeps climbing; any other tick decays it; the alert time moves only on a successful send |
| SequentialMonitor.ChannelCountTick | src/main_sequential.py:161-181 | the counting half: the notifier is called iff drowsy, at the threshold and the cooldown is over; the counter is cleared iff the notifier was called, otherwise a drowsy tick adds one and a benign tick decays it |
| SequentialMonitor.ChannelTickKeepsInvariant | src/main_sequential.py:135-181 | every tick keeps: no person implies a zero counter, history of at most 10, drowsy total at most checks, and a check time exactly once checked |
| SequentialMonitor.ChannelRateBounded | src/main_sequential.py:306-310 | a channel satisfying the invariant prints a rate within 0..100 % |
| SequentialMonitor.RunChannelSplit | src/main_sequential.py:123-181 | running two series of ticks in turn is running their concatenation |
| SequentialMonitor.ChannelStreakBelowThreshold | src/main_sequential.py:162-172 | confident drowsy ticks short of the threshold raise the counter by their number, call no notifier and leave the alert time alone |
| SequentialMonitor.CounterClimbsWhileBlocked | src/main_sequential.py:174-177 | while every tick is within the cooldown of the last alert, confident drowsy ticks raise the counter by their number, past the threshold, and call no notifier |
| SequentialMonitor.FifthDrowsyTickAlerts | src/main_sequential.py:174-177 | with four counted and no alert yet, a fifth confident drowsy tick sends the alert, stamps it and clears the counter |
| SequentialMonitor.FirstAlertClearsCounter | src/main_sequential.py:161-177 | from a fresh channel, five drowsy ticks at t=0..8 send one alert at t=8 and clear the counter |
| SequentialMonitor.CooldownLetsCounterClimb | src/main_sequential.py:174-177 | after that alert, six drowsy ticks at t=10..20 call no notifier and leave the counter at 6, above the threshold of 5, where the seat monitor clears it |
| SequentialMonitor.HeadDownFaceCountsAsDrowsy | src/main_sequential.py:140-162 | the head-down face's verdict counts as drowsy under the default thresholds |
| SequentialMonitor.VisitChannelCounts | src/main_sequential.py:220-241 | one visit processes at most one channel, counts a drowsy tick only for a processed channel and a successful alert only for a drowsy tick |
| SequentialMonitor.VisitChannelAt | src/main_sequential.py:220-241 | one visit changes at most the visited channel: a switched and captured channel takes one tick, any other channel keeps its state |
| SequentialMonitor.CycleFoldCounts | src/main_sequential.py:220-241 | within a cycle, successful alerts ≤ drowsy ticks ≤ channels processed ≤ channels tried |
| SequentialMonitor.CycleFoldPointwise | src/main_sequential.py:220-241 | a channel reached before ESC, switched to and captured ends with one tick applied to its state before the cycle (a fresh one if new); every other channel keeps its state |
| SequentialMonitor.CycleFoldStaysStopped | src/main_sequential.py:262-265 | once ESC stops the cycle, no later channel is visited |
| SequentialMonitor.SequentialStudentMonitor.constructor | src/main_sequential.py:54-72 | no channel states and all global counters zero |
| SequentialMonitor.SequentialStudentMonitor.SendAlert | src/main_sequential.py:194-201 | the channel's alert time becomes now and `alerts_sent` rises exactly when the notifier reports success |
| SequentialMonitor.SequentialStudentMonitor.CountDrowsiness | src/main_sequential.py:161-181 | the channel state, `drowsy_detections` and `alerts_sent` move exactly as `ChannelCountTick` says |
| SequentialMonitor.SequentialStudentMonitor.RecordFace | src/main_sequential.py:135-159 | a seen face: check counted and stamped, person flag set, sample appended with the 10-entry cap |
| SequentialMonitor.SequentialStudentMonitor.TickChannel | src/main_sequential.py:135-181 | only that channel changes, exactly as `ChannelTick` says; the invariant is kept |
| SequentialMonitor.SequentialStudentMonitor.EnsureChannel | src/main_sequential.py:131-133 | a channel seen for the first time gets a fresh state; no existing state and no counter changes |
| SequentialMonitor.SequentialStudentMonitor.ProcessChannel | src/main_sequential.py:123-181 | a channel's state is created on first use and never replaced; it then takes one tick |
| SequentialMonitor.SequentialStudentMonitor.VisitChannelOnce | src/main_sequential.py:220-265 | one pass of the cycle loop: switch; on a failed switch or capture the channel is skipped; otherwise it is processed and counted; ESC in debug mode stops |
| SequentialMonitor.SequentialStudentMonitor.RunSingleCycle | src/main_sequential.py:203-282 | channels 1..total in order; a failed switch or capture skips the channel; `total_checks` rises by the channels processed; the channel on screen is the last one switched to; ESC in debug mode returns False without counting the cycle; otherwise `total_cycles` rises by one and True is returned |
| SingleCamera.LoadSettings | viewguard-new/viewguard_main.py:36-60 | the file's values, or EAR 0.2, tilt 0.58, threshold 5, cooldown 300 and GitHub off when it cannot be read |
| SingleCamera.CounterStep | viewguard-new/viewguard_main.py:98-126 | no face leaves the counter; a drowsy face adds one; any other face gives max(0, count - 1) |
| SingleCamera.AlertStep | viewguard-new/viewguard_main.py:162-222 | a request is made exactly when GitHub is enabled and the cooldown has passed; the last alert time becomes now exactly on such a request answered 201 whose body yields `html_url` (otherwise the exception handler leaves it) |
| SingleCamera.DrowsinessDetector.constructor | viewguard-new/viewguard_main.py:30-34 | loaded settings, counter 0, last alert time 0 |
| SingleCamera.DrowsinessDetector.DetectDrowsiness | viewguard-new/viewguard_main.py:88-135 | the counter moves as `CounterStep` says; no face returns (False, 0, 0); drowsy exactly when a face was seen and the moved counter reached the threshold |
| SingleCamera.DrowsinessDetector.SendGithubAlert | viewguard-new/viewguard_main.py:162-222 | disabled or inside the cooldown: no request and no change; otherwise a request, and the alert time moves to now exactly when the answer is 201 and its body yields `html_url` |
| SingleCamera.FrameStep | viewguard-new/viewguard_main.py:266-286 | one pass of the `start` loop ends it exactly on an unread frame or 'q'; it calls `send_github_alert` at most once, makes a request only with that call, and moves the last alert time only to now and only with a request |
| SingleCamera.RunFrames | viewguard-new/viewguard_main.py:266-286 | over k frames, at most k `send_github_alert` calls, no more requests than calls, and the last alert time stays put when no request was made |
| SingleCamera.DrowsyStreamAlertsEveryFrame | viewguard-new/viewguard_main.py:123-130 | no alert clears the counter: on a stream of drowsy frames it rises by one per frame, and from one below the threshold every frame calls `send_github_alert` |
| SingleCamera.CooldownBlocksRequests | viewguard-new/viewguard_main.py:169-172 | while every frame is inside the cooldown window, no request is made and the last alert time stays put |
| SingleCamera.NoFaceChangesNothing | viewguard-new/viewguard_main.py:98-135 | a frame without a face changes neither the counter nor the alert state |
| SingleCamera.RunFramesStaysStopped | viewguard-new/viewguard_main.py:266-286 | once the loop ended (unread frame or 'q'), later frames change nothing |
| SingleCamera.CctvMonitor.constructor | viewguard-new/viewguard_main.py:228-237 | a fresh detector with the loaded settings, a zero counter and last alert time 0 |
| SingleCamera.CctvMonitor.Start | viewguard-new/viewguard_main.py:239-293 | a camera that does not open changes nothing; otherwise the counter, alert time, alert calls and requests are those of the frame loop up to the first unread frame or 'q' |
| Capture.SliceIndex | src/capture.py:127 | Python's slice bound normalisation stays within the sequence and is the identity on in-range bounds |
| Capture.PySlice | src/capture.py:127 | on in-range bounds, Python's slice is the plain subsequence |
| Capture.GetSeatRoi | src/capture.py:96-131 | unknown or disabled seats (a missing flag counts as enabled) give None; an enabled seat gives a region exactly when its far edges fit the frame; inside the frame it is the height x width block at (y, x) |
| Capture.GetAllSeatRois | src/capture.py:133-150 | keys are exactly the seats whose region can be cut out, each with that region |
| Capture.GetSeatCount | src/capture.py:194-196 | the count plus the seats whose `enabled` is explicitly false is the number of seats, so a missing flag counts as enabled; it equals the number of seats exactly when every seat is enabled |
| Capture.GetSeatInfo | src/capture.py:198-200 | the seat's entry exactly when the id is known, else None |
| ChannelControl.ChannelCount | src/channel_controller.py:171 | `range(1, total + 1)` visits total channels, none for a negative total |
| ChannelControl.NextChannel | src/channel_controller.py:207-209 | the next channel, wrapping to 1 past the last; stays in 1..total |
| ChannelControl.PreviousChannel | src/channel_controller.py:221-223 | the previous channel, wrapping to the last below 1; stays in 1..total |
| ChannelControl.NextPreviousInverse | src/channel_controller.py:200-226 | on a valid channel, next and previous undo each other |
| ChannelControl.NextTimesFullCycle | src/channel_controller.py:200-212 | stepping forward counts up to the last channel and returns to the start after exactly total steps |
| ChannelControl.ChannelController.constructor | src/channel_controller.py:24-56 | the loaded buttons, the configured `total_channels` or 16 when it is missing, on channel 1 |
| ChannelControl.ChannelController.SwitchToChannel | src/channel_controller.py:90-126 | succeeds exactly when the number is in range, `str(number)` has a button and the click goes through; only then does the channel on screen change |
| ChannelControl.ChannelController.SwitchNextChannel | src/channel_controller.py:200-212 | returns the wrapped next channel even if the switch failed; the channel on screen changes only on success |
| ChannelControl.ChannelController.SwitchPreviousChannel | src/channel_controller.py:214-226 | returns the wrapped previous channel even if the switch failed; the channel on screen changes only on success |
| ChannelControl.ChannelController.CaptureAllChannels | src/channel_controller.py:155-198 | keys are exactly the channels in 1..total whose switch and grab both succeeded, each with its own frame; the channel on screen is the last one switched to |
| Geometry.DragRect | src/roi_manager.py:82-92 | the rectangle's edges are exactly the two points' coordinates, width and height are the absolute differences |
| Geometry.DragDirectionIrrelevant | src/roi_manager.py:82-92 | dragging either way gives the same rectangle |
| RoiEditor.IsValidRect | src/roi_manager.py:68-80 | true exactly when both points are set and the drag spans at least 50 pixels each way |
| RoiEditor.NewSeat | src/roi_manager.py:137-146 | the pending rectangle's position and size, enabled, on channel `"CH%02d"`: "CH0" + the number below 10, "CH" + the number from 10 on, whose digits parse back to the number |
| RoiEditor.NewSeatChannelExamples | src/roi_manager.py:137-146 | seat 5 is stored on "CH05" and seat 12 on "CH12" |
| RoiEditor.DeleteUndoesAdd | src/roi_manager.py:148-172 | adding under the next number never overwrites a seat, keeps the numbering, and deleting the highest seat afterwards restores the table |
| RoiEditor.RoiManager.constructor | src/roi_manager.py:21-28 | no seats, next number 1, no drag in progress |
| RoiEditor.RoiManager.MouseCallback | src/roi_manager.py:46-66 | press starts a drag, a move while dragging moves its end, release ends it and keeps the rectangle only if valid; the table never changes |
| RoiEditor.RoiManager.AddSeat | src/roi_manager.py:131-154 | without a pending rectangle nothing changes; otherwise it becomes a new seat under the next number, which then moves on, and the drag is cleared |
| RoiEditor.RoiManager.DeleteLastSeat | src/roi_manager.py:156-172 | an empty table is left alone; otherwise the highest-numbered seat goes and the next number becomes one past the highest remaining, or 1 |
| RoiEditor.RoiManager.SaveAndExit | src/roi_manager.py:174-188 | an empty table is refused without writing; otherwise the `str`-keyed table is written, and the editor exits exactly when the write succeeded |
| RoiEditor.RoiManager.UseExistingSeats | src/roi_manager.py:206-211 | a loaded non-empty table is taken over and the next number exceeds all of its numbers |
| ButtonSetup.Range | channel_setup.py:80-86 | the set holds exactly the numbers 1..n |
| ButtonSetup.CaptureRegionRect | channel_setup.py:100-117 | None while a point is missing or the drag is under 100 pixels either way; otherwise the dragged rectangle |
| ButtonSetup.SavedButtonsCoverChannels | channel_setup.py:178-180 | a saved table of buttons 1..n gives the channel controller a button for exactly channels 1..n |
| ButtonSetup.ChannelSetup.constructor | channel_setup.py:19-32 | no buttons, no region, region stage, no drag |
| ButtonSetup.ChannelSetup.AddButton | channel_setup.py:77-87 | the click becomes the button of channel count + 1, unless 16 are set; the keys stay exactly 1..n with n ≤ 16 |
| ButtonSetup.ChannelSetup.DeleteLastButton | channel_setup.py:89-98 | an empty table is left alone; otherwise the highest channel, which is the count, goes and the keys stay 1..n |
| ButtonSetup.ChannelSetup.MouseCallback | channel_setup.py:55-75 | in the region stage the events drag the region and the buttons stay; in the buttons stage only a press adds a button |
| ButtonSetup.ChannelSetup.PressEnter | channel_setup.py:224-234 | in the region stage a valid dragged region is stored and the buttons stage begins; otherwise nothing changes |
| ButtonSetup.ChannelSetup.SaveConfig | channel_setup.py:164-196 | refused without writing when no region is set, or when fewer than 16 buttons are set and the user declines; otherwise the `str`-keyed buttons and the region are written and the result is the write's |
| GithubAlert.Labels | src/alert_system_github.py:139-147 | "drowsy" first; "urgent" exactly from 0.9; "high-confidence" exactly in [0.8, 0.9); never both; two labels exactly from 0.8 |
| GithubAlert.CreateIssue | src/alert_system_github.py:57-96 | a request is sent exactly when enabled; a URL comes back exactly when enabled, the status is 201 and the body yields `html_url`, and it is that URL |
| GithubAlert.SendDrowsyAlert | src/alert_system_github.py:98-147 | exactly `Labels(confidence)` and `CreateIssue`'s result: "drowsy" plus at most one of "urgent" / "high-confidence", two labels iff confidence ≥ 0.8; a request iff enabled; a URL iff status 201 with a readable `html_url`, and then that URL |
| GithubAlert.LabelsOfDetections | src/alert_system_github.py:139-147 | on the detector's own drowsy verdicts, "urgent" means eyes closed and head down, "high-confidence" means head down only, and closed eyes alone get "drowsy" only |
| MultiAlert.Lookup | src/alert_system_multi.py:115 | `chat_ids.get(name)`: None exactly when the name is absent, else that name's id (names are distinct, as in a JSON object) |
| MultiAlert.AllButGroup | src/alert_system_multi.py:112 | exactly the ids of entries not named "group" appear, no more of them than entries, and every id when no entry is named "group" |
| MultiAlert.AllButGroupAppend | src/alert_system_multi.py:112 | the filter works entry by entry in map order: on a concatenation it gives the concatenation of the two results |
| MultiAlert.AllButGroupSingle | src/alert_system_multi.py:112 | a single entry is kept, as its id, exactly when it is not named "group"; with the law above this fixes the order and the multiplicity of the result |
| MultiAlert.AllButGroupExample | src/alert_system_multi.py:112 | `a: 1, group: g, b: 2` gives `["1", "2"]` |
| MultiAlert.Single | src/alert_system_multi.py:116 | a present, non-empty id as a one-element list, else empty |
| MultiAlert.TelegramTargets | src/alert_system_multi.py:105-124 | "all" (no default) selects every non-group id; any other name, "group" by default, selects that name's id if present and non-empty; only "all" yields more than one target |
| MultiAlert.Successes | src/alert_system_multi.py:126-141 | the success count is at most the number of sends, positive iff one succeeded, and full iff all did |
| MultiAlert.SendTelegramAsync | src/alert_system_multi.py:126-141 | the loop returns the number of sends that went through |
| MultiAlert.TelegramEnabled | src/alert_system_multi.py:54-66 | enabled exactly when a non-empty, non-placeholder token is set and the bot was created |
| MultiAlert.SendTelegram | src/alert_system_multi.py:143-166 | false when disabled, without targets or when the event loop raised; otherwise true exactly when at least one send went through |
| MultiAlert.LogToGoogleSheets | src/alert_system_multi.py:168-192 | true exactly when enabled and the row was appended |
| MultiAlert.SendWebhook | src/alert_system_multi.py:194-219 | false when disabled or without a URL; otherwise true exactly on status 200 |
| MultiAlert.SendDrowsyAlert | src/alert_system_multi.py:221-265 | the result has exactly the keys telegram, google_sheets and webhook, each with its transport's answer |
| Decimal.ParseShow | src/roi_manager.py:163 | `int(str(n)) == n` for every natural n |
| Decimal.ShowInjective | src/roi_manager.py:148 | different numbers have different `str` keys |
| Decimal.Pad2 | src/roi_manager.py:144 | `%02d` gives two characters below 10 and reads back as the number |
| Tables.TextKeys | src/roi_manager.py:148 | the `str`-keyed table holds each entry under its number's text and has no other key |
| Tables.TextKeysLookup | src/channel_controller.py:104-106 | `str(n)` is a key of the stored table exactly when n is a number in it |
| Tables.MaxKey | src/roi_manager.py:163 | `max(int(k) for k in table)`: a key of the table, no smaller than any other |

## Left out

- Screen grabs, mouse clicks, camera frames, `time.sleep` delays, OpenCV windows, drawing and key reading are external. Their outcomes are parameters: click success, the captured frame or its absence, the key pressed.
- The face mesh, the Euclidean EAR, the arctangent head angle, grey-level brightness and Canny edge density are floating-point library code. The model takes their results as `real` inputs.
- Wall-clock time (`datetime.now()`, `time.time()`) is an integer number of seconds given by the caller. Sub-second differences are not modelled. One `now` serves a whole tick, where the source reads the clock several times.
- The notifiers behind `send_alert` in both monitors (Telegram, or `ConsoleAlert`, which always succeeds) are a boolean answer. The Telegram bot, GitHub REST, Google Sheets, webhook HTTP and the asyncio loop are reduced to their outcomes.
- Message, issue and row texts, and the console printing, are presentation only.
- JSON loading and saving of settings, seats and channel buttons is file I/O. `init_google_sheets` is also not modelled; the sheet transport's enabled flag is an input.
- SeatMonitor.FrameStep: a seat that passes the far-edge check but crops to an empty region (width or height at most 0, or a negative x or y whose Python slice wraps to nothing) is ticked like any other. In the program the check is counted and then `cv2.cvtColor` raises on the empty array (src/main.py:108), which ends the monitoring through `run`'s `except Exception` (src/main.py:329). Brightness and edge density are inputs here, and OpenCV's rejection of empty arrays is outside the model.
- SeatMonitor.StudentMonitor.RunFrame: inherits that case. A frame with such a seat carries on over the remaining seats, where the program stops monitoring.
- SeatMonitor.StudentMonitor.RunFrame: covers one pass of the `run` loop. The endless loop, its sleep, the statistics timer and the debug highlight window are left out.
- SequentialMonitor.SequentialStudentMonitor.RunSingleCycle: the second detection call made for the debug window is not modelled (it only draws). An exception inside `process_channel` is not modelled either: the processed channel's state is always updated.
- `run` of the channel-switching monitor (cycle timing and sleeping) is left out beyond single cycles.
- `detect_person` in the channel-switching monitor is never called, and `get_channel_label` in the channel controller always returns None. Both are left out.
- `capture_current_channel` is the screen grab. It is an input of `CaptureAllChannels` and `RunSingleCycle`.
- RoiEditor.RoiManager.UseExistingSeats: takes a table already keyed by number, so loaded keys are assumed to be the canonical `str(n)` of naturals. A loaded file whose keys are not decimal text (where `int(k)` raises) is not modelled. Neither are keys that `int()` accepts but that are not `str(n)`, such as "01", " 2", "+3" or "-1": with "01" loaded, `delete_last_seat` computes 1 and its `del self.seats["1"]` raises KeyError.
- The 'r' refresh key and the ESC exit of both editors, and their confirmation prompts, are left out. `SaveConfig` takes the user's answer as a parameter, and the constant `total_channels` of 16 that it writes is not part of the written value.
- `update_dashboard_data`, `send_system_message`, `draw_debug_info`, `draw_seat_boxes`, `save_seats`, `load_seats` and the test scripts are outside the modelled core.
- GithubAlert.SendDrowsyAlert: the issue title and body are not modelled. JSON decoding of the answer is outside the model: the `html_url` it yields is an `Option` parameter, `None` when the body is not JSON or has no such key, which the program's `except` turns into a failed result.
- SingleCamera.DrowsinessDetector.SendGithubAlert: the issue text and the fixed label list are not modelled. JSON decoding of the answer is outside the model: whether a 201 body yields `html_url` is the `urlRead` input, carried by each `Frame` into `FrameStep`, `RunFrames` and `Start`.
