# Smart toll gate: admission model

This project models the five toll-gate scripts, `v1.py`, `v2.py`, `toll_gate.py`,
`withPayment-copy2.py` and `withPayment.py`. Each script is a single camera loop over
global state. A recognised licence plate is cleaned up and validated. It is then checked
against an allow-list and five offence lists, and the outcome is shown on a dashboard,
counted, and (in the payment variants) charged a toll of 50. The operator can confirm,
approve by hand, bypass, reset or switch camera.

The Dafny modules follow that structure:

- `Text`: the Python string operations the scripts rely on: `in`, `startswith` and `', '.join`.
- `Plates`: the inline clean-up `.strip().replace(" ", "").replace("\n", "")` and `is_valid_plate`.
  The validator is the anchored regular expression, including Python's `$` matching before a
  final newline.
- `Policy`: `check_vehicle`. It computes the offence list in its fixed order and the status
  line, and holds the two data sets: v1.py's own and the one shared by the other four scripts.
- `Records`: the `stats` and `dashboard` records, the toll, the 3-second cooldown and the
  balance predicate.
- `Cameras`: `detect_cameras` as a loop over device indices, with device opening as a
  predicate `opens`.
- `GateV1`, `GateV2`, `TollGate`, `PaymentGateCopy2`, `PaymentGate`: one per script. Each has:
  - a `State` value holding the script's globals, and one transition function per event
    (`TickStep`, `DetectStep`, `ConfirmStep`, `ManualStep`, `ResetStep`, `SwitchCameraStep`,
    `BypassStep`);
  - `Step`/`Run` over event sequences, an invariant `Inv`, and lemmas about single events and
    about every reachable state;
  - a class `Gate` whose fields are the globals, updated in place. Each method is proved to
    leave exactly the state its transition function describes, and to keep the invariant.

Time is an integer number of seconds passed to each event. Whether a camera opens is a boolean
(or, for probing, a predicate). A frozen frame is an opaque token.

## Model

| member | source | states |
|---|---|---|
| Plates.Strip | v1.py:308 | `strip()` returns the slice `s[i..j]` such that everything before `i` and from `j` on is Python whitespace and the slice neither starts nor ends with whitespace |
| Plates.RemoveChar | v1.py:308 | `replace(c, "")` removes every `c`, keeps only input characters, leaves text without `c` unchanged, and keeps a first or last character that is not `c` |
| Plates.RemoveCharCounts | v1.py:308 | every character other than `c` occurs in the result of `replace(c, "")` as often as in the input |
| Plates.RemoveCharAppend | v1.py:308 | `replace(c, "")` distributes over concatenation, so together with its action on one character it keeps the other characters in their order |
| Plates.Normalize | v1.py:308 | the cleaned OCR text has no space or newline, contains only characters of the raw text, and starts and ends with non-whitespace |
| Plates.StripPadded | v1.py:308 | `strip()` of a text padded with whitespace on both sides returns exactly the text between the padding |
| Plates.SpacedDropsToPlate | v1.py:308 | removing spaces and newlines from a plate read with spaces or newlines between its characters gives back the plate |
| Plates.NormalizeSpacedPlate | v1.py:308 | OCR text made of a plate with whitespace around it and spaces or newlines between its characters cleans up to exactly that plate |
| Plates.NormalizeIdempotent | v1.py:308 | cleaning already-cleaned text changes nothing |
| Plates.PlateIsNormal | v1.py:308-310 | a valid plate is its own cleaned form |
| Plates.PatternOnNormalized | v1.py:192-193 | on cleaned text, `is_valid_plate` accepts exactly the ten-character grammar LLDDLLDDDD (the trailing-newline case of `$` cannot arise) |
| Policy.AppendIf | v1.py:175-186 | one conditional append keeps the list in the fixed offence order and adds the offence exactly when flagged |
| Policy.Offences | v1.py:173-186 | the offence list is in the fixed order (Invalid License, Criminal Record, Traffic Violations, Insurance Expired, PUC Invalid, Accident Record), without repeats |
| Policy.OffencesMembers | v1.py:173-186 | the offence list holds exactly the offences whose set test fires for the plate: not on the allow-list, or on the criminal, traffic, insurance, PUC or accident set |
| Policy.OrderedListsEqual | v1.py:174-186 | two offence lists in the fixed order with the same members are equal |
| Policy.OffencesDetermined | v1.py:173-186 | any fixed-order list with exactly the flagged offences is the offence list |
| Policy.OneOffenceLine | v1.py:188-189 | a single offence gives "REJECTED \| " followed by its label |
| Policy.TwoOffenceLine | v1.py:188-189 | two offences give "REJECTED \| " followed by their labels joined by ", " |
| Policy.ThreeOffenceLine | v1.py:188-189 | three offences give "REJECTED \| " followed by their labels joined by ", " |
| Policy.RejectionHasNoCapitalO | v1.py:188-189 | a rejection line contains no capital O |
| Policy.ApprovedIffClean | v1.py:188-190 | the downstream test `"APPROVED" in status` holds exactly when the offence list is empty |
| Policy.RejectedIffOffences | v1.py:188-190 | the status starts with, and contains, "REJECTED" exactly when there is an offence |
| Policy.InvalidLicenseAlone | v2.py:24-34 | when every offence set is inside the allow-list, "Invalid License" only ever occurs alone |
| Policy.CleanPlateApproved | v1.py:173-190 | a registered plate on no offence set gets "APPROVED \| Clean Record" |
| Policy.UnregisteredPlateRejected | v1.py:175-189 | a plate missing from the allow-list gets a status starting "REJECTED \| Invalid License" |
| Policy.V1CriminalOnly | v1.py:24-81 | with v1.py's data KA66EF6666 gets "REJECTED \| Criminal Record" |
| Policy.V1Unknown | v1.py:24-81 | with v1.py's data ZZ00ZZ0000 gets "REJECTED \| Invalid License" |
| Policy.V1UnregisteredPuc | v1.py:24-81 | with v1.py's data MP22PU2222 gets "REJECTED \| Invalid License, PUC Invalid" |
| Policy.V1ThreeOffences | v1.py:24-81 | with v1.py's data RJ77PN7777 gets "REJECTED \| Criminal Record, Traffic Violations, Accident Record" |
| Policy.V1Clean | v1.py:24-81 | with v1.py's data MH44AB4444 has no offence and is approved |
| Policy.V1PucUnregistered | v1.py:24-81 | v1.py's PUC set is not inside its allow-list |
| Policy.SharedRegistryNested | v2.py:24-34 | in the shared data every offence set is inside the allow-list |
| Policy.SharedDecisions | v2.py:24-34 | with the shared data KA66EF6666 is rejected for Criminal Record, MH44AB4444 approved, ZZ00ZZ0000 rejected for Invalid License |
| Cameras.DetectCameras | toll_gate.py:65-72 | the probe returns, in ascending order, exactly the indices below the bound whose device opens |
| GateV1.Gate.constructor | v1.py:95-118 | the globals start as the script sets them, and the invariant holds |
| GateV1.Gate.Tick | v1.py:272-283 | the auto-reset check leaves exactly the state `TickStep` describes and keeps the invariant |
| GateV1.Gate.Detect | v1.py:299-319 | a scan leaves exactly the state `DetectStep` describes and keeps the invariant |
| GateV1.Gate.Freeze | v1.py:310-319 | an accepted plate becomes pending, the frame is frozen and the payment prompt shown exactly as `Hold` describes, keeping the invariant |
| GateV1.Gate.Confirm | v1.py:389-417 | ENTER leaves exactly the state `ConfirmStep` describes and keeps the invariant |
| GateV1.Gate.Record | v1.py:396-417 | the pending plate is counted, decided, credited or refused and the reset armed exactly as `Settle` describes |
| GateV1.Gate.Manual | v1.py:420-430 | 'm' leaves exactly the state `ManualStep` describes and keeps the invariant |
| GateV1.Gate.Reset | v1.py:440-453 | 'r' leaves exactly the state `ResetStep` describes and keeps the invariant |
| GateV1.Gate.SwitchCamera | v1.py:240-254 | a camera key leaves exactly the state `SwitchCameraStep` describes and keeps the invariant |
| GateV1.InitInv | v1.py:95-118 | the start-up state satisfies the invariant |
| GateV1.SettleInv | v1.py:396-417 | whatever the policy answers, ENTER keeps the books balanced, closes the session and arms a deadline at least 5 s ahead |
| GateV1.StepInv | v1.py:269-453 | every event keeps total = approved + rejected, cash = 50 × (approved + manual), pending exactly while processing, a frozen frame while processing, and a valid pending plate |
| GateV1.RunInv | v1.py:269-453 | every sequence of events keeps the invariant |
| GateV1.ReachableInv | v1.py:269-453 | every state reachable from start-up satisfies the invariant |
| GateV1.StepNoDecrease | v1.py:396-426 | no event lowers a counter or the cash |
| GateV1.SettleNoDecrease | v1.py:396-417 | whatever the policy answers, ENTER lowers no counter and no cash |
| GateV1.RunNoDecrease | v1.py:396-426 | counters and cash never decrease over any event sequence |
| GateV1.DetectOutcome | v1.py:299-319 | a scan fires exactly when not processing, the cleaned text is a plate and differs from the last processed plate; it then sets the pending plate, freezes the frame and shows the payment prompt, leaving the counters, cash, reset deadline, last processed and manual plates, decision and camera as they were; otherwise it changes nothing |
| GateV1.ConfirmOutcome | v1.py:389-417 | ENTER with a pending plate counts it once and exactly one of approved/rejected by its offences. Approval opens the gate, shows "INR 50 credited", takes 50 and arms reset at now+5. Rejection keeps the gate closed with "Payment failed", no cash, and arms reset at now+30. The session then closes. Without a pending plate ENTER does nothing |
| GateV1.ManualOutcome | v1.py:420-430 | 'm' acts exactly on a closed gate showing a rejection for a plate not yet approved by hand. It adds one manual approval and 50, opens the gate, records the plate and re-arms reset at now+5. Otherwise it does nothing |
| GateV1.SecondManualIsNoOp | v1.py:420-429 | a second 'm' right after the first changes nothing |
| GateV1.ManualOfferedIffRejected | v1.py:397-428 | right after ENTER on a pending plate, 'm' is available exactly when that plate has offences (the decision was a rejection) and the last manual approval was not for the plate on the dashboard |
| GateV1.ResetKeyOutcome | v1.py:440-453 | 'r' restores the start-up dashboard and clears the decision, the last processed and manual plates, the pending plate, the freeze flag and the deadline; counters and cash are untouched |
| GateV1.AutoResetOutcome | v1.py:272-283 | the auto-reset acts exactly when the deadline is armed and reached. It clears the dashboard, the decision, the last processed and manual plates and the deadline, keeps any pending plate and freeze, and leaves counters and cash untouched |
| GateV1.AutoResetOnce | v1.py:272-283 | the auto-reset fires at most once per arming |
| GateV1.ResetDelays | v1.py:400-413 | after ENTER at time t, an approval is due for reset exactly from t+5 and a rejection exactly from t+30 |
| GateV1.SwitchCameraOutcome | v1.py:240-254 | a camera switch changes no counter or dashboard. A device that opens becomes current and clears pending, freeze and frozen frame. A failure falls back to device 0 and changes nothing else |
| GateV1.ScanDuringResultDisplay | v1.py:269-319 | after ENTER a different plate can become pending while the previous deadline is armed; when that deadline fires it blanks the dashboard but leaves the new plate pending and frozen |
| GateV2.Gate.constructor | v2.py:39-55 | the globals start as the script sets them, and the invariant holds |
| GateV2.Gate.Detect | v2.py:149-183 | a scan leaves exactly the state `DetectStep` describes and keeps the invariant |
| GateV2.Gate.Confirm | v2.py:208-237 | ENTER leaves exactly the state `ConfirmStep` describes and keeps the invariant |
| GateV2.Gate.Record | v2.py:209-237 | the pending plate is counted, decided and credited or refused exactly as `Settle` describes |
| GateV2.Gate.Manual | v2.py:240-250 | 'm' leaves exactly the state `ManualStep` describes and keeps the invariant |
| GateV2.InitInv | v2.py:39-55 | the start-up state satisfies the invariant |
| GateV2.SettleInv | v2.py:209-237 | whatever the policy answers, ENTER keeps the books balanced, records the decision and closes the session |
| GateV2.StepInv | v2.py:147-250 | every event keeps total = approved + rejected, cash = 50 × (approved + manual), a pending plate and frozen frame while processing, and a valid pending plate |
| GateV2.RunInv | v2.py:147-250 | every sequence of events keeps the invariant |
| GateV2.ReachableInv | v2.py:147-250 | every state reachable from start-up satisfies the invariant |
| GateV2.StepNoDecrease | v2.py:208-246 | no event lowers a counter or the cash |
| GateV2.SettleNoDecrease | v2.py:209-237 | whatever the policy answers, ENTER lowers no counter and no cash |
| GateV2.RunNoDecrease | v2.py:208-246 | counters and cash never decrease over any event sequence |
| GateV2.DetectOutcome | v2.py:149-183 | a scan fires exactly when not processing, the cleaned text is a plate and differs from the last processed plate; it then sets the pending plate, freezes and shows the payment prompt, leaving the counters, cash, last processed plate and decision as they were; otherwise it changes nothing |
| GateV2.ConfirmOutcome | v2.py:208-237 | ENTER with a pending plate counts it once and exactly one of approved/rejected by its offences. Approval is OPEN / YES / +50; rejection is CLOSED / NO with no cash. The decision is recorded and the session closed. Without a pending plate ENTER does nothing |
| GateV2.ManualOfferedIffRejected | v2.py:220-241 | right after ENTER, 'm' is available exactly when the decision was a rejection |
| GateV2.ManualOutcome | v2.py:240-250 | 'm' acts exactly when the last decision contains "REJECTED". It adds one manual approval and 50, opens the gate, sets the last processed plate to the displayed one and unfreezes, keeping any pending plate. Otherwise it does nothing |
| GateV2.RepeatedManualRecredits | v2.py:240-250 | after one rejection, n presses of 'm' add n manual approvals and 50 × n, and 'm' stays available |
| TollGate.Start | toll_gate.py:65-80 | start-up fails exactly when no device below 5 opens; otherwise the camera list is exactly the opening devices below 5, in ascending order, and the gate starts in the initial state on the lowest of them, that device having opened |
| TollGate.Gate.constructor | toll_gate.py:74-80 | the globals start as the script sets them, on the first detected camera, and the invariant holds |
| TollGate.Gate.Detect | toll_gate.py:219-235 | a frame leaves exactly the state `DetectStep` describes and keeps the invariant |
| TollGate.Gate.Record | toll_gate.py:222-235 | a decided plate is counted, shown and remembered exactly as `Decide` describes |
| TollGate.Gate.SwitchCamera | toll_gate.py:82-89 | a camera key leaves exactly the state `SwitchCameraStep` describes and keeps the invariant |
| TollGate.InitInv | toll_gate.py:30-36 | the initial state satisfies the invariant (the gate shows CLOSED and the status "-" is no approval) |
| TollGate.StepInv | toll_gate.py:197-249 | every event keeps total = approved + rejected, gate OPEN exactly when the status contains "APPROVED", the current camera in the detected list, and the remembered plate empty or valid |
| TollGate.RunInv | toll_gate.py:197-249 | every sequence of events keeps the invariant |
| TollGate.ReachableInv | toll_gate.py:197-249 | every state reachable from start-up satisfies the invariant |
| TollGate.StoppedStaysStopped | toll_gate.py:197-200 | once the capture delivers no frame the loop has ended and no event changes anything |
| TollGate.DetectOutcome | toll_gate.py:219-235 | a frame is decided exactly when the cleaned text is a plate and it is a new plate or more than 3 s have passed. It is counted once, as approved with gate OPEN when it has no offence and as rejected with gate CLOSED otherwise, and becomes the remembered plate and time; the camera list, the active camera and the open capture stay. Otherwise nothing changes |
| TollGate.CooldownSuppressesRepeat | toll_gate.py:193-221 | after a plate is decided at t1, the same plate at t2 with t2 − t1 ≤ 3 is ignored, while a different plate, or the same one after more than 3 s, is counted |
| TollGate.SwitchCameraOutcome | toll_gate.py:82-89 | an unknown index is ignored. A known index that opens becomes current. A known index that fails keeps the index and leaves the capture closed. No counter or dashboard field changes |
| PaymentGateCopy2.Gate.constructor | withPayment-copy2.py:42-57 | the globals start as the script sets them, and the invariant holds |
| PaymentGateCopy2.Gate.Detect | withPayment-copy2.py:195-242 | a frame leaves exactly the state `DetectStep` describes and keeps the invariant |
| PaymentGateCopy2.Gate.Record | withPayment-copy2.py:200-242 | a decided plate, after the interim messages, ends exactly as `Settle` describes |
| PaymentGateCopy2.Gate.Manual | withPayment-copy2.py:262-269 | 'm' leaves exactly the state `ManualStep` describes and keeps the invariant |
| PaymentGateCopy2.InitInv | withPayment-copy2.py:42-57 | the start-up state satisfies the invariant |
| PaymentGateCopy2.SettleInv | withPayment-copy2.py:200-242 | whatever the policy answers, a decision keeps the books balanced and shows the gate OPEN exactly with cash YES |
| PaymentGateCopy2.StepInv | withPayment-copy2.py:171-269 | every event keeps total = approved + rejected, cash = 50 × (approved + manual), gate OPEN exactly when cash is YES, and the remembered plate empty or valid |
| PaymentGateCopy2.RunInv | withPayment-copy2.py:171-269 | every sequence of events keeps the invariant |
| PaymentGateCopy2.ReachableInv | withPayment-copy2.py:171-269 | every state reachable from start-up satisfies the invariant |
| PaymentGateCopy2.DetectOutcome | withPayment-copy2.py:197-242 | a frame is decided exactly when the cleaned text is a plate and it is a new plate or more than 3 s have passed. It is counted once: approved with +50 and gate OPEN when it has no offence, rejected with no cash and gate CLOSED otherwise. Otherwise nothing changes |
| PaymentGateCopy2.SettleOutcome | withPayment-copy2.py:200-242 | a decision counts the plate once; a status containing "APPROVED" adds an approval, 50 and opens the gate, any other adds a rejection, no cash and keeps the gate closed; the plate and time are remembered |
| PaymentGateCopy2.RepeatWithinCooldownIgnored | withPayment-copy2.py:167-198 | the cooldown as coded: the same plate read again within 3 s of its decision changes nothing (a gap the script's 3 s pause never leaves) |
| PaymentGateCopy2.RepeatAfterPauseRecharges | withPayment-copy2.py:195-242 | because the clock is read before the 3 s pause, a clean plate read again more than 3 s later is decided again: two reads add two approvals and 100 to the cash and leave the gate open |
| PaymentGateCopy2.PausedReadsRecharge | withPayment-copy2.py:195-242 | a clean plate read on n frames, each more than 3 s after the one before, adds n to the total and the approvals, none to the rejections, and 50 × n to the cash |
| PaymentGateCopy2.ManualAlwaysCredits | withPayment-copy2.py:262-269 | from any state, n presses of 'm' add n manual approvals and 50 × n and show the gate open |
| PaymentGate.Gate.constructor | withPayment.py:42-58 | the globals start as the script sets them, and the invariant holds |
| PaymentGate.Gate.Detect | withPayment.py:185-209 | a frame leaves exactly the state `DetectStep` describes and keeps the invariant |
| PaymentGate.Gate.Record | withPayment.py:189-209 | a decided plate is counted, shown, charged and remembered exactly as `Settle` describes |
| PaymentGate.Gate.Manual | withPayment.py:223-230 | 'm' leaves exactly the state `ManualStep` describes and keeps the invariant |
| PaymentGate.Gate.Bypass | withPayment.py:233-238 | 'b' leaves exactly the state `BypassStep` describes and keeps the invariant |
| PaymentGate.InitInv | withPayment.py:42-58 | the start-up state satisfies the invariant |
| PaymentGate.SettleInv | withPayment.py:189-209 | whatever the policy answers, a decision keeps the books balanced and shows cash YES only with the gate OPEN |
| PaymentGate.StepInv | withPayment.py:163-238 | every event, bypass included, keeps total = approved + rejected, cash = 50 × (approved + manual), cash YES only with the gate OPEN, and the remembered plate empty or valid |
| PaymentGate.RunInv | withPayment.py:163-238 | every sequence of events keeps the invariant |
| PaymentGate.ReachableInv | withPayment.py:163-238 | every state reachable from start-up satisfies the invariant, however many bypasses occurred |
| PaymentGate.DetectOutcome | withPayment.py:187-209 | a frame is decided exactly when the cleaned text is a plate and it is a new plate or more than 3 s have passed. It is counted once: approved with +50 and gate OPEN when it has no offence, rejected with no cash and gate CLOSED otherwise. Otherwise nothing changes |
| PaymentGate.RepeatWithinCooldownIgnored | withPayment.py:159-188 | the same plate read again within 3 s of its decision changes nothing |
| PaymentGate.ManualAlwaysCredits | withPayment.py:223-230 | from any state, n presses of 'm' add n manual approvals and 50 × n, leave the bypass count alone and show the gate open |
| PaymentGate.BypassesTakeNoCash | withPayment.py:233-238 | n presses of 'b' add n bypasses, open the gate with payment "-" and cash NO, and change no other counter, the cash or the cooldown memory |

## Where the code and the intended behaviour differ

The model follows the code in each case below.

- Camera switch failure. A failed switch would be expected to keep the previous source. In
  v1.py a failed switch rebinds the capture to device 0 (`GateV1.SwitchCameraStep`). In
  toll_gate.py the old capture is already released, so the loop ends at the next read
  (`TollGate.SwitchCameraStep`, `TollGate.StoppedStaysStopped`).
- Scanning after a decision. New detections would be expected to be ignored while a result is
  displayed. In v1.py and v2.py scanning resumes right after ENTER. In v1.py the auto-reset then
  clears neither the pending plate nor the freeze (`GateV1.ScanDuringResultDisplay`).
- Reset. A reset would be expected to clear the frozen frame. v1.py's 'r' does not touch
  `frozen_frame`. Its auto-reset leaves the pending plate and the freeze as they are.
- Debounce. v1.py and v2.py have no time-based cooldown; only equality with the last processed
  plate blocks a repeat.
- Debounce in withPayment-copy2.py. The 3 s cooldown never blocks a repeat there. The clock is
  read (withPayment-copy2.py:195) before the `time.sleep(3)` that follows every decision
  (:220), and that reading is what is remembered (:242). So every later frame comes more than
  3 s after the remembered time and passes the test at :198. A clean plate left in front of the
  camera is therefore charged again on every frame (`PaymentGateCopy2.RepeatAfterPauseRecharges`,
  `PaymentGateCopy2.PausedReadsRecharge`). `PaymentGateCopy2.RepeatWithinCooldownIgnored` states
  the cooldown as coded, but its premise cannot arise between two frames of that script.
  withPayment.py and toll_gate.py do not pause there, so their cooldowns do work.
- Manual approval. Manual approval would be expected at most once per plate. v2.py's guard is
  keyed on a decision that is never cleared, so each 'm' credits again
  (`GateV2.RepeatedManualRecredits`). In both withPayment scripts 'm' has no guard at all.

## Left out

- Frame capture, cropping, resizing, thresholding and the OCR call: the OCR output is an
  arbitrary input string.
- All drawing (`draw_dashboard`, the wrapped-text helpers, banners, `imshow`, `waitKey`): key
  codes become events and methods.
- Sound (`play_sound`, `play_sound_async`) and `resource_path`.
- The `time.sleep` pauses as events. `time.time()` is a whole number of seconds passed in by
  the caller, so fractional seconds are not represented. The one pause that changes behaviour,
  in withPayment-copy2.py, enters as a condition on those times (`PaymentGateCopy2.PacedBySleep`:
  each frame comes more than 3 s after the one before).
- Opening and releasing devices. Whether a device opens is a boolean or a predicate supplied
  from outside.
- The start-up fallbacks and `exit()` of v1.py, v2.py and both withPayment scripts: the model
  starts with a working capture. GateV1's initial camera is device 0, even when start-up fell
  back to device 1.
- The 'q' key and end of video: the loop simply receives no further events.
- Frame contents: a frozen frame is an opaque token.
- Intermediate dashboard writes that are overwritten in the same iteration: v1.py's and v2.py's
  "ANALYSING VEHICLE RECORDS ..." status, and withPayment-copy2.py's interim messages. The
  withPayment-copy2.py messages are written in `PaymentGateCopy2.Gate.Record` but not kept in
  the final state.
- TollGate.Gate.constructor: requires a non-empty camera list, because the script exits before
  the loop when none is found; `TollGate.Start` models that exit.
- `live_toll_gate_working copy.py` and `toll_gate copy.py` are not part of this model.
