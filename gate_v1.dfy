/**
 * v1.py: the richest variant. A valid new plate freezes the frame and
 * waits for ENTER; ENTER decides, credits and arms an auto-reset
 * (5 s approved, 30 s rejected); 'm' approves a rejected plate once;
 * 'r' and the auto-reset clear the session; '1'/'2'/'3' switch camera.
 */
module GateV1 {
  import opened Options
  import opened Text
  import opened Plates
  import opened Policy
  import opened Records

  /** A captured frame, kept only as an opaque token. */
  type FrameId = nat

  const RESET_DELAY_APPROVED: nat := 5
  const RESET_DELAY_REJECTED: nat := 30

  /** The globals of v1.py's main loop. `camera` is the device `cap` is bound to. */
  datatype State = State(
    stats: Stats,
    totalCash: int,
    dashboard: Dashboard,
    lastProcessedPlate: Option<string>,
    lastManualPlate: Option<string>,
    pendingPlate: Option<string>,
    processingInProgress: bool,
    currentDecision: Option<string>,
    frozenFrame: Option<FrameId>,
    resetAt: Option<nat>,
    camera: nat)

  /** The dashboard at start-up, after 'r' and after an auto-reset. */
  /** The dashboard messages of this script. */
  const AWAITING := "Awaiting payment confirmation"
  const PAYMENT_PENDING := "INR 50 pending"
  const CREDITED_MANUAL := "INR 50 credited (Manual)"
  const CREDITED := "INR 50 credited"
  const PAYMENT_FAILED := "Payment failed"
  const WAITING := "Waiting for vehicle"

  function IdleBoard(): Dashboard
  {
    Dashboard("-", WAITING, "CLOSED", "-", "NO")
  }

  function Init(): State
  {
    State(NoCounts(), 0, IdleBoard(), None, None, None, false, None, None, None, 0)
  }

  // ---------------------------------------------------------------
  // Transitions, one per event of the main loop
  // ---------------------------------------------------------------

  /** `if reset_at and time.time() >= reset_at` */
  predicate ResetDue(s: State, now: nat)
  {
    s.resetAt.Some? && s.resetAt.value != 0 && now >= s.resetAt.value
  }

  /** The auto-reset check at the top of each iteration. */
  function TickStep(s: State, now: nat): State
  {
    if ResetDue(s, now) then
      s.(dashboard := IdleBoard(), currentDecision := None, lastProcessedPlate := None,
         lastManualPlate := None, resetAt := None)
    else s
  }

  /** The scan guard: not frozen, a valid plate, and not the plate just processed. */
  predicate DetectionFires(s: State, plate: string)
  {
    !s.processingInProgress && MatchesPlatePattern(plate) && Some(plate) != s.lastProcessedPlate
  }

  /** OCR text read from a live frame, cleaned and, if accepted, made the pending plate. */
  function DetectStep(s: State, text: string, frame: FrameId): State
  {
    var plate := Normalize(text);
    if DetectionFires(s, plate) then Hold(s, plate, frame) else s
  }

  /** Freeze `frame`, make `plate` pending and ask for payment confirmation. */
  function Hold(s: State, plate: string, frame: FrameId): State
  {
    s.(pendingPlate := Some(plate), frozenFrame := Some(frame), processingInProgress := true,
       dashboard := s.dashboard.(plate := plate, status := AWAITING,
                                 payment := PAYMENT_PENDING, gate := "CLOSED", cash := "NO"))
  }

  /** ENTER: decide the pending plate, credit or refuse, arm the auto-reset. */
  function ConfirmStep(s: State, now: nat): State
  {
    if Truthy(s.pendingPlate) then Settle(s, CheckVehicle(V1Registry(), s.pendingPlate.value), now)
    else s
  }

  /** ENTER once the policy has produced `status` for the pending plate. */
  function Settle(s: State, status: string, now: nat): State
  {
    var counted := s.stats.(total := s.stats.total + 1);
    var decided :=
      if Contains(status, "APPROVED") then
        s.(stats := counted.(approved := counted.approved + 1), totalCash := s.totalCash + TOLL,
           dashboard := s.dashboard.(status := status, payment := CREDITED, gate := "OPEN", cash := "YES"),
           resetAt := Some(now + RESET_DELAY_APPROVED))
      else
        s.(stats := counted.(rejected := counted.rejected + 1),
           dashboard := s.dashboard.(status := status, payment := PAYMENT_FAILED, gate := "CLOSED"),
           resetAt := Some(now + RESET_DELAY_REJECTED));
    decided.(currentDecision := Some(status), lastProcessedPlate := s.pendingPlate,
             pendingPlate := None, processingInProgress := false)
  }

  /** The 'm' guard: gate closed, a rejection on display, not already approved by hand. */
  predicate ManualAllowed(s: State)
  {
    && s.dashboard.gate == "CLOSED"
    && StartsWith(s.dashboard.status, "REJECTED")
    && s.lastManualPlate != Some(s.dashboard.plate)
  }

  /** 'm': approve the displayed rejected plate by hand. */
  function ManualStep(s: State, now: nat): State
  {
    if ManualAllowed(s) then
      s.(dashboard := s.dashboard.(status := "MANUAL APPROVED", payment := CREDITED_MANUAL,
                                   gate := "OPEN", cash := "YES"),
         stats := s.stats.(manualApproved := s.stats.manualApproved + 1),
         totalCash := s.totalCash + TOLL,
         lastManualPlate := Some(s.dashboard.plate),
         resetAt := Some(now + RESET_DELAY_APPROVED))
    else s
  }

  /** 'r': back to the waiting screen and unfreeze. */
  function ResetStep(s: State): State
  {
    s.(dashboard := IdleBoard(), currentDecision := None, lastProcessedPlate := None,
       lastManualPlate := None, pendingPlate := None, processingInProgress := false, resetAt := None)
  }

  /** `switch_camera(index)`: on failure `cap` falls back to device 0 and nothing else changes. */
  function SwitchCameraStep(s: State, index: nat, opens: bool): State
  {
    if opens then
      s.(camera := index, processingInProgress := false, pendingPlate := None, frozenFrame := None)
    else
      s.(camera := 0)
  }

  datatype Event =
    | TimePasses(now: nat)
    | PlateRead(text: string, frame: FrameId)
    | EnterKey(now: nat)
    | ManualKey(now: nat)
    | ResetKey
    | CameraKey(index: nat, opens: bool)

  function Step(s: State, e: Event): State
  {
    match e
    case TimePasses(now) => TickStep(s, now)
    case PlateRead(text, frame) => DetectStep(s, text, frame)
    case EnterKey(now) => ConfirmStep(s, now)
    case ManualKey(now) => ManualStep(s, now)
    case ResetKey => ResetStep(s)
    case CameraKey(index, opens) => SwitchCameraStep(s, index, opens)
  }

  /** The state after a sequence of events. */
  function Run(s: State, events: seq<Event>): State
    decreases |events|
  {
    if events == [] then s else Run(Step(s, events[0]), events[1..])
  }

  ghost predicate Reachable(s: State)
  {
    exists events :: s == Run(Init(), events)
  }

  // ---------------------------------------------------------------
  // Invariant
  // ---------------------------------------------------------------

  /**
   * The books balance; a pending plate exists exactly while processing and
   * is a valid plate; a frozen frame exists while processing (so the frame
   * can be reused instead of read); an armed deadline is truthy.
   */
  predicate Inv(s: State)
  {
    && Balanced(s.stats, s.totalCash)
    && (s.processingInProgress <==> s.pendingPlate.Some?)
    && (s.processingInProgress ==> s.frozenFrame.Some?)
    && (s.pendingPlate.Some? ==> IsPlate(s.pendingPlate.value))
    && (s.resetAt.Some? ==> s.resetAt.value > 0)
  }

  lemma InitInv()
    ensures Inv(Init())
  {
  }

  /** Whatever the policy answers, ENTER closes the session and keeps the books balanced. */
  lemma SettleInv(s: State, status: string, now: nat)
    requires Inv(s)
    ensures var t := Settle(s, status, now);
      && Inv(t) && t.resetAt.Some? && t.resetAt.value >= now + RESET_DELAY_APPROVED
      && t.lastProcessedPlate == s.pendingPlate && t.pendingPlate.None? && !t.processingInProgress
  {
  }

  lemma StepInv(s: State, e: Event)
    requires Inv(s)
    ensures Inv(Step(s, e))
  {
    match e
    case PlateRead(text, _) => PatternOnNormalized(text);
    case EnterKey(now) =>
      if Truthy(s.pendingPlate) {
        SettleInv(s, CheckVehicle(V1Registry(), s.pendingPlate.value), now);
      }
    case _ =>
  }

  lemma {:induction false} RunInv(s: State, events: seq<Event>)
    requires Inv(s)
    ensures Inv(Run(s, events))
    decreases |events|
  {
    if events != [] {
      StepInv(s, events[0]);
      RunInv(Step(s, events[0]), events[1..]);
    }
  }

  /** In every reachable state total == approved + rejected and cash == 50 * (approved + manual). */
  lemma ReachableInv(s: State)
    requires Reachable(s)
    ensures Inv(s)
  {
    var events :| s == Run(Init(), events);
    InitInv();
    RunInv(Init(), events);
  }

  /** No event lowers a counter or the cash. */
  lemma StepNoDecrease(s: State, e: Event)
    ensures NoDecrease(s.stats, Step(s, e).stats)
    ensures s.totalCash <= Step(s, e).totalCash
  {
    match e
    case EnterKey(now) =>
      if Truthy(s.pendingPlate) {
        SettleNoDecrease(s, CheckVehicle(V1Registry(), s.pendingPlate.value), now);
      }
    case _ =>
  }

  /** ENTER only ever adds to the counters and the cash, whatever the policy answers. */
  lemma SettleNoDecrease(s: State, status: string, now: nat)
    ensures var t := Settle(s, status, now);
      NoDecrease(s.stats, t.stats) && s.totalCash <= t.totalCash
  {
  }

  lemma {:induction false} RunNoDecrease(s: State, events: seq<Event>)
    ensures NoDecrease(s.stats, Run(s, events).stats)
    ensures s.totalCash <= Run(s, events).totalCash
    decreases |events|
  {
    if events != [] {
      StepNoDecrease(s, events[0]);
      RunNoDecrease(Step(s, events[0]), events[1..]);
    }
  }

  // ---------------------------------------------------------------
  // Properties of single events
  // ---------------------------------------------------------------

  /**
   * Detection fires exactly when not processing, the cleaned text is a
   * plate and it is not the last processed plate; it then freezes the frame
   * and shows the payment prompt. While processing no scan changes anything.
   */
  lemma DetectOutcome(s: State, text: string, frame: FrameId)
    ensures var plate := Normalize(text);
      var t := DetectStep(s, text, frame);
      if !s.processingInProgress && IsPlate(plate) && Some(plate) != s.lastProcessedPlate then
        && t.pendingPlate == Some(plate) && t.processingInProgress && t.frozenFrame == Some(frame)
        && t.dashboard == Dashboard(plate, AWAITING, "CLOSED", PAYMENT_PENDING, "NO")
        && t.stats == s.stats && t.totalCash == s.totalCash && t.resetAt == s.resetAt
        && t.lastProcessedPlate == s.lastProcessedPlate && t.lastManualPlate == s.lastManualPlate
        && t.currentDecision == s.currentDecision && t.camera == s.camera
      else t == s
  {
    PatternOnNormalized(text);
  }

  /**
   * ENTER with a pending plate counts it once and exactly one of approved
   * and rejected, following the policy's offences; approval opens the gate,
   * takes the toll and arms a 5 s reset, rejection keeps the gate closed and
   * arms a 30 s reset. The session is then closed and scanning resumes.
   * Without a pending plate ENTER does nothing.
   */
  lemma ConfirmOutcome(s: State, now: nat)
    requires Inv(s)
    ensures s.pendingPlate.None? ==> ConfirmStep(s, now) == s
    ensures s.pendingPlate.Some? ==>
      var plate := s.pendingPlate.value;
      var t := ConfirmStep(s, now);
      && t.stats.total == s.stats.total + 1
      && t.stats.manualApproved == s.stats.manualApproved
      && t.lastProcessedPlate == Some(plate) && t.pendingPlate.None? && !t.processingInProgress
      && t.dashboard.status == CheckVehicle(V1Registry(), plate)
      && t.currentDecision == Some(t.dashboard.status)
      && (Offences(V1Registry(), plate) == [] ==>
            && t.stats.approved == s.stats.approved + 1 && t.stats.rejected == s.stats.rejected
            && t.dashboard.gate == "OPEN" && t.dashboard.payment == CREDITED && t.dashboard.cash == "YES"
            && t.totalCash == s.totalCash + 50 && t.resetAt == Some(now + 5))
      && (Offences(V1Registry(), plate) != [] ==>
            && t.stats.rejected == s.stats.rejected + 1 && t.stats.approved == s.stats.approved
            && t.dashboard.gate == "CLOSED" && t.dashboard.payment == PAYMENT_FAILED
            && t.totalCash == s.totalCash && t.resetAt == Some(now + 30))
  {
    if s.pendingPlate.Some? {
      ApprovedIffClean(Offences(V1Registry(), s.pendingPlate.value));
    }
  }

  /**
   * 'm' acts exactly on a closed gate showing a rejection for a plate not
   * yet approved by hand: one manual approval, one toll, gate open, a 5 s
   * reset. Otherwise it does nothing.
   */
  lemma ManualOutcome(s: State, now: nat)
    ensures var t := ManualStep(s, now);
      if ManualAllowed(s) then
        && t.stats == s.stats.(manualApproved := s.stats.manualApproved + 1)
        && t.totalCash == s.totalCash + 50
        && t.dashboard.gate == "OPEN" && t.dashboard.plate == s.dashboard.plate
        && t.lastManualPlate == Some(s.dashboard.plate)
        && t.resetAt == Some(now + 5)
      else t == s
  {
  }

  /** An immediate second 'm' is a no-op. */
  lemma SecondManualIsNoOp(s: State, now: nat, later: nat)
    ensures ManualStep(ManualStep(s, now), later) == ManualStep(s, now)
  {
  }

  /**
   * After a decision, 'm' is offered exactly when the decision was a
   * rejection and the plate on the dashboard has not already been approved
   * by hand (ENTER leaves both the displayed plate and the last manual
   * plate as they were).
   */
  lemma ManualOfferedIffRejected(s: State, now: nat)
    requires Inv(s) && s.pendingPlate.Some?
    ensures ManualAllowed(ConfirmStep(s, now))
        <==> Offences(V1Registry(), s.pendingPlate.value) != [] && s.lastManualPlate != Some(s.dashboard.plate)
  {
    var offs := Offences(V1Registry(), s.pendingPlate.value);
    ApprovedIffClean(offs);
    RejectedIffOffences(offs);
  }

  /**
   * 'r' restores the idle dashboard, forgets the decision, the last
   * processed and manual plates and the deadline, and unfreezes; it does
   * not touch the counters or the cash.
   */
  lemma ResetKeyOutcome(s: State)
    ensures var r := ResetStep(s);
      && r.stats == s.stats && r.totalCash == s.totalCash
      && r.dashboard == IdleBoard() && r.dashboard == Init().dashboard
      && r.currentDecision.None? && r.resetAt.None?
      && r.lastProcessedPlate.None? && r.lastManualPlate.None?
      && r.pendingPlate.None? && !r.processingInProgress
  {
  }

  /**
   * The auto-reset acts exactly when the deadline is armed and reached: it
   * restores the idle dashboard and forgets the decision, the last
   * processed and manual plates and the deadline, but leaves any pending
   * plate and the freeze alone and does not touch the counters or the cash.
   */
  lemma AutoResetOutcome(s: State, now: nat)
    ensures var t := TickStep(s, now);
      && t.stats == s.stats && t.totalCash == s.totalCash
      && t.pendingPlate == s.pendingPlate && t.processingInProgress == s.processingInProgress
      && (ResetDue(s, now) ==>
            t.dashboard == IdleBoard() && t.currentDecision.None? && t.resetAt.None?
            && t.lastProcessedPlate.None? && t.lastManualPlate.None?)
      && (!ResetDue(s, now) ==> t == s)
  {
  }

  /** The auto-reset fires at most once per arming. */
  lemma AutoResetOnce(s: State, now: nat, later: nat)
    requires ResetDue(s, now)
    ensures TickStep(TickStep(s, now), later) == TickStep(s, now)
  {
  }

  /**
   * After ENTER at time `now`, an approved result is cleared from `now + 5`
   * on, while a rejected one survives every check before `now + 30` and is
   * cleared from then on.
   */
  lemma ResetDelays(s: State, now: nat, later: nat)
    requires Inv(s) && s.pendingPlate.Some?
    ensures var t := ConfirmStep(s, now);
      var approved := Offences(V1Registry(), s.pendingPlate.value) == [];
      && (approved ==> (ResetDue(t, later) <==> later >= now + 5))
      && (!approved ==> (ResetDue(t, later) <==> later >= now + 30))
  {
    ConfirmOutcome(s, now);
  }

  /** Switching camera changes no counter; only a successful open unfreezes. */
  lemma SwitchCameraOutcome(s: State, index: nat, opens: bool)
    ensures var t := SwitchCameraStep(s, index, opens);
      && t.stats == s.stats && t.totalCash == s.totalCash && t.dashboard == s.dashboard
      && (opens ==> t.camera == index && !t.processingInProgress && t.pendingPlate.None? && t.frozenFrame.None?)
      && (!opens ==> t == s.(camera := 0))
  {
  }

  /**
   * Scanning resumes right after ENTER, so a different plate can become
   * pending while the reset deadline of the previous one is still armed;
   * when that deadline fires it blanks the dashboard but leaves the new
   * plate pending and the frame frozen.
   */
  lemma ScanDuringResultDisplay(s: State, now: nat, next: string, frame: FrameId)
    requires Inv(s) && s.pendingPlate.Some?
    requires IsPlate(next) && Some(next) != s.pendingPlate
    ensures var shown := DetectStep(ConfirmStep(s, now), next, frame);
      && shown.pendingPlate == Some(next) && shown.processingInProgress
      && shown.resetAt.Some? && ResetDue(shown, shown.resetAt.value)
      && var cleared := TickStep(shown, shown.resetAt.value);
         && cleared.dashboard == IdleBoard()
         && cleared.pendingPlate == Some(next) && cleared.processingInProgress
  {
    var status := CheckVehicle(V1Registry(), s.pendingPlate.value);
    var decided := ConfirmStep(s, now);
    assert decided == Settle(s, status, now);
    SettleInv(s, status, now);
    PlateIsNormal(next);
    DetectOutcome(decided, next, frame);
  }

  // ---------------------------------------------------------------
  // The main loop's globals, updated in place
  // ---------------------------------------------------------------

  class Gate {
    var stats: Stats
    var totalCash: int
    var dashboard: Dashboard
    var lastProcessedPlate: Option<string>
    var lastManualPlate: Option<string>
    var pendingPlate: Option<string>
    var processingInProgress: bool
    var currentDecision: Option<string>
    var frozenFrame: Option<FrameId>
    var resetAt: Option<nat>
    var camera: nat

    function Snapshot(): State
      reads this
    {
      State(stats, totalCash, dashboard, lastProcessedPlate, lastManualPlate, pendingPlate,
            processingInProgress, currentDecision, frozenFrame, resetAt, camera)
    }

    predicate Valid()
      reads this
    {
      Inv(Snapshot())
    }

    constructor ()
      ensures Snapshot() == Init() && Valid()
    {
      stats := NoCounts();
      totalCash := 0;
      dashboard := IdleBoard();
      lastProcessedPlate := None;
      lastManualPlate := None;
      pendingPlate := None;
      processingInProgress := false;
      currentDecision := None;
      frozenFrame := None;
      resetAt := None;
      camera := 0;
    }

    method Tick(now: nat)
      requires Valid()
      modifies this
      ensures Valid()
      ensures Snapshot() == TickStep(old(Snapshot()), now)
    {
      if resetAt.Some? && resetAt.value != 0 && now >= resetAt.value {
        dashboard := IdleBoard();
        currentDecision := None;
        lastProcessedPlate := None;
        lastManualPlate := None;
        resetAt := None;
      }
    }

    method Detect(text: string, frame: FrameId)
      requires Valid()
      modifies this
      ensures Valid()
      ensures Snapshot() == DetectStep(old(Snapshot()), text, frame)
    {
      if !processingInProgress {
        var plate := Normalize(text);
        if MatchesPlatePattern(plate) && Some(plate) != lastProcessedPlate {
          PatternOnNormalized(text);
          Freeze(plate, frame);
        }
      }
    }

    /** Freeze the frame and put the plate on hold until ENTER. */
    method Freeze(plate: string, frame: FrameId)
      requires Valid() && IsPlate(plate)
      modifies this
      ensures Valid()
      ensures Snapshot() == Hold(old(Snapshot()), plate, frame)
    {
      pendingPlate := Some(plate);
      frozenFrame := Some(frame);
      processingInProgress := true;
      dashboard := dashboard.(plate := plate, status := AWAITING, payment := PAYMENT_PENDING,
                              gate := "CLOSED", cash := "NO");
    }

    method Confirm(now: nat)
      requires Valid()
      modifies this
      ensures Valid()
      ensures Snapshot() == ConfirmStep(old(Snapshot()), now)
    {
      ghost var before := Snapshot();
      if Truthy(pendingPlate) {
        Record(CheckVehicle(V1Registry(), pendingPlate.value), now);
      }
      StepInv(before, EnterKey(now));
    }

    /** Count the pending plate, show the policy's `status` and the payment outcome, schedule the reset. */
    method Record(status: string, now: nat)
      modifies this
      ensures Snapshot() == Settle(old(Snapshot()), status, now)
    {
      stats := stats.(total := stats.total + 1);
      currentDecision := Some(status);
      if Contains(status, "APPROVED") {
        dashboard := dashboard.(status := status, payment := CREDITED, gate := "OPEN", cash := "YES");
        stats := stats.(approved := stats.approved + 1);
        totalCash := totalCash + TOLL;
        resetAt := Some(now + RESET_DELAY_APPROVED);
      } else {
        dashboard := dashboard.(status := status, payment := PAYMENT_FAILED, gate := "CLOSED");
        stats := stats.(rejected := stats.rejected + 1);
        resetAt := Some(now + RESET_DELAY_REJECTED);
      }
      lastProcessedPlate := pendingPlate;
      pendingPlate := None;
      processingInProgress := false;
    }

    method Manual(now: nat)
      requires Valid()
      modifies this
      ensures Valid()
      ensures Snapshot() == ManualStep(old(Snapshot()), now)
    {
      if dashboard.gate == "CLOSED" && StartsWith(dashboard.status, "REJECTED")
         && lastManualPlate != Some(dashboard.plate)
      {
        dashboard := dashboard.(status := "MANUAL APPROVED");
        dashboard := dashboard.(payment := CREDITED_MANUAL);
        dashboard := dashboard.(gate := "OPEN");
        dashboard := dashboard.(cash := "YES");
        stats := stats.(manualApproved := stats.manualApproved + 1);
        totalCash := totalCash + TOLL;
        lastManualPlate := Some(dashboard.plate);
        resetAt := Some(now + RESET_DELAY_APPROVED);
      }
    }

    method Reset()
      requires Valid()
      modifies this
      ensures Valid()
      ensures Snapshot() == ResetStep(old(Snapshot()))
    {
      dashboard := IdleBoard();
      currentDecision := None;
      lastProcessedPlate := None;
      lastManualPlate := None;
      pendingPlate := None;
      processingInProgress := false;
      resetAt := None;
    }

    method SwitchCamera(index: nat, opens: bool)
      requires Valid()
      modifies this
      ensures Valid()
      ensures Snapshot() == SwitchCameraStep(old(Snapshot()), index, opens)
    {
      if !opens {
        camera := 0;
        return;
      }
      camera := index;
      processingInProgress := false;
      pendingPlate := None;
      frozenFrame := None;
    }
  }
}
