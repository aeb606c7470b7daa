/**
 * v2.py: the payment-confirmation gate without timers or camera keys.
 * A valid new plate freezes the frame and waits for ENTER; ENTER decides
 * and credits; 'm' approves by hand whenever the last decision was a
 * rejection. Nothing resets the screen.
 */
module GateV2 {
  import opened Options
  import opened Text
  import opened Plates
  import opened Policy
  import opened Records

  /** A captured frame, kept only as an opaque token. */
  type FrameId = nat

  /** The globals of v2.py's main loop. */
  datatype State = State(
    stats: Stats,
    totalCash: int,
    dashboard: Dashboard,
    lastProcessedPlate: Option<string>,
    pendingPlate: Option<string>,
    processingInProgress: bool,
    currentDecision: Option<string>,
    frozenFrame: Option<FrameId>)

  /** The dashboard messages of this script. */
  const AWAITING := "Awaiting payment confirmation"
  const PAYMENT_PENDING := "INR 50 pending"
  const CREDITED_MANUAL := "INR 50 credited (Manual)"
  const CREDITED := "INR 50 credited successfully"
  const PAYMENT_FAILED := "Payment failed due to vehicle issues"
  const WAITING := "Waiting for vehicle"

  function Init(): State
  {
    State(NoCounts(), 0, Dashboard("-", WAITING, "CLOSED", "-", "NO"),
          None, None, false, None, None)
  }

  /** The scan guard: not frozen, a valid plate, and not the plate just processed. */
  predicate DetectionFires(s: State, plate: string)
  {
    !s.processingInProgress && MatchesPlatePattern(plate) && Some(plate) != s.lastProcessedPlate
  }

  /** OCR text read from a live frame, cleaned and, if accepted, made the pending plate. */
  function DetectStep(s: State, text: string, frame: FrameId): State
  {
    var plate := Normalize(text);
    if DetectionFires(s, plate) then
      s.(pendingPlate := Some(plate), frozenFrame := Some(frame), processingInProgress := true,
         dashboard := s.dashboard.(plate := plate, status := AWAITING,
                                   payment := PAYMENT_PENDING, gate := "CLOSED", cash := "NO"))
    else s
  }

  /** ENTER: decide the pending plate and credit or refuse. */
  function ConfirmStep(s: State): State
  {
    if Truthy(s.pendingPlate) then Settle(s, CheckVehicle(SharedRegistry(), s.pendingPlate.value))
    else s
  }

  /** ENTER once the policy has produced `status` for the pending plate. */
  function Settle(s: State, status: string): State
  {
    var counted := s.stats.(total := s.stats.total + 1);
    var decided :=
      if Contains(status, "APPROVED") then
        s.(stats := counted.(approved := counted.approved + 1), totalCash := s.totalCash + TOLL,
           dashboard := s.dashboard.(status := status, payment := CREDITED,
                                     gate := "OPEN", cash := "YES"))
      else
        s.(stats := counted.(rejected := counted.rejected + 1),
           dashboard := s.dashboard.(status := status, payment := PAYMENT_FAILED,
                                     gate := "CLOSED", cash := "NO"));
    decided.(currentDecision := Some(status), lastProcessedPlate := s.pendingPlate,
             pendingPlate := None, processingInProgress := false)
  }

  /** The 'm' guard: the last decision is a rejection. */
  predicate ManualAllowed(s: State)
  {
    Truthy(s.currentDecision) && Contains(s.currentDecision.value, "REJECTED")
  }

  /** 'm': approve the displayed plate by hand and unfreeze. */
  function ManualStep(s: State): State
  {
    if ManualAllowed(s) then
      s.(dashboard := s.dashboard.(status := "MANUAL APPROVED", payment := CREDITED_MANUAL,
                                   gate := "OPEN", cash := "YES"),
         stats := s.stats.(manualApproved := s.stats.manualApproved + 1),
         totalCash := s.totalCash + TOLL,
         lastProcessedPlate := Some(s.dashboard.plate),
         processingInProgress := false)
    else s
  }

  datatype Event =
    | PlateRead(text: string, frame: FrameId)
    | EnterKey
    | ManualKey

  function Step(s: State, e: Event): State
  {
    match e
    case PlateRead(text, frame) => DetectStep(s, text, frame)
    case EnterKey => ConfirmStep(s)
    case ManualKey => ManualStep(s)
  }

  /** The state after a sequence of events. */
  function Run(s: State, events: seq<Event>): State
    decreases |events|
  {
    if events == [] then s else Run(Step(s, events[0]), events[1..])
  }

  ghost predicate Reachable(s: State)
  {
    exists events :: s == Run(Init(), events)
  }

  // ---------------------------------------------------------------
  // Invariant
  // ---------------------------------------------------------------

  /**
   * The books balance; while processing there is a pending plate and a
   * frozen frame; a pending plate is a valid plate. Unlike v1.py, a plate
   * can stay pending after 'm' has unfrozen the screen.
   */
  predicate Inv(s: State)
  {
    && Balanced(s.stats, s.totalCash)
    && (s.processingInProgress ==> s.pendingPlate.Some? && s.frozenFrame.Some?)
    && (s.pendingPlate.Some? ==> IsPlate(s.pendingPlate.value))
  }

  lemma InitInv()
    ensures Inv(Init())
  {
  }

  /** Whatever the policy answers, ENTER closes the session and keeps the books balanced. */
  lemma SettleInv(s: State, status: string)
    requires Inv(s)
    ensures var t := Settle(s, status);
      && Inv(t) && t.currentDecision == Some(status)
      && t.lastProcessedPlate == s.pendingPlate && t.pendingPlate.None? && !t.processingInProgress
  {
  }

  lemma StepInv(s: State, e: Event)
    requires Inv(s)
    ensures Inv(Step(s, e))
  {
    match e
    case PlateRead(text, _) => PatternOnNormalized(text);
    case EnterKey =>
      if Truthy(s.pendingPlate) {
        SettleInv(s, CheckVehicle(SharedRegistry(), s.pendingPlate.value));
      }
    case ManualKey =>
  }

  lemma {:induction false} RunInv(s: State, events: seq<Event>)
    requires Inv(s)
    ensures Inv(Run(s, events))
    decreases |events|
  {
    if events != [] {
      StepInv(s, events[0]);
      RunInv(Step(s, events[0]), events[1..]);
    }
  }

  /** In every reachable state total == approved + rejected and cash == 50 * (approved + manual). */
  lemma ReachableInv(s: State)
    requires Reachable(s)
    ensures Inv(s)
  {
    var events :| s == Run(Init(), events);
    InitInv();
    RunInv(Init(), events);
  }

  /** No event lowers a counter or the cash. */
  lemma StepNoDecrease(s: State, e: Event)
    ensures NoDecrease(s.stats, Step(s, e).stats)
    ensures s.totalCash <= Step(s, e).totalCash
  {
    match e
    case EnterKey =>
      if Truthy(s.pendingPlate) {
        SettleNoDecrease(s, CheckVehicle(SharedRegistry(), s.pendingPlate.value));
      }
    case _ =>
  }

  /** ENTER only ever adds to the counters and the cash, whatever the policy answers. */
  lemma SettleNoDecrease(s: State, status: string)
    ensures var t := Settle(s, status);
      NoDecrease(s.stats, t.stats) && s.totalCash <= t.totalCash
  {
  }

  lemma {:induction false} RunNoDecrease(s: State, events: seq<Event>)
    ensures NoDecrease(s.stats, Run(s, events).stats)
    ensures s.totalCash <= Run(s, events).totalCash
    decreases |events|
  {
    if events != [] {
      StepNoDecrease(s, events[0]);
      RunNoDecrease(Step(s, events[0]), events[1..]);
    }
  }

  // ---------------------------------------------------------------
  // Properties of single events
  // ---------------------------------------------------------------

  /**
   * Detection fires exactly when not processing, the cleaned text is a
   * plate and it is not the last processed plate; it then freezes the frame
   * and shows the payment prompt. Otherwise nothing changes.
   */
  lemma DetectOutcome(s: State, text: string, frame: FrameId)
    ensures var plate := Normalize(text);
      var t := DetectStep(s, text, frame);
      if !s.processingInProgress && IsPlate(plate) && Some(plate) != s.lastProcessedPlate then
        && t.pendingPlate == Some(plate) && t.processingInProgress && t.frozenFrame == Some(frame)
        && t.dashboard == Dashboard(plate, AWAITING, "CLOSED", PAYMENT_PENDING, "NO")
        && t.stats == s.stats && t.totalCash == s.totalCash
        && t.lastProcessedPlate == s.lastProcessedPlate && t.currentDecision == s.currentDecision
      else t == s
  {
    PatternOnNormalized(text);
  }

  /**
   * ENTER with a pending plate counts it once and exactly one of approved
   * and rejected, following the policy's offences; approval opens the gate
   * and takes the toll, rejection keeps it closed with no cash. Without a
   * pending plate ENTER does nothing.
   */
  lemma ConfirmOutcome(s: State)
    requires Inv(s)
    ensures s.pendingPlate.None? ==> ConfirmStep(s) == s
    ensures s.pendingPlate.Some? ==>
      var plate := s.pendingPlate.value;
      var t := ConfirmStep(s);
      && t.stats.total == s.stats.total + 1
      && t.stats.manualApproved == s.stats.manualApproved
      && t.lastProcessedPlate == Some(plate) && t.pendingPlate.None? && !t.processingInProgress
      && t.dashboard.status == CheckVehicle(SharedRegistry(), plate)
      && t.currentDecision == Some(t.dashboard.status)
      && (Offences(SharedRegistry(), plate) == [] ==>
            && t.stats.approved == s.stats.approved + 1 && t.stats.rejected == s.stats.rejected
            && t.dashboard.gate == "OPEN" && t.dashboard.cash == "YES"
            && t.totalCash == s.totalCash + 50)
      && (Offences(SharedRegistry(), plate) != [] ==>
            && t.stats.rejected == s.stats.rejected + 1 && t.stats.approved == s.stats.approved
            && t.dashboard.gate == "CLOSED" && t.dashboard.cash == "NO"
            && t.totalCash == s.totalCash)
  {
    if s.pendingPlate.Some? {
      ApprovedIffClean(Offences(SharedRegistry(), s.pendingPlate.value));
    }
  }

  /** After ENTER, 'm' is offered exactly when the decision was a rejection. */
  lemma ManualOfferedIffRejected(s: State)
    requires Inv(s) && s.pendingPlate.Some?
    ensures ManualAllowed(ConfirmStep(s)) <==> Offences(SharedRegistry(), s.pendingPlate.value) != []
  {
    var offs := Offences(SharedRegistry(), s.pendingPlate.value);
    RejectedIffOffences(offs);
    if offs != [] {
      assert StatusLine(offs) != "" by { StartsWithContains(StatusLine(offs), "REJECTED"); }
    }
  }

  /**
   * 'm' acts exactly when the last decision is a rejection: one manual
   * approval, one toll, gate open, screen unfrozen and the displayed plate
   * remembered; otherwise it does nothing.
   */
  lemma ManualOutcome(s: State)
    ensures var t := ManualStep(s);
      if ManualAllowed(s) then
        && t.stats == s.stats.(manualApproved := s.stats.manualApproved + 1)
        && t.totalCash == s.totalCash + 50
        && t.dashboard.gate == "OPEN" && t.dashboard.plate == s.dashboard.plate
        && t.lastProcessedPlate == Some(s.dashboard.plate) && !t.processingInProgress
        && t.pendingPlate == s.pendingPlate
      else t == s
  {
  }

  /**
   * The decision that enables 'm' is never cleared, so every further 'm'
   * credits the toll again: n presses after one rejection add n manual
   * approvals and 50 * n to the cash.
   */
  lemma {:induction false} RepeatedManualRecredits(s: State, n: nat)
    requires ManualAllowed(s)
    ensures var t := Run(s, seq(n, _ => ManualKey));
      && t.stats == s.stats.(manualApproved := s.stats.manualApproved + n)
      && t.totalCash == s.totalCash + 50 * n
      && ManualAllowed(t)
    decreases n
  {
    if n > 0 {
      var presses := seq(n, _ => ManualKey);
      assert presses[1..] == seq(n - 1, _ => ManualKey);
      RepeatedManualRecredits(ManualStep(s), n - 1);
    }
  }

  // ---------------------------------------------------------------
  // The main loop's globals, updated in place
  // ---------------------------------------------------------------

  class Gate {
    var stats: Stats
    var totalCash: int
    var dashboard: Dashboard
    var lastProcessedPlate: Option<string>
    var pendingPlate: Option<string>
    var processingInProgress: bool
    var currentDecision: Option<string>
    var frozenFrame: Option<FrameId>

    function Snapshot(): State
      reads this
    {
      State(stats, totalCash, dashboard, lastProcessedPlate, pendingPlate,
            processingInProgress, currentDecision, frozenFrame)
    }

    predicate Valid()
      reads this
    {
      Inv(Snapshot())
    }

    constructor ()
      ensures Snapshot() == Init() && Valid()
    {
      stats := NoCounts();
      totalCash := 0;
      dashboard := Dashboard("-", WAITING, "CLOSED", "-", "NO");
      lastProcessedPlate := None;
      pendingPlate := None;
      processingInProgress := false;
      currentDecision := None;
      frozenFrame := None;
    }

    method Detect(text: string, frame: FrameId)
      requires Valid()
      modifies this
      ensures Valid()
      ensures Snapshot() == DetectStep(old(Snapshot()), text, frame)
    {
      if !processingInProgress {
        var plate := Normalize(text);
        if MatchesPlatePattern(plate) && Some(plate) != lastProcessedPlate {
          PatternOnNormalized(text);
          pendingPlate := Some(plate);
          frozenFrame := Some(frame);
          processingInProgress := true;
          dashboard := dashboard.(plate := plate, status := AWAITING, payment := PAYMENT_PENDING,
                                  gate := "CLOSED", cash := "NO");
        }
      }
    }

    method Confirm()
      requires Valid()
      modifies this
      ensures Valid()
      ensures Snapshot() == ConfirmStep(old(Snapshot()))
    {
      ghost var before := Snapshot();
      if Truthy(pendingPlate) {
        Record(CheckVehicle(SharedRegistry(), pendingPlate.value));
      }
      StepInv(before, EnterKey);
    }

    /** Count the pending plate and show the policy's `decision` and the payment outcome. */
    method Record(decision: string)
      modifies this
      ensures Snapshot() == Settle(old(Snapshot()), decision)
    {
      stats := stats.(total := stats.total + 1);
      currentDecision := Some(decision);
      if Contains(decision, "APPROVED") {
        dashboard := dashboard.(status := decision, payment := CREDITED,
                                gate := "OPEN", cash := "YES");
        stats := stats.(approved := stats.approved + 1);
        totalCash := totalCash + TOLL;
      } else {
        dashboard := dashboard.(status := decision, payment := PAYMENT_FAILED,
                                gate := "CLOSED", cash := "NO");
        stats := stats.(rejected := stats.rejected + 1);
      }
      lastProcessedPlate := pendingPlate;
      pendingPlate := None;
      processingInProgress := false;
    }

    method Manual()
      requires Valid()
      modifies this
      ensures Valid()
      ensures Snapshot() == ManualStep(old(Snapshot()))
    {
      if Truthy(currentDecision) && Contains(currentDecision.value, "REJECTED") {
        dashboard := dashboard.(status := "MANUAL APPROVED");
        dashboard := dashboard.(payment := CREDITED_MANUAL);
        dashboard := dashboard.(gate := "OPEN");
        dashboard := dashboard.(cash := "YES");
        stats := stats.(manualApproved := stats.manualApproved + 1);
        totalCash := totalCash + TOLL;
        lastProcessedPlate := Some(dashboard.plate);
        processingInProgress := false;
      }
    }
  }
}
