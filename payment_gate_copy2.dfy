/**
 * withPayment-copy2.py: the auto-deduct gate. Every valid plate outside
 * the same-plate cooldown is counted and decided at once; approval credits
 * the toll and opens the gate. 'm' approves by hand with no guard at all.
 */
module PaymentGateCopy2 {
  import opened Text
  import opened Plates
  import opened Policy
  import opened Records

  /** The globals of withPayment-copy2.py's main loop. */
  datatype State = State(
    stats: Stats,
    totalCash: int,
    dashboard: Dashboard,
    lastPlate: string,
    lastTime: int)

  /** The payment lines shown after a decision and after 'm'. */
  const CREDITED := "INR 50/- has been credited to Toll Gate System"
  const PAYMENT_REFUSED := "Unable to process payment due to detected issues in vehicle"
  const CREDITED_MANUAL := "INR 50/- has been credited (Manual)"

  function Init(): State
  {
    State(NoCounts(), 0, Dashboard("-", "-", "CLOSED", "-", "NO"), "", 0)
  }

  /** The detection guard: a valid plate outside the same-plate cooldown. */
  predicate DetectionFires(s: State, plate: string, now: int)
  {
    MatchesPlatePattern(plate) && OutsideCooldown(plate, now, s.lastPlate, s.lastTime)
  }

  /** One frame's OCR text at time `now`. */
  function DetectStep(s: State, text: string, now: int): State
  {
    var plate := Normalize(text);
    if DetectionFires(s, plate, now) then Settle(s, plate, CheckVehicle(SharedRegistry(), plate), now)
    else s
  }

  /** The final state of a detection once the policy has produced `status`. */
  function Settle(s: State, plate: string, status: string, now: int): State
  {
    var counted := s.stats.(total := s.stats.total + 1);
    var decided :=
      if Contains(status, "APPROVED") then
        s.(stats := counted.(approved := counted.approved + 1), totalCash := s.totalCash + TOLL,
           dashboard := Dashboard(plate, status, "OPEN",
                                  CREDITED, "YES"))
      else
        s.(stats := counted.(rejected := counted.rejected + 1),
           dashboard := Dashboard(plate, status, "CLOSED",
                                  PAYMENT_REFUSED, "NO"));
    decided.(lastPlate := plate, lastTime := now)
  }

  /** 'm': approve by hand, whatever is on the screen. */
  function ManualStep(s: State): State
  {
    s.(dashboard := s.dashboard.(status := "MANUAL APPROVED", gate := "OPEN",
                                 payment := CREDITED_MANUAL, cash := "YES"),
       stats := s.stats.(manualApproved := s.stats.manualApproved + 1),
       totalCash := s.totalCash + TOLL)
  }

  datatype Event =
    | PlateRead(text: string, now: int)
    | ManualKey

  function Step(s: State, e: Event): State
  {
    match e
    case PlateRead(text, now) => DetectStep(s, text, now)
    case ManualKey => ManualStep(s)
  }

  /** The state after a sequence of events. */
  function Run(s: State, events: seq<Event>): State
    decreases |events|
  {
    if events == [] then s else Run(Step(s, events[0]), events[1..])
  }

  ghost predicate Reachable(s: State)
  {
    exists events :: s == Run(Init(), events)
  }

  // ---------------------------------------------------------------
  // Invariant
  // ---------------------------------------------------------------

  /**
   * The books balance; the gate shows OPEN exactly when cash is shown as
   * collected; the remembered plate is empty or a valid plate.
   */
  predicate Inv(s: State)
  {
    && Balanced(s.stats, s.totalCash)
    && (s.dashboard.gate == "OPEN" <==> s.dashboard.cash == "YES")
    && (s.lastPlate == "" || IsPlate(s.lastPlate))
  }

  lemma InitInv()
    ensures Inv(Init())
  {
  }

  lemma SettleInv(s: State, plate: string, status: string, now: int)
    requires Inv(s) && IsPlate(plate)
    ensures Inv(Settle(s, plate, status, now))
  {
    var t := Settle(s, plate, status, now);
    if Contains(status, "APPROVED") {
      assert t.dashboard.gate == "OPEN" && t.dashboard.cash == "YES";
    } else {
      assert t.dashboard.gate == "CLOSED" && t.dashboard.cash == "NO";
      assert "CLOSED" != "OPEN" && "NO" != "YES";
    }
  }

  lemma StepInv(s: State, e: Event)
    requires Inv(s)
    ensures Inv(Step(s, e))
  {
    match e
    case PlateRead(text, now) =>
      PatternOnNormalized(text);
      var plate := Normalize(text);
      if DetectionFires(s, plate, now) {
        SettleInv(s, plate, CheckVehicle(SharedRegistry(), plate), now);
      }
    case ManualKey =>
  }

  lemma {:induction false} RunInv(s: State, events: seq<Event>)
    requires Inv(s)
    ensures Inv(Run(s, events))
    decreases |events|
  {
    if events != [] {
      StepInv(s, events[0]);
      RunInv(Step(s, events[0]), events[1..]);
    }
  }

  /** In every reachable state total == approved + rejected and cash == 50 * (approved + manual). */
  lemma ReachableInv(s: State)
    requires Reachable(s)
    ensures Inv(s)
  {
    var events :| s == Run(Init(), events);
    InitInv();
    RunInv(Init(), events);
  }

  // ---------------------------------------------------------------
  // Properties of single events
  // ---------------------------------------------------------------

  /**
   * A frame is decided exactly when the cleaned text is a plate and it is
   * a different plate or more than 3 s have passed: counted once, approved
   * with the toll credited and the gate open when the plate has no offence,
   * rejected with the gate closed and nothing credited otherwise.
   */
  lemma DetectOutcome(s: State, text: string, now: int)
    ensures var plate := Normalize(text);
      var t := DetectStep(s, text, now);
      if IsPlate(plate) && (plate != s.lastPlate || now - s.lastTime > 3) then
        && t.stats.total == s.stats.total + 1 && t.stats.manualApproved == s.stats.manualApproved
        && t.dashboard.plate == plate && t.dashboard.status == CheckVehicle(SharedRegistry(), plate)
        && t.lastPlate == plate && t.lastTime == now
        && (Offences(SharedRegistry(), plate) == [] ==>
              && t.stats.approved == s.stats.approved + 1 && t.stats.rejected == s.stats.rejected
              && t.totalCash == s.totalCash + 50 && t.dashboard.gate == "OPEN")
        && (Offences(SharedRegistry(), plate) != [] ==>
              && t.stats.rejected == s.stats.rejected + 1 && t.stats.approved == s.stats.approved
              && t.totalCash == s.totalCash && t.dashboard.gate == "CLOSED")
      else t == s
  {
    var plate := Normalize(text);
    PatternOnNormalized(text);
    if IsPlate(plate) && (plate != s.lastPlate || now - s.lastTime > 3) {
      var offs := Offences(SharedRegistry(), plate);
      ApprovedIffClean(offs);
      SettleOutcome(s, plate, StatusLine(offs), now);
    }
  }

  /** What a decision with `status` does to the counters, the cash and the gate. */
  lemma SettleOutcome(s: State, plate: string, status: string, now: int)
    ensures var t := Settle(s, plate, status, now);
      && t.stats.total == s.stats.total + 1 && t.stats.manualApproved == s.stats.manualApproved
      && t.dashboard.plate == plate && t.dashboard.status == status
      && t.lastPlate == plate && t.lastTime == now
      && (Contains(status, "APPROVED") ==>
            && t.stats.approved == s.stats.approved + 1 && t.stats.rejected == s.stats.rejected
            && t.totalCash == s.totalCash + 50 && t.dashboard.gate == "OPEN")
      && (!Contains(status, "APPROVED") ==>
            && t.stats.rejected == s.stats.rejected + 1 && t.stats.approved == s.stats.approved
            && t.totalCash == s.totalCash && t.dashboard.gate == "CLOSED")
  {
  }

  /**
   * The cooldown as coded: the same plate read again within 3 s of its
   * decision is ignored. Between two frames of the running script this
   * premise cannot arise, because the clock is read before the 3 s pause
   * that follows every decision (see RepeatAfterPauseRecharges).
   */
  lemma RepeatWithinCooldownIgnored(s: State, text: string, t1: int, t2: int)
    requires IsPlate(Normalize(text)) && (Normalize(text) != s.lastPlate || t1 - s.lastTime > 3)
    requires t2 - t1 <= 3
    ensures var decided := DetectStep(s, text, t1);
      DetectStep(decided, text, t2) == decided
  {
    DetectOutcome(s, text, t1);
    DetectOutcome(DetectStep(s, text, t1), text, t2);
  }

  /**
   * The script reads the clock, decides, sleeps 3 s and only then remembers
   * the reading, so the next frame comes more than 3 s after the remembered
   * time and passes the cooldown: a clean plate read twice is charged twice.
   */
  lemma RepeatAfterPauseRecharges(s: State, text: string, t1: int, t2: int)
    requires IsPlate(Normalize(text)) && Offences(SharedRegistry(), Normalize(text)) == []
    requires Normalize(text) != s.lastPlate || t1 - s.lastTime > 3
    requires t2 - t1 > 3
    ensures var once := DetectStep(s, text, t1);
      var twice := DetectStep(once, text, t2);
      && twice.stats.total == s.stats.total + 2
      && twice.stats.approved == s.stats.approved + 2
      && twice.totalCash == s.totalCash + 100
      && twice.dashboard.gate == "OPEN"
  {
    DetectOutcome(s, text, t1);
    DetectOutcome(DetectStep(s, text, t1), text, t2);
  }

  /** The frames of one text read at the given times. */
  function Reads(text: string, times: seq<int>): seq<Event>
    decreases |times|
  {
    if times == [] then [] else [PlateRead(text, times[0])] + Reads(text, times[1..])
  }

  /** Each frame comes more than 3 s after the one before, as the pause guarantees. */
  predicate PacedBySleep(times: seq<int>)
  {
    forall i :: 0 <= i < |times| - 1 ==> times[i + 1] - times[i] > 3
  }

  /**
   * A clean plate left in front of the camera is decided and charged on
   * every frame: n frames paced by the pause add n approvals and 50 * n.
   */
  lemma {:induction false} PausedReadsRecharge(s: State, text: string, times: seq<int>)
    requires IsPlate(Normalize(text)) && Offences(SharedRegistry(), Normalize(text)) == []
    requires PacedBySleep(times)
    requires |times| > 0 ==> Normalize(text) != s.lastPlate || times[0] - s.lastTime > 3
    ensures var t := Run(s, Reads(text, times));
      && t.stats.total == s.stats.total + |times|
      && t.stats.approved == s.stats.approved + |times|
      && t.stats.rejected == s.stats.rejected
      && t.totalCash == s.totalCash + 50 * |times|
    decreases |times|
  {
    if times != [] {
      var events := Reads(text, times);
      assert events[0] == PlateRead(text, times[0]) && events[1..] == Reads(text, times[1..]);
      DetectOutcome(s, text, times[0]);
      assert PacedBySleep(times[1..]) by {
        forall i | 0 <= i < |times[1..]| - 1
          ensures times[1..][i + 1] - times[1..][i] > 3
        {
          assert times[1..][i + 1] == times[i + 2] && times[1..][i] == times[i + 1];
        }
      }
      PausedReadsRecharge(DetectStep(s, text, times[0]), text, times[1..]);
    }
  }

  /**
   * 'm' has no guard: n presses from any state, even before any plate was
   * read, add n manual approvals and 50 * n to the cash and show the gate open.
   */
  lemma {:induction false} ManualAlwaysCredits(s: State, n: nat)
    ensures var t := Run(s, seq(n, _ => ManualKey));
      && t.stats == s.stats.(manualApproved := s.stats.manualApproved + n)
      && t.totalCash == s.totalCash + 50 * n
      && (n > 0 ==> t.dashboard.gate == "OPEN" && t.dashboard.status == "MANUAL APPROVED")
    decreases n
  {
    if n > 0 {
      var presses := seq(n, _ => ManualKey);
      assert presses[1..] == seq(n - 1, _ => ManualKey);
      ManualAlwaysCredits(ManualStep(s), n - 1);
    }
  }

  // ---------------------------------------------------------------
  // The main loop's globals, updated in place
  // ---------------------------------------------------------------

  class Gate {
    var stats: Stats
    var totalCash: int
    var dashboard: Dashboard
    var lastPlate: string
    var lastTime: int

    function Snapshot(): State
      reads this
    {
      State(stats, totalCash, dashboard, lastPlate, lastTime)
    }

    predicate Valid()
      reads this
    {
      Inv(Snapshot())
    }

    constructor ()
      ensures Snapshot() == Init() && Valid()
    {
      stats := NoCounts();
      totalCash := 0;
      dashboard := Dashboard("-", "-", "CLOSED", "-", "NO");
      lastPlate := "";
      lastTime := 0;
    }

    method Detect(text: string, now: int)
      requires Valid()
      modifies this
      ensures Valid()
      ensures Snapshot() == DetectStep(old(Snapshot()), text, now)
    {
      ghost var before := Snapshot();
      var plate := Normalize(text);
      PatternOnNormalized(text);
      if MatchesPlatePattern(plate) {
        if plate != lastPlate || now - lastTime > COOLDOWN {
          var decision := CheckVehicle(SharedRegistry(), plate);
          SettleInv(before, plate, decision, now);
          Record(plate, decision, now);
        }
      }
    }

    /**
     * Count the plate, show the interim messages, then the policy's
     * `decision` and the payment outcome, and remember the plate.
     */
    method Record(plate: string, decision: string, now: int)
      modifies this
      ensures Snapshot() == Settle(old(Snapshot()), plate, decision, now)
    {
      stats := stats.(total := stats.total + 1);
      dashboard := dashboard.(plate := plate);
      dashboard := dashboard.(status := "INR 50/- will be auto-deducted", payment := "PROCESSING",
                              gate := "CLOSED", cash := "NO");
      dashboard := dashboard.(status := "ANALYSING VEHICLE RECORDS ...");
      dashboard := dashboard.(status := decision);
      if Contains(decision, "APPROVED") {
        dashboard := dashboard.(payment := CREDITED);
        dashboard := dashboard.(gate := "OPEN");
        dashboard := dashboard.(cash := "YES");
        stats := stats.(approved := stats.approved + 1);
        totalCash := totalCash + TOLL;
      } else {
        dashboard := dashboard.(payment := PAYMENT_REFUSED);
        dashboard := dashboard.(gate := "CLOSED");
        dashboard := dashboard.(cash := "NO");
        stats := stats.(rejected := stats.rejected + 1);
      }
      lastPlate, lastTime := plate, now;
    }

    method Manual()
      requires Valid()
      modifies this
      ensures Valid()
      ensures Snapshot() == ManualStep(old(Snapshot()))
    {
      dashboard := dashboard.(status := "MANUAL APPROVED");
      dashboard := dashboard.(gate := "OPEN");
      dashboard := dashboard.(payment := CREDITED_MANUAL);
      dashboard := dashboard.(cash := "YES");
      stats := stats.(manualApproved := stats.manualApproved + 1);
      totalCash := totalCash + TOLL;
    }
  }
}
