/**
 * withPayment.py: the instant-payment gate. Every valid plate outside the
 * same-plate cooldown is counted and decided at once; approval credits the
 * toll and opens the gate. 'm' approves by hand with no guard; 'b' lets a
 * vehicle through without payment and counts it as a bypass.
 */
module PaymentGate {
  import opened Text
  import opened Plates
  import opened Policy
  import opened Records

  /**
   * The globals of withPayment.py's main loop; `bypass` is the extra
   * `stats["bypass"]` counter.
   */
  datatype State = State(
    stats: Stats,
    bypass: nat,
    totalCash: int,
    dashboard: Dashboard,
    lastPlate: string,
    lastTime: int)

  function Init(): State
  {
    State(NoCounts(), 0, 0, Dashboard("-", "-", "CLOSED", "-", "NO"), "", 0)
  }

  /** The payment line for an approval, with the rupee sign. */
  const PAID := "\U{20B9}50 Paid"

  /** The detection guard: a valid plate outside the same-plate cooldown. */
  predicate DetectionFires(s: State, plate: string, now: int)
  {
    MatchesPlatePattern(plate) && OutsideCooldown(plate, now, s.lastPlate, s.lastTime)
  }

  /** One frame's OCR text at time `now`. */
  function DetectStep(s: State, text: string, now: int): State
  {
    var plate := Normalize(text);
    if DetectionFires(s, plate, now) then Settle(s, plate, CheckVehicle(SharedRegistry(), plate), now)
    else s
  }

  /** The final state of a detection once the policy has produced `status`. */
  function Settle(s: State, plate: string, status: string, now: int): State
  {
    var counted := s.stats.(total := s.stats.total + 1);
    var decided :=
      if Contains(status, "APPROVED") then
        s.(stats := counted.(approved := counted.approved + 1), totalCash := s.totalCash + TOLL,
           dashboard := Dashboard(plate, status, "OPEN", PAID, "YES"))
      else
        s.(stats := counted.(rejected := counted.rejected + 1),
           dashboard := Dashboard(plate, status, "CLOSED", "-", "NO"));
    decided.(lastPlate := plate, lastTime := now)
  }

  /** 'm': approve by hand, whatever is on the screen. */
  function ManualStep(s: State): State
  {
    s.(dashboard := s.dashboard.(status := "MANUAL APPROVED", gate := "OPEN",
                                 payment := PAID + " (Manual)", cash := "YES"),
       stats := s.stats.(manualApproved := s.stats.manualApproved + 1),
       totalCash := s.totalCash + TOLL)
  }

  /** 'b': open the gate without payment. */
  function BypassStep(s: State): State
  {
    s.(dashboard := s.dashboard.(status := "BYPASS ALLOWED", gate := "OPEN", payment := "-", cash := "NO"),
       bypass := s.bypass + 1)
  }

  datatype Event =
    | PlateRead(text: string, now: int)
    | ManualKey
    | BypassKey

  function Step(s: State, e: Event): State
  {
    match e
    case PlateRead(text, now) => DetectStep(s, text, now)
    case ManualKey => ManualStep(s)
    case BypassKey => BypassStep(s)
  }

  /** The state after a sequence of events. */
  function Run(s: State, events: seq<Event>): State
    decreases |events|
  {
    if events == [] then s else Run(Step(s, events[0]), events[1..])
  }

  ghost predicate Reachable(s: State)
  {
    exists events :: s == Run(Init(), events)
  }

  // ---------------------------------------------------------------
  // Invariant
  // ---------------------------------------------------------------

  /**
   * The books balance (bypasses take no cash); cash is shown as collected
   * only with the gate open; the remembered plate is empty or a valid plate.
   */
  predicate Inv(s: State)
  {
    && Balanced(s.stats, s.totalCash)
    && (s.dashboard.cash == "YES" ==> s.dashboard.gate == "OPEN")
    && (s.lastPlate == "" || IsPlate(s.lastPlate))
  }

  lemma InitInv()
    ensures Inv(Init())
  {
  }

  lemma SettleInv(s: State, plate: string, status: string, now: int)
    requires Inv(s) && IsPlate(plate)
    ensures Inv(Settle(s, plate, status, now))
  {
    var t := Settle(s, plate, status, now);
    if Contains(status, "APPROVED") {
      assert t.dashboard.gate == "OPEN";
    } else {
      assert t.dashboard.cash == "NO" && "NO" != "YES";
    }
  }

  lemma StepInv(s: State, e: Event)
    requires Inv(s)
    ensures Inv(Step(s, e))
  {
    match e
    case PlateRead(text, now) =>
      PatternOnNormalized(text);
      var plate := Normalize(text);
      if DetectionFires(s, plate, now) {
        SettleInv(s, plate, CheckVehicle(SharedRegistry(), plate), now);
      }
    case ManualKey =>
    case BypassKey =>
  }

  lemma {:induction false} RunInv(s: State, events: seq<Event>)
    requires Inv(s)
    ensures Inv(Run(s, events))
    decreases |events|
  {
    if events != [] {
      StepInv(s, events[0]);
      RunInv(Step(s, events[0]), events[1..]);
    }
  }

  /** In every reachable state total == approved + rejected and cash == 50 * (approved + manual). */
  lemma ReachableInv(s: State)
    requires Reachable(s)
    ensures Inv(s)
  {
    var events :| s == Run(Init(), events);
    InitInv();
    RunInv(Init(), events);
  }

  // ---------------------------------------------------------------
  // Properties of single events
  // ---------------------------------------------------------------

  /**
   * A frame is decided exactly when the cleaned text is a plate and it is
   * a different plate or more than 3 s have passed: counted once, approved
   * with the toll credited and the gate open when the plate has no offence,
   * rejected with the gate closed and nothing credited otherwise.
   */
  lemma DetectOutcome(s: State, text: string, now: int)
    ensures var plate := Normalize(text);
      var t := DetectStep(s, text, now);
      if IsPlate(plate) && (plate != s.lastPlate || now - s.lastTime > 3) then
        && t.stats.total == s.stats.total + 1 && t.stats.manualApproved == s.stats.manualApproved
        && t.dashboard.plate == plate && t.dashboard.status == CheckVehicle(SharedRegistry(), plate)
        && t.lastPlate == plate && t.lastTime == now
        && (Offences(SharedRegistry(), plate) == [] ==>
              && t.stats.approved == s.stats.approved + 1 && t.stats.rejected == s.stats.rejected
              && t.totalCash == s.totalCash + 50 && t.dashboard.gate == "OPEN")
        && (Offences(SharedRegistry(), plate) != [] ==>
              && t.stats.rejected == s.stats.rejected + 1 && t.stats.approved == s.stats.approved
              && t.totalCash == s.totalCash && t.dashboard.gate == "CLOSED")
      else t == s
  {
    var plate := Normalize(text);
    PatternOnNormalized(text);
    ApprovedIffClean(Offences(SharedRegistry(), plate));
  }

  /** The same plate read again within 3 s of its decision is ignored. */
  lemma RepeatWithinCooldownIgnored(s: State, text: string, t1: int, t2: int)
    requires IsPlate(Normalize(text)) && (Normalize(text) != s.lastPlate || t1 - s.lastTime > 3)
    requires t2 - t1 <= 3
    ensures var decided := DetectStep(s, text, t1);
      DetectStep(decided, text, t2) == decided
  {
    DetectOutcome(s, text, t1);
    DetectOutcome(DetectStep(s, text, t1), text, t2);
  }

  /**
   * 'm' has no guard: n presses from any state, even before any plate was
   * read, add n manual approvals and 50 * n to the cash and show the gate open.
   */
  lemma {:induction false} ManualAlwaysCredits(s: State, n: nat)
    ensures var t := Run(s, seq(n, _ => ManualKey));
      && t.stats == s.stats.(manualApproved := s.stats.manualApproved + n)
      && t.totalCash == s.totalCash + 50 * n && t.bypass == s.bypass
      && (n > 0 ==> t.dashboard.gate == "OPEN" && t.dashboard.status == "MANUAL APPROVED")
    decreases n
  {
    if n > 0 {
      var presses := seq(n, _ => ManualKey);
      assert presses[1..] == seq(n - 1, _ => ManualKey);
      ManualAlwaysCredits(ManualStep(s), n - 1);
    }
  }

  /**
   * 'b' opens the gate with no cash shown and counts one bypass; it changes
   * no other counter and takes no toll, so bypassed vehicles never enter
   * the books.
   */
  lemma {:induction false} BypassesTakeNoCash(s: State, n: nat)
    ensures var t := Run(s, seq(n, _ => BypassKey));
      && t.stats == s.stats && t.totalCash == s.totalCash && t.bypass == s.bypass + n
      && t.lastPlate == s.lastPlate && t.lastTime == s.lastTime
      && (n > 0 ==> t.dashboard == s.dashboard.(status := "BYPASS ALLOWED", gate := "OPEN", payment := "-", cash := "NO"))
    decreases n
  {
    if n > 0 {
      var presses := seq(n, _ => BypassKey);
      assert presses[1..] == seq(n - 1, _ => BypassKey);
      BypassesTakeNoCash(BypassStep(s), n - 1);
    }
  }

  // ---------------------------------------------------------------
  // The main loop's globals, updated in place
  // ---------------------------------------------------------------

  class Gate {
    var stats: Stats
    var bypass: nat
    var totalCash: int
    var dashboard: Dashboard
    var lastPlate: string
    var lastTime: int

    function Snapshot(): State
      reads this
    {
      State(stats, bypass, totalCash, dashboard, lastPlate, lastTime)
    }

    predicate Valid()
      reads this
    {
      Inv(Snapshot())
    }

    constructor ()
      ensures Snapshot() == Init() && Valid()
    {
      stats := NoCounts();
      bypass := 0;
      totalCash := 0;
      dashboard := Dashboard("-", "-", "CLOSED", "-", "NO");
      lastPlate := "";
      lastTime := 0;
    }

    method Detect(text: string, now: int)
      requires Valid()
      modifies this
      ensures Valid()
      ensures Snapshot() == DetectStep(old(Snapshot()), text, now)
    {
      ghost var before := Snapshot();
      var plate := Normalize(text);
      PatternOnNormalized(text);
      if MatchesPlatePattern(plate) {
        if plate != lastPlate || now - lastTime > COOLDOWN {
          var status := CheckVehicle(SharedRegistry(), plate);
          SettleInv(before, plate, status, now);
          Record(plate, status, now);
        }
      }
    }

    /** Count the plate, show the policy's `status` and the payment outcome, remember the plate. */
    method Record(plate: string, status: string, now: int)
      modifies this
      ensures Snapshot() == Settle(old(Snapshot()), plate, status, now)
    {
      stats := stats.(total := stats.total + 1);
      dashboard := dashboard.(plate := plate, status := status,
                              gate := if Contains(status, "APPROVED") then "OPEN" else "CLOSED");
      if Contains(status, "APPROVED") {
        stats := stats.(approved := stats.approved + 1);
        dashboard := dashboard.(payment := PAID);
        dashboard := dashboard.(cash := "YES");
        totalCash := totalCash + TOLL;
      } else {
        stats := stats.(rejected := stats.rejected + 1);
        dashboard := dashboard.(payment := "-");
        dashboard := dashboard.(cash := "NO");
      }
      lastPlate, lastTime := plate, now;
    }

    method Manual()
      requires Valid()
      modifies this
      ensures Valid()
      ensures Snapshot() == ManualStep(old(Snapshot()))
    {
      dashboard := dashboard.(status := "MANUAL APPROVED");
      dashboard := dashboard.(gate := "OPEN");
      dashboard := dashboard.(payment := PAID + " (Manual)");
      dashboard := dashboard.(cash := "YES");
      stats := stats.(manualApproved := stats.manualApproved + 1);
      totalCash := totalCash + TOLL;
    }

    method Bypass()
      requires Valid()
      modifies this
      ensures Valid()
      ensures Snapshot() == BypassStep(old(Snapshot()))
    {
      dashboard := dashboard.(status := "BYPASS ALLOWED");
      dashboard := dashboard.(gate := "OPEN");
      dashboard := dashboard.(payment := "-");
      dashboard := dashboard.(cash := "NO");
      bypass := bypass + 1;
    }
  }
}
