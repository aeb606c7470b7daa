/**
 * toll_gate.py: the detection-only gate. Every frame's OCR text that is a
 * valid plate, and not a repeat of the last plate within the cooldown, is
 * decided at once: counted, shown, and the gate opened on approval. Keys
 * '0'/'1'/'2' switch among the cameras found at start-up. No toll is taken.
 */
module TollGate {
  import opened Options
  import opened Text
  import opened Plates
  import opened Policy
  import opened Cameras
  import Records

  /** `stats = {"total", "approved", "rejected"}` */
  datatype TollStats = TollStats(total: nat, approved: nat, rejected: nat)

  /** `dashboard = {"plate", "status", "gate"}` */
  datatype TollBoard = TollBoard(plate: string, status: string, gate: string)

  /**
   * The globals of toll_gate.py. `cameras` is `AVAILABLE_CAMERAS`;
   * `captureOpen` says whether `cap` still delivers frames: once it does
   * not, the main loop has ended.
   */
  datatype State = State(
    stats: TollStats,
    board: TollBoard,
    lastPlate: string,
    lastTime: int,
    cameras: seq<nat>,
    cameraIndex: nat,
    captureOpen: bool)

  /** The state entering the main loop, on the first detected camera. */
  function Init(cameras: seq<nat>, firstOpens: bool): State
    requires |cameras| > 0
  {
    State(TollStats(0, 0, 0), TollBoard("-", "-", "CLOSED"), "", 0, cameras, cameras[0], firstOpens)
  }

  /** The detection guard: a valid plate outside the same-plate cooldown. */
  predicate DetectionFires(s: State, plate: string, now: int)
  {
    MatchesPlatePattern(plate) && Records.OutsideCooldown(plate, now, s.lastPlate, s.lastTime)
  }

  /** One frame's OCR text at time `now`. A closed capture yields no frame. */
  function DetectStep(s: State, text: string, now: int): State
  {
    var plate := Normalize(text);
    if s.captureOpen && DetectionFires(s, plate, now) then
      Decide(s, plate, CheckVehicle(SharedRegistry(), plate), now)
    else s
  }

  /** Record the policy's `status` for `plate`. */
  function Decide(s: State, plate: string, status: string, now: int): State
  {
    var approved := Contains(status, "APPROVED");
    s.(stats := if approved then s.stats.(total := s.stats.total + 1, approved := s.stats.approved + 1)
                else s.stats.(total := s.stats.total + 1, rejected := s.stats.rejected + 1),
       board := TollBoard(plate, status, if approved then "OPEN" else "CLOSED"),
       lastPlate := plate, lastTime := now)
  }

  /**
   * `switch_camera(index)`: an index not found at start-up is ignored;
   * otherwise the old capture is released and the new device opened, and
   * the index only changes if it opens. If it does not, `cap` is left
   * closed and the next frame read ends the loop.
   */
  function SwitchCameraStep(s: State, index: nat, opens: bool): State
  {
    if !s.captureOpen || index !in s.cameras then s
    else if opens then s.(cameraIndex := index)
    else s.(captureOpen := false)
  }

  datatype Event =
    | PlateRead(text: string, now: int)
    | CameraKey(index: nat, opens: bool)

  function Step(s: State, e: Event): State
  {
    match e
    case PlateRead(text, now) => DetectStep(s, text, now)
    case CameraKey(index, opens) => SwitchCameraStep(s, index, opens)
  }

  /** The state after a sequence of events. */
  function Run(s: State, events: seq<Event>): State
    decreases |events|
  {
    if events == [] then s else Run(Step(s, events[0]), events[1..])
  }

  // ---------------------------------------------------------------
  // Invariant
  // ---------------------------------------------------------------

  /**
   * Every counted plate was approved or rejected; the gate shows OPEN
   * exactly when the status is an approval; the current camera is one
   * found at start-up; the remembered plate is empty or a valid plate.
   */
  predicate Inv(s: State)
  {
    && s.stats.total == s.stats.approved + s.stats.rejected
    && (s.board.gate == "OPEN" <==> Contains(s.board.status, "APPROVED"))
    && s.cameraIndex in s.cameras
    && (s.lastPlate == "" || IsPlate(s.lastPlate))
  }

  lemma InitInv(cameras: seq<nat>, firstOpens: bool)
    requires |cameras| > 0
    ensures Inv(Init(cameras, firstOpens))
  {
    MissingCharNotContained("-", "APPROVED", 'A');
  }

  lemma StepInv(s: State, e: Event)
    requires Inv(s)
    ensures Inv(Step(s, e))
  {
    if e.PlateRead? {
      PatternOnNormalized(e.text);
    }
  }

  lemma {:induction false} RunInv(s: State, events: seq<Event>)
    requires Inv(s)
    ensures Inv(Run(s, events))
    decreases |events|
  {
    if events != [] {
      StepInv(s, events[0]);
      RunInv(Step(s, events[0]), events[1..]);
    }
  }

  /** From any start-up camera list, every reachable state keeps the invariant. */
  lemma ReachableInv(cameras: seq<nat>, firstOpens: bool, events: seq<Event>)
    requires |cameras| > 0
    ensures Inv(Run(Init(cameras, firstOpens), events))
  {
    InitInv(cameras, firstOpens);
    RunInv(Init(cameras, firstOpens), events);
  }

  /** Once the capture is closed the loop has ended: nothing changes any more. */
  lemma {:induction false} StoppedStaysStopped(s: State, events: seq<Event>)
    requires !s.captureOpen
    ensures Run(s, events) == s
    decreases |events|
  {
    if events != [] {
      StoppedStaysStopped(Step(s, events[0]), events[1..]);
    }
  }

  // ---------------------------------------------------------------
  // Properties of single events
  // ---------------------------------------------------------------

  /**
   * A frame is decided exactly when the capture is open, the cleaned text
   * is a plate, and it is a different plate or more than 3 s have passed:
   * the plate is counted once, as approved when it has no offence (gate
   * OPEN) and as rejected otherwise (gate CLOSED), and becomes the
   * remembered plate with the current time. Otherwise nothing changes.
   */
  lemma DetectOutcome(s: State, text: string, now: int)
    ensures var plate := Normalize(text);
      var t := DetectStep(s, text, now);
      if s.captureOpen && IsPlate(plate) && (plate != s.lastPlate || now - s.lastTime > 3) then
        && t.stats.total == s.stats.total + 1
        && t.board.plate == plate && t.board.status == CheckVehicle(SharedRegistry(), plate)
        && t.lastPlate == plate && t.lastTime == now
        && (Offences(SharedRegistry(), plate) == [] ==>
              t.stats.approved == s.stats.approved + 1 && t.stats.rejected == s.stats.rejected
              && t.board.gate == "OPEN")
        && (Offences(SharedRegistry(), plate) != [] ==>
              t.stats.rejected == s.stats.rejected + 1 && t.stats.approved == s.stats.approved
              && t.board.gate == "CLOSED")
        && t.cameras == s.cameras && t.cameraIndex == s.cameraIndex && t.captureOpen
      else t == s
  {
    var plate := Normalize(text);
    PatternOnNormalized(text);
    ApprovedIffClean(Offences(SharedRegistry(), plate));
  }

  /**
   * The cooldown: after a plate is decided at time t1, the same plate read
   * again at any t2 with t2 - t1 <= 3 is ignored, while a different plate
   * or the same one after more than 3 s is decided again.
   */
  lemma CooldownSuppressesRepeat(s: State, text: string, t1: int, other: string, t2: int)
    requires s.captureOpen && IsPlate(Normalize(text)) && IsPlate(Normalize(other))
    requires s.lastPlate != Normalize(text) || t1 - s.lastTime > 3
    ensures var decided := DetectStep(s, text, t1);
      && decided.lastPlate == Normalize(text) && decided.lastTime == t1
      && (Normalize(other) == Normalize(text) && t2 - t1 <= 3 ==> DetectStep(decided, other, t2) == decided)
      && (Normalize(other) != Normalize(text) || t2 - t1 > 3 ==>
            DetectStep(decided, other, t2).stats.total == decided.stats.total + 1)
  {
    DetectOutcome(s, text, t1);
    var decided := DetectStep(s, text, t1);
    DetectOutcome(decided, other, t2);
  }

  /**
   * Switching camera never touches counters, dashboard or cooldown memory:
   * an unknown index is ignored; a known one that opens becomes current;
   * a known one that fails leaves the index and closes the capture.
   */
  lemma SwitchCameraOutcome(s: State, index: nat, opens: bool)
    ensures var t := SwitchCameraStep(s, index, opens);
      && t.stats == s.stats && t.board == s.board && t.lastPlate == s.lastPlate && t.lastTime == s.lastTime
      && t.cameras == s.cameras
      && (index !in s.cameras || !s.captureOpen ==> t == s)
      && (index in s.cameras && s.captureOpen && opens ==> t.cameraIndex == index && t.captureOpen)
      && (index in s.cameras && s.captureOpen && !opens ==> t.cameraIndex == s.cameraIndex && !t.captureOpen)
  {
  }

  // ---------------------------------------------------------------
  // The script's globals, updated in place
  // ---------------------------------------------------------------

  class Gate {
    var stats: TollStats
    var board: TollBoard
    var lastPlate: string
    var lastTime: int
    var cameras: seq<nat>
    var cameraIndex: nat
    var captureOpen: bool

    function Snapshot(): State
      reads this
    {
      State(stats, board, lastPlate, lastTime, cameras, cameraIndex, captureOpen)
    }

    predicate Valid()
      reads this
    {
      Inv(Snapshot())
    }

    /** Enter the main loop on the first camera found, which may or may not open. */
    constructor (found: seq<nat>, firstOpens: bool)
      requires |found| > 0
      ensures Snapshot() == Init(found, firstOpens) && Valid()
    {
      stats := TollStats(0, 0, 0);
      board := TollBoard("-", "-", "CLOSED");
      lastPlate := "";
      lastTime := 0;
      cameras := found;
      cameraIndex := found[0];
      captureOpen := firstOpens;
      new;
      InitInv(found, firstOpens);
    }

    method Detect(text: string, now: int)
      requires Valid()
      modifies this
      ensures Valid()
      ensures Snapshot() == DetectStep(old(Snapshot()), text, now)
    {
      ghost var before := Snapshot();
      if captureOpen {
        var plate := Normalize(text);
        if MatchesPlatePattern(plate) {
          if plate != lastPlate || now - lastTime > Records.COOLDOWN {
            Record(plate, CheckVehicle(SharedRegistry(), plate), now);
          }
        }
      }
      StepInv(before, PlateRead(text, now));
    }

    /** Count, show and remember a decided plate. */
    method Record(plate: string, status: string, now: int)
      modifies this
      ensures Snapshot() == Decide(old(Snapshot()), plate, status, now)
    {
      stats := stats.(total := stats.total + 1);
      board := board.(plate := plate);
      board := board.(status := status);
      board := board.(gate := if Contains(status, "APPROVED") then "OPEN" else "CLOSED");
      if Contains(status, "APPROVED") {
        stats := stats.(approved := stats.approved + 1);
      } else {
        stats := stats.(rejected := stats.rejected + 1);
      }
      lastPlate, lastTime := plate, now;
    }

    method SwitchCamera(index: nat, opens: bool)
      requires Valid()
      modifies this
      ensures Valid()
      ensures Snapshot() == SwitchCameraStep(old(Snapshot()), index, opens)
    {
      if !captureOpen || index !in cameras {
        return;
      }
      if opens {
        cameraIndex := index;
      } else {
        captureOpen := false;
      }
    }
  }

  /**
   * Start-up: probe devices 0..4; with none, the script exits. Otherwise the
   * gate starts on the lowest device that opened.
   */
  method Start(opens: nat -> bool) returns (gate: Option<Gate>)
    ensures gate.None? <==> forall i :: 0 <= i < MAX_PROBED ==> !opens(i)
    ensures gate.Some? ==>
      && fresh(gate.value) && gate.value.Valid()
      && var cam := gate.value.cameraIndex;
         && cam < MAX_PROBED && opens(cam)
         && (forall i :: 0 <= i < cam ==> !opens(i))
         && (forall i :: 0 <= i < MAX_PROBED && opens(i) ==> i in gate.value.cameras)
    ensures gate.Some? ==>
      var cams := gate.value.cameras;
      && (forall k :: 0 <= k < |cams| ==> cams[k] < MAX_PROBED && opens(cams[k]))
      && (forall j, k :: 0 <= j < k < |cams| ==> cams[j] < cams[k])
      && |cams| > 0 && gate.value.Snapshot() == Init(cams, true)
  {
    var found := DetectCameras(MAX_PROBED, opens);
    if found == [] {
      return None;
    }
    var g := new Gate(found, opens(found[0]));
    forall i | 0 <= i < found[0]
      ensures !opens(i)
    {
    }
    return Some(g);
  }
}
