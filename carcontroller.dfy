/**
 * The Hyundai car controller (selfdrive/car/hyundai/carcontroller.py): the
 * acceleration hysteresis, the HUD alert mapping, steering gating, the rolling
 * counters, the message schedule and the stop-and-go resume burst.
 *
 * The controller's calls into the message builders do not match the builders'
 * own signatures, so the messages it queues are kept as requests recording
 * the arguments it passes; the three fixed camera-replacement messages are
 * the ones HyundaiCan builds.
 */
module HyundaiCarController {
  import opened Common
  import HyundaiCan

  const AccelHystGap: real := 0.02
  const AccelMax: real := 1.5
  const AccelMin: real := -3.0
  const AccelScale: real := Max(AccelMax, -AccelMin)

  /**
   * accel_hysteresis: the steady value follows the request only when the
   * request leaves the band of half-width ACCEL_HYST_GAP around it, and then
   * stops exactly at the band's edge. The returned command is the new steady
   * value, so it never lies more than the gap away from the request.
   */
  function AccelHysteresis(accel: real, accelSteady: real): (r: (real, real))
    ensures r.0 == r.1
    ensures accel - AccelHystGap <= r.1 <= accel + AccelHystGap
    ensures accelSteady - AccelHystGap <= accel <= accelSteady + AccelHystGap ==> r.1 == accelSteady
    ensures r.1 != accelSteady ==> r.1 == accel - AccelHystGap || r.1 == accel + AccelHystGap
  {
    var steady :=
      if accel > accelSteady + AccelHystGap then accel - AccelHystGap
      else if accel < accelSteady - AccelHystGap then accel + AccelHystGap
      else accelSteady;
    (steady, steady)
  }

  /** A second pass with the same request changes nothing: the steady value is already within the band. */
  lemma AccelHysteresisIdempotent(accel: real, accelSteady: real)
    ensures var s := AccelHysteresis(accel, accelSteady).1;
            AccelHysteresis(accel, s) == (s, s)
  {
  }

  /** The steady value is monotone in the request. */
  lemma AccelHysteresisMonotone(a1: real, a2: real, accelSteady: real)
    requires a1 <= a2
    ensures AccelHysteresis(a1, accelSteady).1 <= AccelHysteresis(a2, accelSteady).1
  {
  }

  /** The acceleration command: gas minus brake through the hysteresis, scaled and clipped to the limits. */
  function ApplyAccel(gas: real, brake: real, accelSteady: real): (r: real)
    ensures AccelMin <= r <= AccelMax
  {
    Clip(AccelHysteresis(gas - brake, accelSteady).0 * AccelScale, AccelMin, AccelMax)
  }

  /** Inside the limits the command is the steady value scaled by ACCEL_SCALE = 3. */
  lemma ApplyAccelScales(gas: real, brake: real, accelSteady: real)
    ensures var s := AccelHysteresis(gas - brake, accelSteady).1;
            -1.0 <= s <= 0.5 ==> ApplyAccel(gas, brake, accelSteady) == 3.0 * s
  {
  }

  /** cereal's CarControl.HUDControl.VisualAlert. */
  datatype VisualAlert = NoVisualAlert | Fcw | SteerRequired | BrakePressed | WrongGear | SeatbeltUnbuckled | SpeedTooHigh

  datatype HudAlert = HudAlert(hudAlert: int, laneVisible: int, leftLaneWarning: int, rightLaneWarning: int)

  /**
   * process_hud_alert. `genesis` is the set of Genesis fingerprints, which
   * show a departure warning as 1 instead of 2.
   */
  function ProcessHudAlert(enabled: bool, fingerprint: string, genesis: set<string>, visualAlert: VisualAlert,
                           leftLine: bool, rightLine: bool, leftLaneDepart: bool, rightLaneDepart: bool): (r: HudAlert)
    ensures r.hudAlert == 3 <==> visualAlert == SteerRequired
    ensures r.hudAlert == 0 || r.hudAlert == 3
    ensures r.leftLaneWarning != 0 <==> leftLaneDepart
    ensures r.rightLaneWarning != 0 <==> rightLaneDepart
    ensures leftLaneDepart ==> (r.leftLaneWarning == 1 <==> fingerprint in genesis)
    ensures rightLaneDepart ==> (r.rightLaneWarning == 1 <==> fingerprint in genesis)
    ensures r.leftLaneWarning in {0, 1, 2} && r.rightLaneWarning in {0, 1, 2}
  {
    var hudAlert := if visualAlert == SteerRequired then 3 else 0;
    var laneVisible :=
      if leftLine && rightLine then (if enabled then 3 else 4)
      else if leftLine then 5
      else if rightLine then 6
      else 1;
    var departWarning := if fingerprint in genesis then 1 else 2;
    HudAlert(hudAlert, laneVisible,
             if leftLaneDepart then departWarning else 0,
             if rightLaneDepart then departWarning else 0)
  }

  /** Which lines a lane_visible code shows: 3 and 4 both, 5 the left, 6 the right, 1 none. */
  function VisibleLines(laneVisible: int): (bool, bool)
  {
    (laneVisible in {3, 4, 5}, laneVisible in {3, 4, 6})
  }

  /** The lane_visible code can be decoded back into the two lines, and 3 marks both lines while engaged. */
  lemma LaneVisibleDecodes(enabled: bool, fingerprint: string, genesis: set<string>, visualAlert: VisualAlert,
                           leftLine: bool, rightLine: bool, leftLaneDepart: bool, rightLaneDepart: bool)
    ensures var r := ProcessHudAlert(enabled, fingerprint, genesis, visualAlert, leftLine, rightLine,
                                     leftLaneDepart, rightLaneDepart);
            VisibleLines(r.laneVisible) == (leftLine, rightLine) &&
            (r.laneVisible == 3 <==> leftLine && rightLine && enabled) &&
            r.laneVisible in {1, 3, 4, 5, 6}
  {
  }

  /** apply_std_steer_torque_limits (selfdrive/car/__init__.py), a collaborator whose code is not part of this model. */
  type SteerLimiter = (real, int, real) -> int

  /** The steering command is cut to 0 unless engaged with the wheel turned past 100 degrees. */
  function GatedSteer(limited: int, enabled: bool, angleSteers: real): (r: int)
    ensures r != 0 ==> enabled && (angleSteers > 100.0 || angleSteers < -100.0)
    ensures enabled && (angleSteers > 100.0 || angleSteers < -100.0) ==> r == limited
  {
    var lkasActive := enabled && (angleSteers > 100.0 || angleSteers < -100.0);
    if lkasActive then limited else 0
  }

  /** steer_req is 1 exactly when a nonzero torque is commanded. */
  function SteerReq(applySteer: int): (r: int)
    ensures r == 1 <==> applySteer != 0
    ensures r == 0 <==> applySteer == 0
  {
    if applySteer != 0 then 1 else 0
  }

  /** The cruise buttons the controller presses (Buttons in the car's values). */
  datatype Button = NoButton | ResAccel | Cancel

  /** A queued CAN message. */
  datatype Send =
    | Fixed(msg: HyundaiCan.CanMsg)
    | Lkas11Request(applySteer: int, steerReq: int, cnt: int, lkasActive: bool, hudAlert: int, laneVisible: int,
                    leftLaneDepart: bool, rightLaneDepart: bool, keepStock: bool)
    | Clu11Request(button: Button, speed: real, cnt: int)
    | Scc12Request(applyAccel: real, enabled: bool, cnt: int)

  /** The camera-replacement messages of one frame. */
  function FixedSends(cameraDisconnected: bool, frame: nat): seq<Send>
  {
    if !cameraDisconnected then []
    else (if frame % 10 == 0 then [Fixed(HyundaiCan.CreateLkas12())] else []) +
         (if frame % 50 == 0 then [Fixed(HyundaiCan.Create1191())] else []) +
         (if frame % 7 == 0 then [Fixed(HyundaiCan.Create1156())] else [])
  }

  /** The controller's own messages of one frame, after the camera-replacement ones. */
  function ControlSends(frame: nat, lkas11: Send, speed: real, scc12: Send, pcmCancelCmd: bool, resume: bool): seq<Send>
  {
    var clu11Cnt := frame % 16;
    [lkas11, Clu11Request(NoButton, speed, clu11Cnt)] +
    (if frame % 2 == 1 then [scc12] else []) +
    (if pcmCancelCmd then [Clu11Request(Cancel, speed, clu11Cnt)] else []) +
    (if resume then [Clu11Request(ResAccel, speed, clu11Cnt)] else [])
  }

  /** The messages of one frame, in the order the controller queues them. */
  function Schedule(cameraDisconnected: bool, frame: nat, lkas11: Send, speed: real, scc12: Send,
                    pcmCancelCmd: bool, resume: bool): seq<Send>
  {
    FixedSends(cameraDisconnected, frame) + ControlSends(frame, lkas11, speed, scc12, pcmCancelCmd, resume)
  }

  /** The camera-replacement messages: each on its own period, only with the camera disconnected. */
  lemma FixedSendsContents(cameraDisconnected: bool, frame: nat)
    ensures var s := FixedSends(cameraDisconnected, frame);
            (Fixed(HyundaiCan.CreateLkas12()) in s <==> cameraDisconnected && frame % 10 == 0) &&
            (Fixed(HyundaiCan.Create1191()) in s <==> cameraDisconnected && frame % 50 == 0) &&
            (Fixed(HyundaiCan.Create1156()) in s <==> cameraDisconnected && frame % 7 == 0) &&
            (forall m :: m in s ==> m.Fixed?) && |s| <= 3
  {
    var lkas12, m1191, m1156 := HyundaiCan.CreateLkas12(), HyundaiCan.Create1191(), HyundaiCan.Create1156();
    assert lkas12 != m1191 && lkas12 != m1156 && m1191 != m1156;
  }

  /** The controller's own messages: none is fixed, and each CLU11 carries the counter frame mod 16. */
  lemma ControlSendsContents(frame: nat, lkas11: Send, speed: real, scc12: Send, pcmCancelCmd: bool, resume: bool)
    requires lkas11.Lkas11Request? && scc12.Scc12Request?
    ensures var s := ControlSends(frame, lkas11, speed, scc12, pcmCancelCmd, resume);
            (scc12 in s <==> frame % 2 == 1) &&
            (Clu11Request(Cancel, speed, frame % 16) in s <==> pcmCancelCmd) &&
            (Clu11Request(ResAccel, speed, frame % 16) in s <==> resume) &&
            lkas11 in s && Clu11Request(NoButton, speed, frame % 16) in s &&
            (forall m :: m in s ==> !m.Fixed?) &&
            (forall m :: m in s && m.Clu11Request? ==> m.cnt == frame % 16) &&
            2 <= |s| <= 5
  {
  }

  /**
   * What a frame sends: the fixed messages only with the camera disconnected
   * and on their periods, SCC12 on odd frames, CANCEL exactly when the cruise
   * is to be cancelled, RES_ACCEL exactly in a resume burst, and every CLU11
   * with the counter frame mod 16.
   */
  lemma ScheduleContents(cameraDisconnected: bool, frame: nat, lkas11: Send, speed: real, scc12: Send,
                         pcmCancelCmd: bool, resume: bool)
    requires lkas11.Lkas11Request? && scc12.Scc12Request?
    ensures var s := Schedule(cameraDisconnected, frame, lkas11, speed, scc12, pcmCancelCmd, resume);
            (Fixed(HyundaiCan.CreateLkas12()) in s <==> cameraDisconnected && frame % 10 == 0) &&
            (Fixed(HyundaiCan.Create1191()) in s <==> cameraDisconnected && frame % 50 == 0) &&
            (Fixed(HyundaiCan.Create1156()) in s <==> cameraDisconnected && frame % 7 == 0) &&
            (scc12 in s <==> frame % 2 == 1) &&
            (Clu11Request(Cancel, speed, frame % 16) in s <==> pcmCancelCmd) &&
            (Clu11Request(ResAccel, speed, frame % 16) in s <==> resume) &&
            lkas11 in s && Clu11Request(NoButton, speed, frame % 16) in s &&
            (forall m :: m in s && m.Clu11Request? ==> m.cnt == frame % 16) &&
            2 <= |s| <= 8
  {
    var f := FixedSends(cameraDisconnected, frame);
    var c := ControlSends(frame, lkas11, speed, scc12, pcmCancelCmd, resume);
    FixedSendsContents(cameraDisconnected, frame);
    ControlSendsContents(frame, lkas11, speed, scc12, pcmCancelCmd, resume);
    assert forall m :: m in f + c <==> m in f || m in c;
  }

  /** The stop-and-go state: the lead distance recorded at standstill, the RES counter and the last burst's frame. */
  datatype ResumeState = ResumeState(lastLeadDistance: real, clu11Cnt: int, lastResumeFrame: int)

  /** One frame of the resume logic; the flag says whether a RES_ACCEL is sent. */
  function ResumeStep(s: ResumeState, stopped: bool, leadDistance: real, frame: int): (ResumeState, bool)
  {
    if stopped then
      if s.lastLeadDistance == 0.0 then (s.(lastLeadDistance := leadDistance, clu11Cnt := 0), false)
      else if leadDistance > s.lastLeadDistance && frame - s.lastResumeFrame > 5 then
        if s.clu11Cnt + 1 > 5 then (s.(clu11Cnt := 0, lastResumeFrame := frame), true)
        else (s.(clu11Cnt := s.clu11Cnt + 1), true)
      else (s, false)
    else if s.lastLeadDistance != 0.0 then (s.(lastLeadDistance := 0.0), false)
    else (s, false)
  }

  /**
   * RES_ACCEL goes out only at standstill with a recorded lead distance, when
   * the lead has moved away and more than five frames have passed since the
   * last burst. The first standstill frame records the distance; leaving
   * standstill clears it; the recorded distance changes nowhere else.
   */
  lemma ResumeSendRule(s: ResumeState, stopped: bool, leadDistance: real, frame: int)
    ensures var (t, sent) := ResumeStep(s, stopped, leadDistance, frame);
            (sent <==> stopped && s.lastLeadDistance != 0.0 && leadDistance > s.lastLeadDistance &&
                       frame - s.lastResumeFrame > 5) &&
            (stopped && s.lastLeadDistance == 0.0 ==> t.lastLeadDistance == leadDistance && t.clu11Cnt == 0) &&
            (!stopped ==> t.lastLeadDistance == 0.0) &&
            (stopped && s.lastLeadDistance != 0.0 ==> t.lastLeadDistance == s.lastLeadDistance) &&
            (t.lastResumeFrame != s.lastResumeFrame ==> sent && t.lastResumeFrame == frame && t.clu11Cnt == 0)
  {
  }

  /** The RES counter stays in 0..5. */
  lemma ResumeCounterBounded(s: ResumeState, stopped: bool, leadDistance: real, frame: int)
    requires 0 <= s.clu11Cnt <= 5
    ensures 0 <= ResumeStep(s, stopped, leadDistance, frame).0.clu11Cnt <= 5
  {
  }

  /** One frame of input to the resume logic. */
  datatype ResumeInput = ResumeInput(stopped: bool, leadDistance: real, frame: int)

  function ResumeAfter(s: ResumeState, xs: seq<ResumeInput>): ResumeState
  {
    if xs == [] then s
    else var x := xs[|xs| - 1]; ResumeStep(ResumeAfter(s, xs[..|xs| - 1]), x.stopped, x.leadDistance, x.frame).0
  }

  /** Every frame of xs sends a RES_ACCEL. */
  ghost predicate AllSend(s: ResumeState, xs: seq<ResumeInput>)
  {
    forall k :: 0 <= k < |xs| ==>
      ResumeStep(ResumeAfter(s, xs[..k]), xs[k].stopped, xs[k].leadDistance, xs[k].frame).1
  }

  /** Fewer than six sends from a zero counter count up and leave the burst frame alone. */
  lemma {:induction false} ResumeBurstCounts(s: ResumeState, xs: seq<ResumeInput>)
    requires s.clu11Cnt == 0 && |xs| <= 5 && AllSend(s, xs)
    ensures ResumeAfter(s, xs).clu11Cnt == |xs|
    ensures ResumeAfter(s, xs).lastResumeFrame == s.lastResumeFrame
  {
    if xs != [] {
      var n := |xs|;
      var p := xs[..n - 1];
      assert AllSend(s, p) by {
        forall k | 0 <= k < |p|
          ensures ResumeStep(ResumeAfter(s, p[..k]), p[k].stopped, p[k].leadDistance, p[k].frame).1
        {
          assert p[..k] == xs[..k];
        }
      }
      ResumeBurstCounts(s, p);
      assert p == xs[..n - 1];
    }
  }

  /** The sixth consecutive RES_ACCEL of a burst stamps its frame and restarts the counter. */
  lemma ResumeBurstOfSix(s: ResumeState, xs: seq<ResumeInput>)
    requires s.clu11Cnt == 0 && |xs| == 6 && AllSend(s, xs)
    ensures ResumeAfter(s, xs).lastResumeFrame == xs[5].frame
    ensures ResumeAfter(s, xs).clu11Cnt == 0
  {
    var p := xs[..5];
    assert AllSend(s, p) by {
      forall k | 0 <= k < 5
        ensures ResumeStep(ResumeAfter(s, p[..k]), p[k].stopped, p[k].leadDistance, p[k].frame).1
      {
        assert p[..k] == xs[..k];
      }
    }
    ResumeBurstCounts(s, p);
    assert ResumeStep(ResumeAfter(s, p), xs[5].stopped, xs[5].leadDistance, xs[5].frame).1;
  }

  /** The car's state as the controller reads it. */
  datatype CarState = CarState(vEgo: real, angleSteers: real, steerTorqueDriver: real, stopped: bool,
                               leadDistance: real, clu11Vanz: real)

  datatype Actuators = Actuators(gas: real, brake: real, steer: real)

  /** The CLU11 speed sent: 60 below 17 m/s, else the cluster's own speed. */
  function Clu11Speed(cs: CarState): real
  {
    if cs.vEgo < 17.0 then 60.0 else cs.clu11Vanz
  }

  class CarController {
    var applySteerLast: int
    var applyAccelLast: real
    var accelSteady: real
    var carFingerprint: string
    var lkas11Cnt: int
    var scc12Cnt: int
    var clu11Cnt: int
    var lastResumeFrame: int
    var lastLeadDistance: real
    var cameraDisconnected: bool

    function Resume(): ResumeState
      reads this
    {
      ResumeState(lastLeadDistance, clu11Cnt, lastResumeFrame)
    }

    constructor(carFingerprint: string)
      ensures this.carFingerprint == carFingerprint
      ensures applySteerLast == 0 && accelSteady == 0.0 && lkas11Cnt == 0 && scc12Cnt == 0
      ensures Resume() == ResumeState(0.0, 0, 0) && !cameraDisconnected
    {
      this.carFingerprint := carFingerprint;
      applySteerLast := 0;
      applyAccelLast := 0.0;
      accelSteady := 0.0;
      lkas11Cnt := 0;
      scc12Cnt := 0;
      clu11Cnt := 0;
      lastResumeFrame := 0;
      lastLeadDistance := 0.0;
      cameraDisconnected := false;
    }

    /** The actuation part of update: acceleration hysteresis and steering gating. */
    method Actuate(enabled: bool, cs: CarState, actuators: Actuators, steerMax: real, limiter: SteerLimiter)
      returns (applyAccel: real, applySteer: int, steerReq: int)
      modifies this
      ensures accelSteady == AccelHysteresis(actuators.gas - actuators.brake, old(accelSteady)).1
      ensures applyAccel == ApplyAccel(actuators.gas, actuators.brake, old(accelSteady))
      ensures AccelMin <= applyAccel <= AccelMax
      ensures applySteer == GatedSteer(limiter(actuators.steer * steerMax, old(applySteerLast), cs.steerTorqueDriver),
                                       enabled, cs.angleSteers)
      ensures steerReq == SteerReq(applySteer)
      ensures applySteerLast == applySteer && applyAccelLast == applyAccel
      ensures carFingerprint == old(carFingerprint) && lkas11Cnt == old(lkas11Cnt) && scc12Cnt == old(scc12Cnt)
      ensures Resume() == old(Resume()) && cameraDisconnected == old(cameraDisconnected)
    {
      applyAccel := actuators.gas - actuators.brake;
      var h := AccelHysteresis(applyAccel, accelSteady);
      applyAccel, accelSteady := h.0, h.1;
      applyAccel := Clip(applyAccel * AccelScale, AccelMin, AccelMax);

      applySteer := limiter(actuators.steer * steerMax, applySteerLast, cs.steerTorqueDriver);
      var lkasActive := enabled && (cs.angleSteers > 100.0 || cs.angleSteers < -100.0);
      if !lkasActive {
        applySteer := 0;
      }
      steerReq := if applySteer != 0 then 1 else 0;
      applyAccelLast := applyAccel;
      applySteerLast := applySteer;
    }

    /** The stop-and-go part of update; returns whether a RES_ACCEL is due this frame. */
    method ResumeBurst(cs: CarState, frame: nat) returns (resume: bool)
      modifies this
      ensures (Resume(), resume) == ResumeStep(old(Resume()), cs.stopped, cs.leadDistance, frame)
      ensures applySteerLast == old(applySteerLast) && applyAccelLast == old(applyAccelLast)
      ensures accelSteady == old(accelSteady) && carFingerprint == old(carFingerprint)
      ensures lkas11Cnt == old(lkas11Cnt) && scc12Cnt == old(scc12Cnt) && cameraDisconnected == old(cameraDisconnected)
    {
      resume := false;
      if cs.stopped {
        if lastLeadDistance == 0.0 {
          lastLeadDistance := cs.leadDistance;
          clu11Cnt := 0;
        } else if cs.leadDistance > lastLeadDistance && frame - lastResumeFrame > 5 {
          resume := true;
          clu11Cnt := clu11Cnt + 1;
          if clu11Cnt > 5 {
            lastResumeFrame := frame;
            clu11Cnt := 0;
          }
        }
      } else if lastLeadDistance != 0.0 {
        lastLeadDistance := 0.0;
      }
    }

    /** The camera-replacement messages, appended on their periods. */
    static method QueueFixed(cameraDisconnected: bool, frame: nat) returns (canSends: seq<Send>)
      ensures canSends == FixedSends(cameraDisconnected, frame)
    {
      canSends := [];
      if cameraDisconnected {
        if frame % 10 == 0 {
          canSends := canSends + [Fixed(HyundaiCan.CreateLkas12())];
        }
        if frame % 50 == 0 {
          canSends := canSends + [Fixed(HyundaiCan.Create1191())];
        }
        if frame % 7 == 0 {
          canSends := canSends + [Fixed(HyundaiCan.Create1156())];
        }
      }
    }

    /** The message queue of one frame, appended in the controller's order. */
    static method Queue(cameraDisconnected: bool, frame: nat, lkas11: Send, speed: real, scc12: Send,
                        pcmCancelCmd: bool, resume: bool) returns (canSends: seq<Send>)
      ensures canSends == Schedule(cameraDisconnected, frame, lkas11, speed, scc12, pcmCancelCmd, resume)
    {
      canSends := QueueFixed(cameraDisconnected, frame);
      var own := QueueOwn(frame, lkas11, speed, scc12, pcmCancelCmd, resume);
      canSends := canSends + own;
    }

    /** The controller's own messages of one frame, appended after the camera-replacement ones. */
    static method QueueOwn(frame: nat, lkas11: Send, speed: real, scc12: Send, pcmCancelCmd: bool, resume: bool)
      returns (canSends: seq<Send>)
      ensures canSends == ControlSends(frame, lkas11, speed, scc12, pcmCancelCmd, resume)
    {
      var clu11Count := frame % 16;
      canSends := [lkas11, Clu11Request(NoButton, speed, clu11Count)];
      ghost var base := canSends;
      if frame % 2 == 1 {
        canSends := canSends + [scc12];
      }
      ghost var withScc := canSends;
      assert withScc == base + (if frame % 2 == 1 then [scc12] else []);
      if pcmCancelCmd {
        canSends := canSends + [Clu11Request(Cancel, speed, clu11Count)];
      }
      ghost var withCancel := canSends;
      assert withCancel == withScc + (if pcmCancelCmd then [Clu11Request(Cancel, speed, clu11Count)] else []);
      if resume {
        canSends := canSends + [Clu11Request(ResAccel, speed, clu11Count)];
      }
      assert canSends == withCancel + (if resume then [Clu11Request(ResAccel, speed, clu11Count)] else []);
    }

    /**
     * CarController.update: one frame of commands. The queued messages are
     * Schedule's, built from this frame's commands and counters.
     */
    method Update(enabled: bool, cs: CarState, frame: nat, actuators: Actuators, pcmCancelCmd: bool,
                  visualAlert: VisualAlert, leftLine: bool, rightLine: bool, leftLaneDepart: bool,
                  rightLaneDepart: bool, genesis: set<string>, steerMax: real, limiter: SteerLimiter)
      returns (canSends: seq<Send>)
      modifies this
      ensures accelSteady == AccelHysteresis(actuators.gas - actuators.brake, old(accelSteady)).1
      ensures applyAccelLast == ApplyAccel(actuators.gas, actuators.brake, old(accelSteady))
      ensures applySteerLast ==
                GatedSteer(limiter(actuators.steer * steerMax, old(applySteerLast), cs.steerTorqueDriver),
                           enabled, cs.angleSteers)
      ensures lkas11Cnt == frame % 16
      ensures scc12Cnt == old(scc12Cnt) % 15 + (if frame % 2 == 1 then 1 else 0)
      ensures Resume() == ResumeStep(old(Resume()), cs.stopped, cs.leadDistance, frame).0
      ensures carFingerprint == old(carFingerprint) && cameraDisconnected == old(cameraDisconnected)
      ensures var hud := ProcessHudAlert(enabled, old(carFingerprint), genesis, visualAlert, leftLine, rightLine,
                                         leftLaneDepart, rightLaneDepart);
              var lkasActive := enabled && (cs.angleSteers > 100.0 || cs.angleSteers < -100.0);
              canSends == Schedule(old(cameraDisconnected), frame,
                                   Lkas11Request(applySteerLast, SteerReq(applySteerLast), frame % 16, lkasActive,
                                                 hud.hudAlert, hud.laneVisible, leftLaneDepart, rightLaneDepart,
                                                 !old(cameraDisconnected)),
                                   Clu11Speed(cs), Scc12Request(applyAccelLast, enabled, old(scc12Cnt) % 15),
                                   pcmCancelCmd, ResumeStep(old(Resume()), cs.stopped, cs.leadDistance, frame).1)
    {
      var applyAccel, applySteer, steerReq := Actuate(enabled, cs, actuators, steerMax, limiter);
      var lkasActive := enabled && (cs.angleSteers > 100.0 || cs.angleSteers < -100.0);
      var hud := ProcessHudAlert(enabled, carFingerprint, genesis, visualAlert, leftLine, rightLine,
                                 leftLaneDepart, rightLaneDepart);
      lkas11Cnt := frame % 16;
      scc12Cnt := scc12Cnt % 15;
      var lkas11 := Lkas11Request(applySteer, steerReq, lkas11Cnt, lkasActive, hud.hudAlert, hud.laneVisible,
                                  leftLaneDepart, rightLaneDepart, !cameraDisconnected);
      var scc12 := Scc12Request(applyAccel, enabled, scc12Cnt);
      var resume := ResumeBurst(cs, frame);
      canSends := Queue(cameraDisconnected, frame, lkas11, Clu11Speed(cs), scc12, pcmCancelCmd, resume);
      if frame % 2 == 1 {
        scc12Cnt := scc12Cnt + 1;
      }
    }
  }
}
