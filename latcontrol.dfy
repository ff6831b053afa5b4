/**
 * Lateral control (selfdrive/controls/lib/latcontrol.py): the disengage
 * rule, the damping of the measured steering angle, the feed-forward
 * choice, and the saturation timer that raises a flag once the PID has been
 * saturated for more than 0.7 s.
 */
module LateralControl {
  import opened Common

  /** The car parameters LatControl reads: the steer-max table and the steer control type. */
  datatype LatParams = LatParams(steerMaxBp: seq<real>, steerMaxV: seq<real>, torqueControl: bool)

  /** Below this speed (or when inactive) the lateral controller outputs nothing. */
  const MinSteerSpeed: real := 0.3

  /** The measured angle projected half a second ahead by the steering rate. */
  function ProjectedAngle(angleSteers: real, angleRate: real): real
  {
    angleSteers + 0.5 * angleRate
  }

  /** One step of the low-pass filter on the projected angle, weight 49:1. */
  function Dampen(dampened: real, projected: real): real
  {
    (49.0 * dampened + projected) / 50.0
  }

  /** The filter moves the damped angle 2% of the way toward the projected angle. */
  lemma DampenContracts(dampened: real, projected: real)
    ensures Dampen(dampened, projected) - projected == 0.98 * (dampened - projected)
    ensures Min(dampened, projected) <= Dampen(dampened, projected) <= Max(dampened, projected)
  {
  }

  /** The feed-forward: the desired angle, scaled by v² only for torque-controlled cars. */
  function Feedforward(angleSteersDes: real, vEgo: real, torqueControl: bool): real
  {
    if torqueControl then angleSteersDes * (vEgo * vEgo) else angleSteersDes
  }

  /**
   * An angle-controlled car feeds the desired angle forward unchanged; a
   * torque-controlled one scales it by v², which never turns it around.
   */
  lemma FeedforwardScales(angleSteersDes: real, vEgo: real, torqueControl: bool)
    ensures !torqueControl ==> Feedforward(angleSteersDes, vEgo, torqueControl) == angleSteersDes
    ensures Feedforward(angleSteersDes, vEgo, torqueControl) * angleSteersDes >= 0.0
  {
    if torqueControl {
      SquareNonNegative(vEgo);
      ScaledBySquare(angleSteersDes, vEgo * vEgo);
    }
  }

  lemma SquareNonNegative(x: real)
    ensures x * x >= 0.0
  {
    if x < 0.0 {
      assert x * x == (-x) * (-x);
    }
  }

  lemma ScaledBySquare(a: real, k: real)
    requires k >= 0.0
    ensures (a * k) * a >= 0.0
  {
    assert (a * k) * a == k * (a * a);
    SquareNonNegative(a);
  }

  /**
   * The saturation timer and flag after one cycle: (sat_time, sat_flag).
   * The cycle reads the clock twice: stampTime when it starts the timer,
   * checkTime when it tests the elapsed time.
   */
  function SatStep(satTime: real, saturated: bool, stampTime: real, checkTime: real): (real, bool)
  {
    var t := if saturated && satTime < 0.5 then stampTime else satTime;
    if t > 0.5 then (if saturated then t else 0.0, checkTime - t > 0.7) else (t, false)
  }

  /**
   * The flag needs a timer older than 0.7 s at the check reading: either one
   * already running, or one this cycle started at a stamp reading more than
   * 0.7 s before the check reading. A saturated PID starts an idle timer at
   * the stamp reading, and a cycle that finds the PID unsaturated clears a
   * running timer.
   */
  lemma SatStepRules(satTime: real, saturated: bool, stampTime: real, checkTime: real)
    ensures SatStep(satTime, saturated, stampTime, checkTime).1 ==>
              (satTime > 0.5 && checkTime - satTime > 0.7) ||
              (saturated && satTime < 0.5 && stampTime > 0.5 && checkTime - stampTime > 0.7)
    ensures !saturated && satTime > 0.5 ==> SatStep(satTime, saturated, stampTime, checkTime).0 == 0.0
    ensures saturated && satTime < 0.5 ==> SatStep(satTime, saturated, stampTime, checkTime).0 == stampTime
    ensures checkTime - stampTime <= 0.7 ==> !SatStep(0.0, saturated, stampTime, checkTime).1
    ensures saturated && stampTime > 0.5 && checkTime - stampTime > 0.7 ==> SatStep(0.0, saturated, stampTime, checkTime).1
  {
  }

  /** One cycle's view of the saturation logic: the PID's saturation and the two clock readings. */
  datatype SatSample = SatSample(saturated: bool, stampTime: real, checkTime: real)

  /** sat_time after a sequence of cycles, starting from the initial 0. */
  function SatTimeAfter(samples: seq<SatSample>): real
  {
    if samples == [] then 0.0
    else
      var last := samples[|samples| - 1];
      SatStep(SatTimeAfter(samples[..|samples| - 1]), last.saturated, last.stampTime, last.checkTime).0
  }

  /** A running timer holds the stamp reading of some earlier cycle, and the PID has been saturated on every cycle since. */
  lemma {:induction false} SatTimerWitness(samples: seq<SatSample>)
    requires SatTimeAfter(samples) > 0.5
    ensures exists i :: 0 <= i < |samples| && SatTimeAfter(samples) == samples[i].stampTime &&
                        forall m :: i <= m < |samples| ==> samples[m].saturated
  {
    var n := |samples|;
    var p := samples[..n - 1];
    var last := samples[n - 1];
    var s := SatTimeAfter(p);
    if last.saturated && s < 0.5 {
      assert SatTimeAfter(samples) == samples[n - 1].stampTime;
    } else {
      assert s > 0.5 && last.saturated;
      SatTimerWitness(p);
      var i :| 0 <= i < |p| && s == p[i].stampTime && forall m :: i <= m < |p| ==> p[m].saturated;
      assert samples[i] == p[i];
      assert forall m :: i <= m < n ==> samples[m].saturated by {
        forall m | i <= m < n
          ensures samples[m].saturated
        {
          if m < n - 1 {
            assert samples[m] == p[m];
          }
        }
      }
    }
  }

  /**
   * The flag is raised on a cycle only if the PID was saturated on every
   * cycle from one whose stamp reading lies more than 0.7 s before this
   * cycle's check reading, or if this cycle starts the timer and more than
   * 0.7 s passes between its own two readings.
   */
  lemma SatFlagNeedsSustainedSaturation(samples: seq<SatSample>, j: int)
    requires 0 <= j < |samples|
    requires SatStep(SatTimeAfter(samples[..j]), samples[j].saturated, samples[j].stampTime, samples[j].checkTime).1
    ensures (exists i :: 0 <= i < j && samples[j].checkTime - samples[i].stampTime > 0.7 &&
                         forall m :: i <= m < j ==> samples[m].saturated) ||
            (samples[j].saturated && samples[j].checkTime - samples[j].stampTime > 0.7)
  {
    var p := samples[..j];
    SatStepRules(SatTimeAfter(p), samples[j].saturated, samples[j].stampTime, samples[j].checkTime);
    if SatTimeAfter(p) <= 0.5 {
      return;
    }
    SatTimerWitness(p);
    var i :| 0 <= i < |p| && SatTimeAfter(p) == p[i].stampTime && forall m :: i <= m < |p| ==> p[m].saturated;
    assert p[i] == samples[i];
    assert forall m :: i <= m < j ==> samples[m].saturated by {
      forall m | i <= m < j
        ensures samples[m].saturated
      {
        assert samples[m] == p[m];
      }
    }
  }

  class LatControl {
    var pid: PidState
    var dampenedAngleSteers: real
    var angleSteersDes: real
    var satTime: real
    var satFlag: bool

    /** pid0 is the PIController built from the car's gains, with positive limit 1.0. */
    constructor (pid0: PidState)
      ensures pid == pid0 && dampenedAngleSteers == 0.0 && angleSteersDes == 0.0
      ensures satTime == 0.0 && !satFlag
    {
      pid := pid0;
      dampenedAngleSteers := 0.0;
      angleSteersDes := 0.0;
      satTime := 0.0;
      satFlag := false;
    }

    method Reset()
      modifies this
      ensures pid == PidReset(old(pid))
      ensures dampenedAngleSteers == old(dampenedAngleSteers) && angleSteersDes == old(angleSteersDes)
      ensures satTime == old(satTime) && satFlag == old(satFlag)
    {
      pid := PidReset(pid);
    }

    /**
     * LatControl.update with its three clock readings: desTime for the
     * desired-angle lookup, stampTime and checkTime for the saturation timer.
     * Returns the steering output and the desired angle.
     */
    method Update(active: bool, vEgo: real, angleSteers: real, angleRate: real, steerOverride: bool,
                  cp: LatParams, mpcTimes: seq<real>, mpcAngles: seq<real>,
                  desTime: real, stampTime: real, checkTime: real,
                  interp: Interp, pidUpdate: PidUpdate)
      returns (outputSteer: real, angleDes: real)
      modifies this
      ensures vEgo < MinSteerSpeed || !active ==>
                outputSteer == 0.0 && pid == PidReset(old(pid)) &&
                angleSteersDes == old(angleSteersDes) && dampenedAngleSteers == old(dampenedAngleSteers)
      ensures !(vEgo < MinSteerSpeed || !active) ==>
                var steersMax := interp(vEgo, cp.steerMaxBp, cp.steerMaxV);
                var step := pidUpdate(old(pid).(posLimit := steersMax, negLimit := -steersMax),
                                      PidArgs(angleSteersDes, dampenedAngleSteers, vEgo, 0.0,
                                              Feedforward(angleSteersDes, vEgo, cp.torqueControl),
                                              None, Some(vEgo > 10.0), Some(steerOverride)));
                angleSteersDes == interp(desTime, mpcTimes, mpcAngles) &&
                dampenedAngleSteers == Dampen(old(dampenedAngleSteers), ProjectedAngle(angleSteers, angleRate)) &&
                pid == step.pid && outputSteer == step.output
      ensures (satTime, satFlag) == SatStep(old(satTime), pid.saturated, stampTime, checkTime)
      ensures angleDes == angleSteersDes
    {
      if vEgo < MinSteerSpeed || !active {
        outputSteer := 0.0;
        pid := PidReset(pid);
      } else {
        angleSteersDes := interp(desTime, mpcTimes, mpcAngles);
        var projectedAngleSteers := angleSteers + 0.5 * angleRate;
        dampenedAngleSteers := (49.0 * dampenedAngleSteers + projectedAngleSteers) / 50.0;
        var steersMax := interp(vEgo, cp.steerMaxBp, cp.steerMaxV);
        pid := pid.(posLimit := steersMax, negLimit := -steersMax);
        var steerFeedforward := angleSteersDes;
        if cp.torqueControl {
          steerFeedforward := steerFeedforward * (vEgo * vEgo);
        }
        var deadzone := 0.0;
        var step := pidUpdate(pid, PidArgs(angleSteersDes, dampenedAngleSteers, vEgo, deadzone, steerFeedforward,
                                           None, Some(vEgo > 10.0), Some(steerOverride)));
        assert steerFeedforward == Feedforward(angleSteersDes, vEgo, cp.torqueControl);
        pid := step.pid;
        outputSteer := step.output;
      }

      satFlag := false;
      if pid.saturated && satTime < 0.5 {
        satTime := stampTime;
      }
      if satTime > 0.5 {
        if checkTime - satTime > 0.7 {
          satFlag := true;
        }
        if !pid.saturated {
          satTime := 0.0;
        }
      }
      angleDes := angleSteersDes;
    }
  }
}
