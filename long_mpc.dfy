/**
 * The per-lead wrapper around the longitudinal MPC
 * (selfdrive/controls/lib/long_mpc.py): which lead the solver follows (a
 * phantom, the radar lead, or a fake fast lead far ahead), the bounded
 * histories of lead speeds, the following-distance (TR) and cost shaping,
 * the frame-rate estimate, and the reset that discards a solution that is
 * NaN, runs backwards or drives through the lead.
 *
 * The solver itself (libmpc: init, init_with_simulation, change_tr,
 * run_mpc) is not part of this model: its solution is a parameter of
 * Update, and its calls are not modelled. time.time() becomes `now`,
 * numpy_fast.interp and `**` are parameters.
 */
module LongitudinalMpcModel {
  import opened Common

  /** The radar lead the planner passes in; the planner always passes one (radarState.leadOne or leadTwo). */
  datatype Lead = Lead(status: bool, dRel: real, vLead: real, aLeadK: real, aLeadTau: real)

  /** The car-state fields the wrapper reads. */
  datatype CarStateIn = CarStateIn(vEgo: real, aEgo: real, leftBlinker: bool, rightBlinker: bool)

  /** The solver's current state, cur_state[0]. */
  datatype MpcState = MpcState(vEgo: real, aEgo: real, xEgo: real, xL: real, vL: real)

  /**
   * The parts of mpc_solution[0] the wrapper reads. Reals have no NaN, so
   * whether any predicted speed is NaN is a field.
   */
  datatype MpcSolution = MpcSolution(xEgo: seq<real>, vEgo: seq<real>, aEgo: seq<real>, xL: seq<real>, hasNan: bool)

  /** car_data: the recent lead speeds and the once-a-second traffic samples. */
  datatype CarData = CarData(leadVels: seq<real>, trafficVels: seq<real>)

  /** x ** y, a parameter. */
  type Power = (real, real) -> real

  /** The longest traffic history kept before a new sample (three minutes at one sample a second). */
  const TrafficHistory: int := 180
  /** The phantom's following distance cap, 30 feet. */
  const PhantomDistance: real := 9.144
  /** The speed above which the blinker shortens the following distance (20 mph). */
  const BlinkerSpeed: real := 8.9408

  // ---------------------------------------------------------------- calc_rate

  /**
   * calc_rate(seconds): frames per `seconds` estimated from the time since
   * the last timed frame, 40.42 per second before any frame was timed,
   * capped at seconds * 100, at least 10, rounded.
   */
  function CalcRate(lastTime: Option<real>, now: real, seconds: real): (r: int)
    ensures r >= 10
    ensures r as real <= Max(seconds * 100.0, 10.0) + 0.5
  {
    var rate :=
      if lastTime.None? || now - lastTime.value <= 0.0 then Round(40.42 * seconds) as real
      else (1.0 / (now - lastTime.value)) * seconds;
    Round(Max(Min(rate, seconds * 100.0), 10.0))
  }

  /** Before any frame is timed the rates are fixed: 40 a second, 81 in two seconds, 121 in three. */
  lemma CalcRateUntimed(now: real)
    ensures CalcRate(None, now, 1.0) == 40
    ensures CalcRate(None, now, 2.0) == 81
    ensures CalcRate(None, now, 3.0) == 121
  {
    assert (40.42).Floor == 40;
    assert (80.84).Floor == 80;
    assert (121.26).Floor == 121;
  }

  // ---------------------------------------------------------------- car data

  /** What `while len(xs) > n: del xs[0]` leaves: the last n entries, or the whole list when it is short. */
  function KeepLast(xs: seq<real>, n: nat): (r: seq<real>)
    ensures |r| <= n && |r| <= |xs| && r == xs[|xs| - |r|..]
    ensures |xs| <= n ==> r == xs
    ensures |xs| > n ==> |r| == n
  {
    if |xs| > n then xs[|xs| - n..] else xs
  }

  /** A history trimmed to n and then extended by one never holds more than n + 1 entries. */
  lemma HistoryBounded(xs: seq<real>, n: nat, v: real)
    ensures |KeepLast(xs, n) + [v]| <= n + 1
    ensures (KeepLast(xs, n) + [v])[|KeepLast(xs, n)|] == v
  {
  }

  // ---------------------------------------------------------------- traffic level

  /** The absolute differences of consecutive entries. */
  function AbsDiffs(s: seq<real>): (r: seq<real>)
    ensures |s| >= 1 ==> |r| == |s| - 1
    ensures |s| == 0 ==> r == []
    ensures forall i :: 0 <= i < |r| ==> r[i] == Abs(s[i + 1] - s[i]) && r[i] >= 0.0
  {
    if |s| <= 1 then [] else AbsDiffs(s[..|s| - 1]) + [Abs(s[|s| - 1] - s[|s| - 2])]
  }

  function SumReals(s: seq<real>): real
  {
    if s == [] then 0.0 else SumReals(s[..|s| - 1]) + s[|s| - 1]
  }

  /**
   * get_traffic_level: 1.0 with fewer than 20 samples; otherwise a factor
   * from the mean absolute change of the lead speed, reduced above 45 mph,
   * and never below 1.0.
   */
  function TrafficLevel(trafficVels: seq<real>, vEgo: real, interp: Interp): (r: real)
    ensures r >= 1.0
    ensures |trafficVels| < 20 ==> r == 1.0
  {
    if |trafficVels| < 20 then 1.0
    else
      var diffs := AbsDiffs(trafficVels);
      var trafficMod := interp(SumReals(diffs) / |diffs| as real,
                               [0.0, 0.21, 0.466, 0.722, 0.856, 0.96, 1.0],
                               [1.2, 1.19, 1.17, 1.13, 1.09, 1.04, 1.0]);
      Max(trafficMod - interp(vEgo, [20.1168, 24.5872], [0.2, 0.0]), 1.0)
  }

  // ---------------------------------------------------------------- following distance

  const FollowSpeedBp: seq<real> := [0.0, 5.222, 11.164, 14.937, 20.973, 33.975, 42.469]
  const FollowTr: seq<real> := [1.542, 1.553, 1.599, 1.68, 1.75, 1.855, 1.9]

  /** The following distance in seconds before the floor and the rounding of smooth_follow. */
  function RawFollowTr(vEgo: real, vLead: Option<real>, interp: Interp): real
  {
    var tr :=
      if vEgo > 6.7056 then interp(vEgo, FollowSpeedBp, FollowTr)
      else interp(vEgo, [4.4704, 6.7056], [1.8, interp(6.7056, FollowSpeedBp, FollowTr)]);
    if vLead.Some? then
      tr + interp(vLead.value - vEgo, [2.68, 2.1, 1.26, 0.61, 0.0, 0.61, 1.26, 2.1, 2.68],
                  [0.272, 0.154, 0.053, 0.017, 0.0, -0.017, -0.053, -0.154, -0.272])
    else tr
  }

  /**
   * smooth_follow: the raw following distance floored at 0.9 s and rounded
   * to milliseconds: never below 0.9, and within half a millisecond of the
   * raw value when that is above the floor.
   */
  function SmoothFollow(vEgo: real, vLead: Option<real>, interp: Interp): (r: real)
    ensures r >= 0.9
    ensures var raw := RawFollowTr(vEgo, vLead, interp);
            (raw < 0.9 ==> r == 0.9) && (raw >= 0.9 ==> raw - 0.0005 <= r <= raw + 0.0005)
  {
    var tr := RawFollowTr(vEgo, vLead, interp);
    if tr < 0.9 then 0.9
    else
      RoundToWithin(tr, 1000.0, 900, (tr * 1000.0).Floor + 1);
      RoundToClose(tr, 1000.0);
      RoundTo(tr, 1000.0)
  }

  /** The divisor get_cost applies with a lead at speed: min(1, max(2, x)), which is always 1. */
  function CostFactor(vLead: real, vEgo: real): (r: real)
    ensures r == 1.0
  {
    Min(1.0, Max(2.0, (vLead - vEgo) / 2.0 + 1.5))
  }

  /**
   * get_cost: the distance cost for a following distance, switching to the
   * real gap in seconds when it differs from TR by a quarter second or more;
   * with a lead and above 5 m/s the cost is capped at 0.1.
   */
  function GetCost(tr: real, xLead: Option<real>, vLead: Option<real>, vEgo: real, interp: Interp): (r: real)
    ensures vLead.Some? && vEgo > 5.0 ==> r <= 0.1
  {
    var realTr := if xLead.Some? && vEgo != 0.0 then xLead.value / vEgo else tr;
    var tr' := if xLead.Some? && vEgo != 0.0 && Abs(realTr - tr) >= 0.25 then realTr else tr;
    var cost := RoundTo(interp(tr', [0.9, 1.8, 2.7], [4.5, 2.8, 1.3]), 1000.0);
    if vLead.Some? && vEgo > 5.0 then Min(cost / CostFactor(vLead.value, vEgo), 0.1)
    else cost
  }

  // ---------------------------------------------------------------- lead selection

  /**
   * process_phantom: follow the phantom at most 30 feet ahead and no faster
   * than the phantom's speed; without an active radar lead, exactly there
   * and at exactly that speed.
   */
  function ProcessPhantom(lead: Lead, phantomSpeed: real): (r: (real, real))
    ensures lead.status ==> r.0 <= PhantomDistance && r.1 <= phantomSpeed
    ensures lead.status && phantomSpeed >= 0.0 ==> r.1 >= 0.0
    ensures !lead.status ==> r == (PhantomDistance, phantomSpeed)
  {
    if lead.status then
      var v := Max(0.0, lead.vLead);
      var v := if v < 0.1 || -lead.aLeadK / 2.0 > v then 0.0 else v;
      (Min(PhantomDistance, lead.dRel), Min(phantomSpeed, v))
    else (PhantomDistance, phantomSpeed)
  }

  predicate PhantomOn(phantom: map<string, PhantomValue>)
    requires PhantomDataValid(phantom)
  {
    phantom["status"].b
  }

  /**
   * The lead the solver follows while phantom mode is on: the phantom
   * itself when it moves; otherwise a stop 1.5 m ahead when the data says
   * the connection is lost, else a smooth stop 3.75 m ahead.
   */
  function PhantomTarget(phantom: map<string, PhantomValue>, lead: Lead, vEgo: real, pow: Power): (r: (real, real))
    requires PhantomDataValid(phantom)
    ensures r.0 <= PhantomDistance
  {
    if phantom["speed"].x != 0.0 then ProcessPhantom(lead, phantom["speed"].x)
    else if "lost_connection" in phantom then (1.5, 0.0)
    else (3.75, Max(vEgo - 0.7 / Max(pow(Max(vEgo, 0.0), 0.4), 0.01), 0.0))
  }

  /**
   * Neither phantom receiver ever stores a "lost_connection" key, so the
   * quick-stop branch is never taken: a standing phantom always means the
   * smooth stop.
   */
  lemma LostConnectionBranchUnreachable(phantom: map<string, PhantomValue>, lead: Lead, vEgo: real, pow: Power)
    requires PhantomDataValid(phantom)
    requires phantom["speed"].x == 0.0
    ensures PhantomTarget(phantom, lead, vEgo, pow).0 == 3.75
    ensures PhantomTarget(phantom, lead, vEgo, pow).1 >= 0.0
  {
    assert "lost_connection" !in PhantomKeys;
  }

  /**
   * The radar lead as the solver sees it: a lead slower than 0.1 m/s, or
   * braking hard enough to stop within two seconds, stands still with no
   * acceleration; otherwise its speed and acceleration pass through.
   */
  function RadarLead(lead: Lead): (r: (real, real, real))
    ensures r.0 == lead.dRel && r.1 >= 0.0
    ensures r.1 == 0.0 ==> r.2 == 0.0
    ensures r.1 != 0.0 ==> r.1 == lead.vLead >= 0.1 && r.2 == lead.aLeadK && -lead.aLeadK / 2.0 <= r.1
  {
    var v := Max(0.0, lead.vLead);
    if v < 0.1 || -lead.aLeadK / 2.0 > v then (lead.dRel, 0.0, 0.0)
    else (lead.dRel, v, lead.aLeadK)
  }

  /** A lead counts as new when none was followed or it jumped by more than 2.5 m. */
  predicate IsNewLead(prevLeadStatus: bool, prevLeadX: real, xLead: real)
  {
    !prevLeadStatus || Abs(xLead - prevLeadX) > 2.5
  }

  // ---------------------------------------------------------------- sanity reset

  predicate Crashing(sol: MpcSolution)
  {
    exists i :: 0 <= i < |sol.xL| && i < |sol.xEgo| && sol.xL[i] - sol.xEgo[i] < -50.0
  }

  predicate Backwards(sol: MpcSolution)
  {
    exists i :: 0 <= i < |sol.vEgo| && sol.vEgo[i] < -0.01
  }

  /** A solution is discarded when it is NaN, or runs backwards or through the lead while one is followed. */
  predicate NeedsReset(sol: MpcSolution, prevLeadStatus: bool)
  {
    ((Backwards(sol) || Crashing(sol)) && prevLeadStatus) || sol.hasNan
  }

  /** Without a lead only NaN triggers the reset; a clean solution never does. */
  lemma ResetCauses(sol: MpcSolution, prevLeadStatus: bool)
    ensures !prevLeadStatus ==> (NeedsReset(sol, prevLeadStatus) <==> sol.hasNan)
    ensures (forall i :: 0 <= i < |sol.vEgo| ==> sol.vEgo[i] >= 0.0) &&
            (forall i :: 0 <= i < |sol.xL| && i < |sol.xEgo| ==> sol.xL[i] >= sol.xEgo[i]) && !sol.hasNan
            ==> !NeedsReset(sol, prevLeadStatus)
  {
  }

  // ---------------------------------------------------------------- the wrapper

  /** Every field of the wrapper that changes while it runs. */
  datatype MpcMemory = MpcMemory(
    vMpc: real, vMpcFuture: real, aMpc: real,
    prevLeadStatus: bool, prevLeadX: real, newLead: bool,
    vEgo: real, blinkers: bool, lastCost: real,
    carData: CarData, mpcFrame: int, lastTime: Option<real>,
    vLead: Option<real>, xLead: Option<real>, aLeadTau: real, curState: MpcState)

  /** save_car_data on the wrapper's state. */
  function SaveCarDataStep(m: MpcMemory, now: real): MpcMemory
  {
    if m.vLead.Some? then
      var leadVels := KeepLast(m.carData.leadVels, CalcRate(m.lastTime, now, 3.0)) + [m.vLead.value];
      if m.mpcFrame >= CalcRate(m.lastTime, now, 1.0) then
        m.(carData := CarData(leadVels, KeepLast(m.carData.trafficVels, TrafficHistory) + [m.vLead.value]),
           mpcFrame := 1)
      else m.(carData := m.carData.(leadVels := leadVels), mpcFrame := m.mpcFrame + 1)
    else m.(carData := m.carData.(leadVels := []))
  }

  /** get_TR on the wrapper's state: the new state and the following distance. */
  function TrStep(m: MpcMemory, now: real, interp: Interp): (MpcMemory, real)
  {
    if m.blinkers && m.vEgo > BlinkerSpeed then (m.(lastCost := 1.0), 0.9)
    else
      var m' := SaveCarDataStep(m, now);
      var tr := SmoothFollow(m.vEgo, m.vLead, interp);
      (m'.(lastCost := GetCost(tr, m.xLead, m.vLead, m.vEgo, interp)), tr)
  }

  /** The lead set-up on the wrapper's state: the new state and the lead acceleration for the solver. */
  function LeadStep(m: MpcMemory, lead: Lead, phantom: map<string, PhantomValue>, pow: Power, leadAccelTau: real): (MpcMemory, real)
    requires PhantomDataValid(phantom)
  {
    if PhantomOn(phantom) then
      var t := PhantomTarget(phantom, lead, m.vEgo, pow);
      (m.(prevLeadStatus := true, prevLeadX := t.0, newLead := IsNewLead(m.prevLeadStatus, m.prevLeadX, t.0),
          aLeadTau := lead.aLeadTau, curState := m.curState.(xL := t.0, vL := t.1)), 0.0)
    else if lead.status then
      var t := RadarLead(lead);
      (m.(prevLeadStatus := true, prevLeadX := t.0, newLead := IsNewLead(m.prevLeadStatus, m.prevLeadX, t.0),
          vLead := Some(t.1), xLead := Some(t.0),
          aLeadTau := lead.aLeadTau, curState := m.curState.(xL := t.0, vL := t.1)), t.2)
    else
      (m.(prevLeadStatus := false, vLead := None, xLead := None, aLeadTau := leadAccelTau,
          curState := m.curState.(xL := 50.0, vL := m.vEgo + 10.0)), 0.0)
  }

  /** Taking the solver's answer on the wrapper's state, with the sanity reset. */
  function SolutionStep(m: MpcMemory, sol: MpcSolution, cs: CarStateIn): MpcMemory
    requires |sol.vEgo| > 10 && |sol.aEgo| > 1
  {
    if NeedsReset(sol, m.prevLeadStatus) then
      m.(vMpc := cs.vEgo, aMpc := cs.aEgo, vMpcFuture := sol.vEgo[10], prevLeadStatus := false,
         curState := m.curState.(vEgo := cs.vEgo, aEgo := 0.0))
    else m.(vMpc := sol.vEgo[1], aMpc := sol.aEgo[1], vMpcFuture := sol.vEgo[10])
  }

  /**
   * One call of LongitudinalMpc.update: record the car state, set up the
   * lead, choose the following distance, take the solution. Returns the new
   * state, the lead acceleration and TR.
   */
  function MpcStep(m: MpcMemory, cs: CarStateIn, lead: Lead, phantom: map<string, PhantomValue>, now: real,
                   interp: Interp, pow: Power, sol: MpcSolution, leadAccelTau: real): (MpcMemory, real, real)
    requires PhantomDataValid(phantom)
    requires |sol.vEgo| > 10 && |sol.aEgo| > 1
  {
    var m1 := m.(vEgo := cs.vEgo, blinkers := cs.leftBlinker || cs.rightBlinker, curState := m.curState.(xEgo := 0.0));
    var (m2, aLead) := LeadStep(m1, lead, phantom, pow, leadAccelTau);
    var (m3, tr) := TrStep(m2, now, interp);
    (SolutionStep(m3, sol, cs), aLead, tr)
  }

  /**
   * Where one update places the lead: the radar lead where RadarLead puts
   * it and remembered, the phantom at most 30 feet ahead with the radar
   * lead left alone, and without either a fake lead 50 m ahead and 10 m/s
   * faster; a followed lead is remembered as the previous lead.
   */
  lemma MpcStepLead(m: MpcMemory, cs: CarStateIn, lead: Lead, phantom: map<string, PhantomValue>, now: real,
                    interp: Interp, pow: Power, sol: MpcSolution, leadAccelTau: real)
    requires PhantomDataValid(phantom)
    requires |sol.vEgo| > 10 && |sol.aEgo| > 1
    ensures var r := MpcStep(m, cs, lead, phantom, now, interp, pow, sol, leadAccelTau);
            var m' := r.0;
            var tracking := PhantomOn(phantom) || lead.status;
            && m'.vEgo == cs.vEgo && m'.curState.xEgo == 0.0
            && (tracking ==> m'.prevLeadX == m'.curState.xL && m'.aLeadTau == lead.aLeadTau &&
                              m'.newLead == IsNewLead(m.prevLeadStatus, m.prevLeadX, m'.curState.xL))
            && (!PhantomOn(phantom) && lead.status ==>
                  (m'.curState.xL, m'.curState.vL, r.1) == RadarLead(lead) &&
                  m'.vLead == Some(RadarLead(lead).1) && m'.xLead == Some(lead.dRel))
            && (PhantomOn(phantom) ==>
                  r.1 == 0.0 && m'.curState.xL <= PhantomDistance && m'.vLead == m.vLead && m'.xLead == m.xLead)
            && (!tracking ==>
                  m'.curState.xL == 50.0 && m'.curState.vL == cs.vEgo + 10.0 && m'.vLead == None && m'.xLead == None &&
                  r.1 == 0.0 && m'.aLeadTau == leadAccelTau)
  {
    var m1 := m.(vEgo := cs.vEgo, blinkers := cs.leftBlinker || cs.rightBlinker, curState := m.curState.(xEgo := 0.0));
    var (m2, aLead) := LeadStep(m1, lead, phantom, pow, leadAccelTau);
    var (m3, tr) := TrStep(m2, now, interp);
    var m' := SolutionStep(m3, sol, cs);
    assert MpcStep(m, cs, lead, phantom, now, interp, pow, sol, leadAccelTau) == (m', aLead, tr);
    TrStepKeepsLead(m2, now, interp);
    assert m'.curState.xL == m2.curState.xL && m'.curState.vL == m2.curState.vL;
  }

  /** get_TR touches only the car data, the frame counter and the cost. */
  lemma TrStepKeepsLead(m: MpcMemory, now: real, interp: Interp)
    ensures var m' := TrStep(m, now, interp).0;
            m' == m.(carData := m'.carData, mpcFrame := m'.mpcFrame, lastCost := m'.lastCost)
  {
  }

  /** A standing phantom always means the smooth stop 3.75 m ahead. */
  lemma MpcStepStandingPhantom(m: MpcMemory, cs: CarStateIn, lead: Lead, phantom: map<string, PhantomValue>, now: real,
                               interp: Interp, pow: Power, sol: MpcSolution, leadAccelTau: real)
    requires PhantomDataValid(phantom)
    requires |sol.vEgo| > 10 && |sol.aEgo| > 1
    requires PhantomOn(phantom) && phantom["speed"].x == 0.0
    ensures var m' := MpcStep(m, cs, lead, phantom, now, interp, pow, sol, leadAccelTau).0;
            m'.curState.xL == 3.75 && m'.curState.vL >= 0.0
  {
    LostConnectionBranchUnreachable(phantom, lead, cs.vEgo, pow);
  }

  /**
   * The following distance of one update: at least 0.9 s; signalling above
   * 20 mph it is 0.9 s with cost 1.0 and the car data and frame counter are
   * left alone; the traffic history stays within its bound.
   */
  lemma MpcStepDistance(m: MpcMemory, cs: CarStateIn, lead: Lead, phantom: map<string, PhantomValue>, now: real,
                        interp: Interp, pow: Power, sol: MpcSolution, leadAccelTau: real)
    requires PhantomDataValid(phantom)
    requires |sol.vEgo| > 10 && |sol.aEgo| > 1
    ensures var r := MpcStep(m, cs, lead, phantom, now, interp, pow, sol, leadAccelTau);
            && r.2 >= 0.9
            && ((cs.leftBlinker || cs.rightBlinker) && cs.vEgo > BlinkerSpeed ==>
                  r.2 == 0.9 && r.0.lastCost == 1.0 && r.0.carData == m.carData && r.0.mpcFrame == m.mpcFrame)
            && (|m.carData.trafficVels| <= TrafficHistory + 1 ==> |r.0.carData.trafficVels| <= TrafficHistory + 1)
            && r.0.lastTime == m.lastTime
  {
  }

  /**
   * The solution of one update: the lead is still followed afterwards iff
   * one was set up and the solution survived the reset; a reset solution
   * falls back to the car's own speed and acceleration.
   */
  lemma MpcStepSolution(m: MpcMemory, cs: CarStateIn, lead: Lead, phantom: map<string, PhantomValue>, now: real,
                        interp: Interp, pow: Power, sol: MpcSolution, leadAccelTau: real)
    requires PhantomDataValid(phantom)
    requires |sol.vEgo| > 10 && |sol.aEgo| > 1
    ensures var m' := MpcStep(m, cs, lead, phantom, now, interp, pow, sol, leadAccelTau).0;
            var tracking := PhantomOn(phantom) || lead.status;
            && m'.prevLeadStatus == (tracking && !NeedsReset(sol, tracking))
            && (NeedsReset(sol, tracking) ==>
                  m'.vMpc == cs.vEgo && m'.aMpc == cs.aEgo && m'.curState.vEgo == cs.vEgo && m'.curState.aEgo == 0.0)
            && (!NeedsReset(sol, tracking) ==> m'.vMpc == sol.vEgo[1] && m'.aMpc == sol.aEgo[1])
            && m'.vMpcFuture == sol.vEgo[10]
  {
  }

  /** MpcStep is the four stages of update run in order. */
  lemma MpcStepStages(m0: MpcMemory, m1: MpcMemory, m2: MpcMemory, m3: MpcMemory, m4: MpcMemory,
                      cs: CarStateIn, lead: Lead, phantom: map<string, PhantomValue>, now: real,
                      interp: Interp, pow: Power, sol: MpcSolution, leadAccelTau: real, aLead: real, tr: real)
    requires PhantomDataValid(phantom)
    requires |sol.vEgo| > 10 && |sol.aEgo| > 1
    requires m1 == m0.(vEgo := cs.vEgo, blinkers := cs.leftBlinker || cs.rightBlinker, curState := m0.curState.(xEgo := 0.0))
    requires (m2, aLead) == LeadStep(m1, lead, phantom, pow, leadAccelTau)
    requires (m3, tr) == TrStep(m2, now, interp)
    requires m4 == SolutionStep(m3, sol, cs)
    ensures (m4, aLead, tr) == MpcStep(m0, cs, lead, phantom, now, interp, pow, sol, leadAccelTau)
  {
  }

  /** The rules of MpcStep, read off a state that one update produced. */
  lemma UpdateFacts(m0: MpcMemory, m: MpcMemory, cs: CarStateIn, lead: Lead, phantom: map<string, PhantomValue>, now: real,
                    interp: Interp, pow: Power, sol: MpcSolution, leadAccelTau: real, aLead: real, tr: real)
    requires PhantomDataValid(phantom)
    requires |sol.vEgo| > 10 && |sol.aEgo| > 1
    requires (m, aLead, tr) == MpcStep(m0, cs, lead, phantom, now, interp, pow, sol, leadAccelTau)
    ensures m.vEgo == cs.vEgo && m.blinkers == (cs.leftBlinker || cs.rightBlinker)
    ensures tr >= 0.9 && m.curState.xEgo == 0.0
    ensures |m0.carData.trafficVels| <= TrafficHistory + 1 ==> |m.carData.trafficVels| <= TrafficHistory + 1
    ensures var tracking := PhantomOn(phantom) || lead.status;
            m.prevLeadStatus == (tracking && !NeedsReset(sol, tracking))
    ensures !PhantomOn(phantom) && !lead.status ==>
              m.curState.xL == 50.0 && m.curState.vL == cs.vEgo + 10.0 && m.vLead == None && m.xLead == None && aLead == 0.0
    ensures PhantomOn(phantom) ==> m.curState.xL <= PhantomDistance && aLead == 0.0
    ensures NeedsReset(sol, PhantomOn(phantom) || lead.status) ==>
              m.vMpc == cs.vEgo && m.aMpc == cs.aEgo && m.curState.vEgo == cs.vEgo && m.curState.aEgo == 0.0
    ensures !NeedsReset(sol, PhantomOn(phantom) || lead.status) ==> m.vMpc == sol.vEgo[1] && m.aMpc == sol.aEgo[1]
    ensures m.vMpcFuture == sol.vEgo[10]
  {
    MpcStepLead(m0, cs, lead, phantom, now, interp, pow, sol, leadAccelTau);
    MpcStepDistance(m0, cs, lead, phantom, now, interp, pow, sol, leadAccelTau);
    MpcStepSolution(m0, cs, lead, phantom, now, interp, pow, sol, leadAccelTau);
  }

  class LongitudinalMpc {
    const mpcId: int
    /** radar_helpers._LEAD_ACCEL_TAU, the lead acceleration time constant without a lead. */
    const leadAccelTau: real
    var vMpc: real
    var vMpcFuture: real
    var aMpc: real
    var prevLeadStatus: bool
    var prevLeadX: real
    var newLead: bool
    var vEgo: real
    /** Whether a blinker was on in the last car state. */
    var blinkers: bool
    var lastCost: real
    var carData: CarData
    var mpcFrame: int
    var lastTime: Option<real>
    var vLead: Option<real>
    var xLead: Option<real>
    var aLeadTau: real
    var curState: MpcState

    function State(): MpcMemory
      reads this
    {
      MpcMemory(vMpc, vMpcFuture, aMpc, prevLeadStatus, prevLeadX, newLead, vEgo, blinkers, lastCost,
                carData, mpcFrame, lastTime, vLead, xLead, aLeadTau, curState)
    }

    /** The traffic history stays within its bound. */
    predicate Valid()
      reads this
    {
      |carData.trafficVels| <= TrafficHistory + 1 && mpcFrame >= 0
    }

    constructor(mpcId: int, leadAccelTau: real)
      ensures Valid()
      ensures this.mpcId == mpcId && this.leadAccelTau == leadAccelTau
      ensures State() == MpcMemory(0.0, 0.0, 0.0, false, 0.0, false, 0.0, false, 0.0,
                                   CarData([], []), 0, None, None, None, leadAccelTau,
                                   MpcState(0.0, 0.0, 0.0, 0.0, 0.0))
    {
      this.mpcId := mpcId;
      this.leadAccelTau := leadAccelTau;
      vMpc := 0.0;
      vMpcFuture := 0.0;
      aMpc := 0.0;
      prevLeadStatus := false;
      prevLeadX := 0.0;
      newLead := false;
      vEgo := 0.0;
      blinkers := false;
      lastCost := 0.0;
      carData := CarData([], []);
      mpcFrame := 0;
      lastTime := None;
      vLead := None;
      xLead := None;
      aLeadTau := leadAccelTau;
      curState := MpcState(0.0, 0.0, 0.0, 0.0, 0.0);
    }

    /** set_cur_state. */
    method SetCurState(v: real, a: real)
      modifies this
      ensures State() == old(State()).(curState := old(curState).(vEgo := v, aEgo := a))
    {
      curState := curState.(vEgo := v, aEgo := a);
    }

    /** calc_rate with the frame-timing flag: the clock is recorded only for a new frame. */
    method CalcRateFrame(seconds: real, newFrame: bool, now: real) returns (r: int)
      modifies this
      ensures r == CalcRate(old(lastTime), now, seconds) && r >= 10
      ensures State() == old(State()).(lastTime := if newFrame then Some(now) else old(lastTime))
    {
      r := CalcRate(lastTime, now, seconds);
      if newFrame {
        lastTime := Some(now);
      }
    }

    /** The `while len(xs) > n: del xs[0]` loop. */
    static method TrimFront(xs: seq<real>, n: nat) returns (r: seq<real>)
      ensures r == KeepLast(xs, n)
    {
      r := xs;
      while |r| > n
        invariant |r| <= |xs| && r == xs[|xs| - |r|..]
        invariant |xs| > n ==> |r| >= n
        invariant |xs| <= n ==> r == xs
        decreases |r|
      {
        r := r[1..];
      }
    }

    /**
     * save_car_data: with a lead, keep at most three seconds of lead speeds
     * before adding the new one, and once a second add a traffic sample to
     * at most 180 older ones; without a lead, forget the lead speeds and
     * leave the traffic samples alone.
     */
    method SaveCarData(now: real)
      modifies this
      requires Valid()
      ensures Valid()
      ensures vLead.None? ==> State() == old(State()).(carData := old(carData).(leadVels := []))
      ensures vLead.Some? ==>
                carData.leadVels == KeepLast(old(carData.leadVels), CalcRate(lastTime, now, 3.0)) + [vLead.value]
      ensures vLead.Some? && old(mpcFrame) >= CalcRate(lastTime, now, 1.0) ==>
                carData.trafficVels == KeepLast(old(carData.trafficVels), TrafficHistory) + [vLead.value] && mpcFrame == 1
      ensures vLead.Some? && old(mpcFrame) < CalcRate(lastTime, now, 1.0) ==>
                carData.trafficVels == old(carData.trafficVels) && mpcFrame == old(mpcFrame) + 1
      ensures State() == old(State()).(carData := carData, mpcFrame := mpcFrame)
      ensures State() == SaveCarDataStep(old(State()), now)
    {
      if vLead.Some? {
        var leadVels := TrimFront(carData.leadVels, CalcRate(lastTime, now, 3.0));
        carData := carData.(leadVels := leadVels + [vLead.value]);
        if mpcFrame >= CalcRate(lastTime, now, 1.0) {
          var trafficVels := TrimFront(carData.trafficVels, TrafficHistory);
          carData := carData.(trafficVels := trafficVels + [vLead.value]);
          mpcFrame := 0;
        }
        mpcFrame := mpcFrame + 1;
      } else {
        carData := carData.(leadVels := []);
      }
    }

    /**
     * get_TR with read_distance_lines fixed at 2: signalling above 20 mph
     * follows at 0.9 s with cost 1.0; otherwise the car data is saved and
     * the smoothed distance and its cost are used.
     */
    method GetTR(now: real, interp: Interp) returns (tr: real)
      modifies this
      requires Valid()
      ensures Valid()
      ensures tr >= 0.9
      ensures blinkers && vEgo > BlinkerSpeed ==> tr == 0.9 && State() == old(State()).(lastCost := 1.0)
      ensures !(blinkers && vEgo > BlinkerSpeed) ==>
                tr == SmoothFollow(vEgo, vLead, interp) && lastCost == GetCost(tr, xLead, vLead, vEgo, interp) &&
                State() == old(State()).(carData := carData, mpcFrame := mpcFrame, lastCost := lastCost)
      ensures (State(), tr) == TrStep(old(State()), now, interp)
    {
      if blinkers && vEgo > BlinkerSpeed {
        lastCost := 1.0;
        tr := 0.9;
      } else {
        SaveCarData(now);
        tr := SmoothFollow(vEgo, vLead, interp);
        lastCost := GetCost(tr, xLead, vLead, vEgo, interp);
      }
    }

    /** Start or keep following a lead at x moving at v: the part the phantom and radar branches share. */
    method Track(x: real, v: real, tau: real)
      modifies this
      ensures prevLeadStatus && prevLeadX == x && newLead == IsNewLead(old(prevLeadStatus), old(prevLeadX), x)
      ensures curState == old(curState).(xL := x, vL := v) && aLeadTau == tau
      ensures State() == old(State()).(prevLeadStatus := true, prevLeadX := x, newLead := newLead,
                                       aLeadTau := tau, curState := curState)
    {
      aLeadTau := tau;
      newLead := false;
      if !prevLeadStatus || Abs(x - prevLeadX) > 2.5 {
        newLead := true;
      }
      prevLeadStatus := true;
      prevLeadX := x;
      curState := curState.(xL := x, vL := v);
    }

    /**
     * The lead set-up at the top of update: a phantom in phantom mode, else
     * an active radar lead, else a fake lead 50 m ahead and 10 m/s faster.
     * Returns the lead acceleration handed to the solver. In phantom mode
     * the remembered radar lead (vLead, xLead) is left as it was.
     */
    method SetupLead(lead: Lead, phantom: map<string, PhantomValue>, pow: Power) returns (aLead: real)
      requires PhantomDataValid(phantom)
      modifies this
      ensures PhantomOn(phantom) ==>
                var t := PhantomTarget(phantom, lead, vEgo, pow);
                aLead == 0.0 && State() == old(State()).(
                  prevLeadStatus := true, prevLeadX := t.0, newLead := IsNewLead(old(prevLeadStatus), old(prevLeadX), t.0),
                  aLeadTau := lead.aLeadTau, curState := old(curState).(xL := t.0, vL := t.1))
      ensures !PhantomOn(phantom) && lead.status ==>
                var t := RadarLead(lead);
                aLead == t.2 && State() == old(State()).(
                  prevLeadStatus := true, prevLeadX := t.0, newLead := IsNewLead(old(prevLeadStatus), old(prevLeadX), t.0),
                  vLead := Some(t.1), xLead := Some(t.0),
                  aLeadTau := lead.aLeadTau, curState := old(curState).(xL := t.0, vL := t.1))
      ensures !PhantomOn(phantom) && !lead.status ==>
                aLead == 0.0 && State() == old(State()).(
                  prevLeadStatus := false, vLead := None, xLead := None, aLeadTau := leadAccelTau,
                  curState := old(curState).(xL := 50.0, vL := vEgo + 10.0))
      ensures (State(), aLead) == LeadStep(old(State()), lead, phantom, pow, leadAccelTau)
    {
      if PhantomOn(phantom) {
        var t := PhantomTarget(phantom, lead, vEgo, pow);
        aLead := 0.0;
        Track(t.0, t.1, lead.aLeadTau);
      } else if lead.status {
        var t := RadarLead(lead);
        aLead := t.2;
        vLead := Some(t.1);
        xLead := Some(t.0);
        Track(t.0, t.1, lead.aLeadTau);
      } else {
        prevLeadStatus := false;
        curState := curState.(xL := 50.0, vL := vEgo + 10.0);
        aLead := 0.0;
        vLead := None;
        xLead := None;
        aLeadTau := leadAccelTau;
      }
    }

    /** Take the solution's next-step and one-second-ahead values, then discard them if the solution is unsound. */
    method ApplySolution(sol: MpcSolution, cs: CarStateIn)
      requires |sol.vEgo| > 10 && |sol.aEgo| > 1
      modifies this
      ensures vMpcFuture == sol.vEgo[10]
      ensures NeedsReset(sol, old(prevLeadStatus)) ==>
                vMpc == cs.vEgo && aMpc == cs.aEgo && !prevLeadStatus &&
                curState == old(curState).(vEgo := cs.vEgo, aEgo := 0.0)
      ensures !NeedsReset(sol, old(prevLeadStatus)) ==>
                vMpc == sol.vEgo[1] && aMpc == sol.aEgo[1] && prevLeadStatus == old(prevLeadStatus) &&
                curState == old(curState)
      ensures State() == old(State()).(vMpc := vMpc, aMpc := aMpc, vMpcFuture := vMpcFuture,
                                       prevLeadStatus := prevLeadStatus, curState := curState)
      ensures State() == SolutionStep(old(State()), sol, cs)
    {
      vMpc := sol.vEgo[1];
      aMpc := sol.aEgo[1];
      vMpcFuture := sol.vEgo[10];
      if NeedsReset(sol, prevLeadStatus) {
        curState := curState.(vEgo := cs.vEgo, aEgo := 0.0);
        vMpc := cs.vEgo;
        aMpc := cs.aEgo;
        prevLeadStatus := false;
      }
    }

    /**
     * LongitudinalMpc.update with phantom holding the phantom receiver's
     * data after its own update and sol the solver's answer.
     */
    method Update(cs: CarStateIn, lead: Lead, phantom: map<string, PhantomValue>, now: real,
                  interp: Interp, pow: Power, sol: MpcSolution)
      returns (aLead: real, tr: real)
      requires Valid()
      requires PhantomDataValid(phantom)
      requires |sol.vEgo| > 10 && |sol.aEgo| > 1
      modifies this
      ensures Valid()
      ensures vEgo == cs.vEgo && blinkers == (cs.leftBlinker || cs.rightBlinker)
      ensures tr >= 0.9 && curState.xEgo == 0.0
      ensures var tracking := PhantomOn(phantom) || lead.status;
              prevLeadStatus == (tracking && !NeedsReset(sol, tracking))
      ensures !PhantomOn(phantom) && !lead.status ==>
                curState.xL == 50.0 && curState.vL == cs.vEgo + 10.0 && vLead == None && xLead == None && aLead == 0.0
      ensures PhantomOn(phantom) ==> curState.xL <= PhantomDistance && aLead == 0.0
      ensures NeedsReset(sol, PhantomOn(phantom) || lead.status) ==>
                vMpc == cs.vEgo && aMpc == cs.aEgo && curState.vEgo == cs.vEgo && curState.aEgo == 0.0
      ensures !NeedsReset(sol, PhantomOn(phantom) || lead.status) ==> vMpc == sol.vEgo[1] && aMpc == sol.aEgo[1]
      ensures vMpcFuture == sol.vEgo[10]
      ensures (State(), aLead, tr) == MpcStep(old(State()), cs, lead, phantom, now, interp, pow, sol, leadAccelTau)
    {
      ghost var m0 := State();
      aLead := BeginUpdate(cs, lead, phantom, pow);
      ghost var m2 := State();
      tr := FinishUpdate(cs, now, interp, sol);
      ghost var m4 := State();
      var m1 := m0.(vEgo := cs.vEgo, blinkers := cs.leftBlinker || cs.rightBlinker, curState := m0.curState.(xEgo := 0.0));
      MpcStepStages(m0, m1, m2, TrStep(m2, now, interp).0, m4, cs, lead, phantom, now, interp, pow, sol, leadAccelTau, aLead, tr);
      UpdateFacts(m0, m4, cs, lead, phantom, now, interp, pow, sol, leadAccelTau, aLead, tr);
    }

    /** The first half of update: record the car state and set up the lead. */
    method BeginUpdate(cs: CarStateIn, lead: Lead, phantom: map<string, PhantomValue>, pow: Power) returns (aLead: real)
      requires PhantomDataValid(phantom)
      modifies this
      ensures (State(), aLead) ==
              LeadStep(old(State()).(vEgo := cs.vEgo, blinkers := cs.leftBlinker || cs.rightBlinker,
                                     curState := old(curState).(xEgo := 0.0)), lead, phantom, pow, leadAccelTau)
    {
      vEgo := cs.vEgo;
      blinkers := cs.leftBlinker || cs.rightBlinker;
      curState := curState.(xEgo := 0.0);
      aLead := SetupLead(lead, phantom, pow);
    }

    /** The second half of update: choose the following distance and take the solution. */
    method FinishUpdate(cs: CarStateIn, now: real, interp: Interp, sol: MpcSolution) returns (tr: real)
      requires Valid()
      requires |sol.vEgo| > 10 && |sol.aEgo| > 1
      modifies this
      ensures Valid()
      ensures tr == TrStep(old(State()), now, interp).1
      ensures State() == SolutionStep(TrStep(old(State()), now, interp).0, sol, cs)
    {
      tr := GetTR(now, interp);
      ApplySolution(sol, cs);
    }
  }
}
