# Driving-assist control core, modelled in Dafny

This project models the per-cycle control logic of an openpilot fork for
Hyundai/Kia cars. It also models the panda firmware hooks that sit between
the car's CAN buses. The models cover:

- **Longitudinal control**: the off/pid/stopping/starting state machine. One
  cycle shapes a single acceleration command and splits it into mutually
  exclusive gas and brake, with a forward-collision override.
- **Lane-change arbiter**: a four-state machine over blinkers, driver torque,
  speed, the model's lane-change probability and two timers. It also holds
  the desire table and the plan-validity counter.
- **Lateral control**: the disengage rule, angle damping, the feed-forward
  term, and the saturation timer and flag.
- **Hyundai CAN builders**: the LKAS11 field policy, with its two-pass checksum
  in three variants (CRC-8 with generator 0x11D, the 6-byte sum and the
  7-byte sum). Also the MDPS12 and CLU11 builders and the fixed
  camera-replacement frames.
- **Hyundai car controller**: acceleration hysteresis, the HUD mapping,
  steering gating, the rolling counters, the per-frame message schedule and
  the stop-and-go resume burst.
- **Panda safety hooks**: the default and forwarding modes. These cover camera
  detection, the forwarding switch, bus routing, the constant tx/lin/ignition
  hooks, and the MDPS12 rewrite with its wrapping counter and byte-sum
  checksum.
- **Longitudinal planner**: cruise acceleration tables, their tightening in
  turns (in place on a two-element array), the choice of the slowest plan,
  the disengaged reset and the interpolated start state.
- **Longitudinal MPC wrapper**: bounded lead-speed histories, the
  following-distance and cost shaping, the frame-rate estimate, phantom-lead
  substitution and the sanity reset of the solution.
- **Lane-hug compensation** and the two **phantom-mode receivers**.

Pure source code is modelled as datatypes, functions and lemmas. Objects
whose methods update their fields are modelled as classes. Each such class
has a `State()` view, and its methods are proved equal to a step function
on that view. The properties are then proved as lemmas about the step
function.

Foreign collaborators become parameters of function type or plain inputs:

- `numpy_fast.interp` and the `PIController` update;
- `speed_smoother` and `**`;
- the DBC-driven `CANPacker`;
- `apply_std_steer_torque_limits`;
- the MPC solvers' output.

Each clock reading (`sec_since_boot`, `time.time`) becomes a parameter. Physical
quantities are exact reals. Bytes are integers 0..255, with bitwise
operations defined bit by bit.

## Model

| member | source | states |
|---|---|---|
| LongitudinalControl.StateTrans | selfdrive/controls/lib/longcontrol.py:23-55 | definition of long_control_state_trans; characterised by InactiveIsOff, OffOnlyToPid, PidStopsIffStoppingCondition, StoppingStartsIff, StartingPriorities and StopOrStartOnlyThroughPid |
| LongitudinalControl.InactiveIsOff | selfdrive/controls/lib/longcontrol.py:33-34 | without `active` the next state is off, whatever the current state |
| LongitudinalControl.OffOnlyToPid | selfdrive/controls/lib/longcontrol.py:36-39 | from off the only successor is pid (when active), never stopping or starting |
| LongitudinalControl.PidStopsIffStoppingCondition | selfdrive/controls/lib/longcontrol.py:24-43 | pid moves to stopping exactly when the stopping condition holds, and otherwise stays in pid |
| LongitudinalControl.StoppingStartsIff | selfdrive/controls/lib/longcontrol.py:31-47 | stopping moves to starting iff v_target > 0.5 and the cruise is not at standstill; no other successor |
| LongitudinalControl.StartingPriorities | selfdrive/controls/lib/longcontrol.py:49-53 | in starting the stopping condition wins; starting returns to pid iff no stopping condition and output_gb >= -0.2 |
| LongitudinalControl.StopOrStartOnlyThroughPid | selfdrive/controls/lib/longcontrol.py:23-55 | any run from off that ends in stopping or starting passed through pid at an earlier cycle |
| LongitudinalControl.StopAndGoScenario | selfdrive/controls/lib/longcontrol.py:23-55 | a concrete off, pid, stopping, starting, pid cycle of the transition function |
| LongitudinalControl.DynamicGas | selfdrive/controls/lib/longcontrol.py:80-127 | the gas limit always lies in [0, 1] for every gas-button status the code handles |
| LongitudinalControl.StartingRampProgress | selfdrive/controls/lib/longcontrol.py:208-212 | after n starting cycles the output is at least min(start + 0.008 n, -0.2) and at most max(start, -0.192): the brake is released at 0.008 per cycle up to -0.2 |
| LongitudinalControl.CountdownAfterWarning | selfdrive/controls/lib/longcontrol.py:217-222 | k cycles after an fcw (counting its own) the countdown is still at least 200 - k, since it restarts at 200 and falls by one per cycle |
| LongitudinalControl.FcwForcesBrakeForCountdown | selfdrive/controls/lib/longcontrol.py:217-222 | for 200 cycles after an fcw the override (gas 0, brake 1) is in force |
| LongitudinalControl.GasBrakeExclusive | selfdrive/controls/lib/longcontrol.py:214-216 | the clipped gas and brake are each within their limits, never both positive, and follow the sign of the output |
| LongitudinalControl.TurnGains | selfdrive/controls/lib/longcontrol.py:167-183 | entering decel-for-turn zeroes the gain scale and integrator; leaving it (or not cruising) restores the gain scale; otherwise the PID is unchanged |
| LongitudinalControl.FreezeGate | selfdrive/controls/lib/longcontrol.py:184-190 | the integrator is cleared only on the first cycle a pedal is pressed; the freeze flag tracks the pedals |
| LongitudinalControl.PidPrep | selfdrive/controls/lib/longcontrol.py:157-190 | before the PID call: limits set to gas/brake max, v_pid := v_target, integrator cleared exactly on a turn or pedal edge, nothing else changed |
| LongitudinalControl.PidCallArgs | selfdrive/controls/lib/longcontrol.py:192 | the PID is called with setpoint v_target, speed max(v_ego, 0.3), feedforward a_target and freeze on overshoot or pedals |
| LongitudinalControl.PidBranch | selfdrive/controls/lib/longcontrol.py:157-195 | the pid state's output is the PID output, clamped to at most 0 when overshoot prevention applies |
| LongitudinalControl.ShapeRules | selfdrive/controls/lib/longcontrol.py:151-212 | per state: off outputs 0 and resets the PID with v_pid = max(v_ego, 0.3); stopping ramps the brake; starting ramps up; other fields untouched |
| LongitudinalControl.SplitRules | selfdrive/controls/lib/longcontrol.py:214-222 | the split records the output and steps the countdown; under the fcw override gas 0 and brake 1, otherwise clipped exclusive gas/brake |
| LongitudinalControl.ControlStepRules | selfdrive/controls/lib/longcontrol.py:129-212 | one cycle: lead bookkeeping, the state from the transition function, and the per-state output shaping |
| LongitudinalControl.ControlStepOutputs | selfdrive/controls/lib/longcontrol.py:214-222 | one cycle: gas and brake come from the split or the fcw override, within bounds, never both positive; the controller invariant is kept |
| LongitudinalControl.ControlStep | selfdrive/controls/lib/longcontrol.py:129-222 | definition of one LongControl.update on the whole state; characterised by ControlStepRules and ControlStepOutputs |
| LongitudinalControl.LongControl.constructor | selfdrive/controls/lib/longcontrol.py:59-73 | starts off with zero outputs and countdown, no lead, and satisfies the controller invariant |
| LongitudinalControl.LongControl.Reset | selfdrive/controls/lib/longcontrol.py:75-78 | resets the PID and sets v_pid, nothing else |
| LongitudinalControl.LongControl.ApplyTurnGains | selfdrive/controls/lib/longcontrol.py:167-183 | the fields change exactly as TurnGains says |
| LongitudinalControl.LongControl.ApplyFreeze | selfdrive/controls/lib/longcontrol.py:184-190 | the fields change exactly as FreezeGate says |
| LongitudinalControl.LongControl.PrepPid | selfdrive/controls/lib/longcontrol.py:157-190 | the fields change exactly as PidPrep says |
| LongitudinalControl.LongControl.RunPid | selfdrive/controls/lib/longcontrol.py:192-195 | the new state and output are those of PidBranch |
| LongitudinalControl.LongControl.ShapeOutput | selfdrive/controls/lib/longcontrol.py:151-212 | the new state and output are those of the per-state shaping |
| LongitudinalControl.LongControl.Update | selfdrive/controls/lib/longcontrol.py:129-223 | the new state, gas and brake are those of ControlStep, whose properties the two ControlStep lemmas state |
| LongitudinalControl.LongControl.SplitOutput | selfdrive/controls/lib/longcontrol.py:214-222 | the new state, gas and brake are those of the split |
| PathPlanning.Desires | selfdrive/controls/lib/pathplanner.py:17-36 | definition: the DESIRES table; characterised by DesiresTable |
| PathPlanning.Transition | selfdrive/controls/lib/pathplanner.py:93-128 | definition of the lane-change if/elif chain; characterised by OffLeavesOnlyOnRisingEdge, PreLaneChangeTransitions and ChainedTransitionsOneStep |
| PathPlanning.LaneChangeStep | selfdrive/controls/lib/pathplanner.py:89-139 | definition of one lane-change cycle; characterised by StepPreservesValid, DisengagedIsOff, SpeedGate, TimerRule and SlowDriveStaysOff |
| PathPlanning.DesiresTable | selfdrive/controls/lib/pathplanner.py:17-36 | desire is laneChangeLeft/Right exactly in starting or finishing with that direction, none otherwise |
| PathPlanning.StepPreservesValid | selfdrive/controls/lib/pathplanner.py:89-148 | one cycle keeps the lane-change memory consistent: timers non-negative, the auto timer zero exactly in off, the lane-change timer zero in off and positive while changing lanes |
| PathPlanning.DisengagedIsOff | selfdrive/controls/lib/pathplanner.py:90-94 | inactive or a timer above 10 s forces off, no direction and zeroed timers |
| PathPlanning.OffLeavesOnlyOnRisingEdge | selfdrive/controls/lib/pathplanner.py:113-132 | off is left only for preLaneChange, exactly on a rising edge of one blinker while active at speed |
| PathPlanning.PreLaneChangeTransitions | selfdrive/controls/lib/pathplanner.py:117-120 | for a valid memory in preLaneChange with timer 0 (StepPreservesValid keeps that), active and at or above the 45 mph gate: no single blinker goes to off; otherwise starting iff torque is applied, else stay |
| PathPlanning.TorqueDirection | selfdrive/controls/lib/pathplanner.py:101-104 | outside the auto window, torque counts iff the wheel is pressed and the torque sign matches the direction |
| PathPlanning.AutoTorqueOnlyInWindow | selfdrive/controls/lib/pathplanner.py:106-107 | without driver torque, torque is injected iff auto LCA is on, in preLaneChange, with the timer strictly between 2 and 3 |
| PathPlanning.ChainedTransitionsOneStep | selfdrive/controls/lib/pathplanner.py:113-128 | starting to finishing iff prob > 0.5, finishing to pre iff prob < 0.2, at most one transition per cycle |
| PathPlanning.SpeedGate | selfdrive/controls/lib/pathplanner.py:131-139 | below 45 mph a preLaneChange result is forced to off, so off stays off |
| PathPlanning.TimerRule | selfdrive/controls/lib/pathplanner.py:134-139 | the timer is 0 in off/pre, otherwise grows by DT_MDL, and beyond 1 s with the wheel pressed the state drops to preLaneChange |
| PathPlanning.SlowDriveStaysOff | selfdrive/controls/lib/pathplanner.py:131-132 | a run of cycles entirely below 45 mph never leaves off |
| PathPlanning.InvalidCountPositive | selfdrive/controls/lib/pathplanner.py:200-203 | the invalid counter is positive iff the latest solution was invalid |
| PathPlanning.PlanValidIff | selfdrive/controls/lib/pathplanner.py:200-204 | the plan is valid iff the last two solutions were not both invalid |
| PathPlanning.PathPlanner.constructor | selfdrive/controls/lib/pathplanner.py:52-57 | starts off with zero timers, no previous blinker and zero invalid count |
| PathPlanning.PathPlanner.Transitions | selfdrive/controls/lib/pathplanner.py:93-132 | the new state is the gated transition and the direction the blinker direction; timers untouched |
| PathPlanning.PathPlanner.Update | selfdrive/controls/lib/pathplanner.py:89-204 | the memory follows LaneChangeStep, desire is the table entry, the invalid counter steps and the plan is valid iff the count is below 2 |
| LateralControl.Dampen | selfdrive/controls/lib/latcontrol.py:31-32 | definition of the 49:1 filter; characterised by DampenContracts |
| LateralControl.Feedforward | selfdrive/controls/lib/latcontrol.py:36-38 | definition: the desired angle, times v² for torque control; characterised by FeedforwardScales |
| LateralControl.FeedforwardScales | selfdrive/controls/lib/latcontrol.py:36-38 | the angle passes unchanged without torque control, and the feed-forward never has the opposite sign of the desired angle |
| LateralControl.SatStep | selfdrive/controls/lib/latcontrol.py:43-58 | definition of the timer and flag update, with the stamp reading (line 48) and the check reading (line 53) as two inputs; characterised by SatStepRules, SatTimerWitness and SatFlagNeedsSustainedSaturation |
| LateralControl.DampenContracts | selfdrive/controls/lib/latcontrol.py:31-32 | the damped angle moves 1/50 of the way towards the projected angle and stays between the two |
| LateralControl.SatStepRules | selfdrive/controls/lib/latcontrol.py:43-58 | the flag needs a timer older than 0.7 s at the check reading, running already or started this cycle; a saturated PID starts an idle timer at the stamp reading; an unsaturated PID stops a running one; an idle timer raises the flag in the same cycle exactly when the PID is saturated, the stamp reading is above 0.5 and more than 0.7 s lie between the two readings |
| LateralControl.SatTimerWitness | selfdrive/controls/lib/latcontrol.py:46-58 | a running timer holds the stamp reading of a sample since which the PID was saturated at every sample |
| LateralControl.SatFlagNeedsSustainedSaturation | selfdrive/controls/lib/latcontrol.py:43-58 | the flag is raised only if the PID stayed saturated from a sample whose stamp reading lies more than 0.7 s before this check reading, or if this cycle starts the timer and its own two readings lie more than 0.7 s apart |
| LateralControl.LatControl.constructor | selfdrive/controls/lib/latcontrol.py:12-19 | zero angles, idle timer, flag down |
| LateralControl.LatControl.Reset | selfdrive/controls/lib/latcontrol.py:22-23 | resets the PID only |
| LateralControl.LatControl.Update | selfdrive/controls/lib/latcontrol.py:25-60 | inactive or slow: output 0 and PID reset with angles kept; else the desired angle at its own clock reading (line 30), damping, symmetric limits, feed-forward and PID call; the timer and flag follow SatStep on the readings of lines 48 and 53 |
| HyundaiCan.MakeCanMsg | selfdrive/car/hyundai/hyundaican.py:6-7 | the message is [addr, 0, dat, alt] |
| HyundaiCan.Lkas11Checksum | selfdrive/car/hyundai/hyundaican.py:40-51 | definition of the three LKAS11 checksums; characterised by Lkas11ChecksumSkipsByte6, Lkas11ChecksumDetectsSingleByteErrors and Lkas11SelfConsistent |
| HyundaiCan.SelectVariant | selfdrive/car/hyundai/hyundaican.py:40-51 | crc8 takes precedence over 6B, then 7B; no variant iff the fingerprint is in no set |
| HyundaiCan.EngagedUsesComputedFields | selfdrive/car/hyundai/hyundaican.py:10-22 | when enabled, icon, state, warning, torque and ActToi are computed, never stock |
| HyundaiCan.DisengagedStockFields | selfdrive/car/hyundai/hyundaican.py:13-22 | disabled with use_stock, the five use_stock fields are the stock ones |
| HyundaiCan.KeepStockFields | selfdrive/car/hyundai/hyundaican.py:17-35 | each keep_stock field is stock with keep_stock and its fixed default without; ToiFlt 0, MsgCount cnt, first-pass checksum 0 |
| HyundaiCan.SumUpdate | selfdrive/car/hyundai/hyundaican.py:47-51 | replacing one byte changes the byte sum by exactly the difference |
| HyundaiCan.ModDetectsSmallChange | selfdrive/car/hyundai/hyundaican.py:47-51 | two sums that differ by less than 256 differ mod 256 |
| HyundaiCan.Lkas11ChecksumSkipsByte6 | selfdrive/car/hyundai/hyundaican.py:40-51 | no variant's checksum depends on byte 6, where the checksum itself goes |
| HyundaiCan.Lkas11ChecksumDetectsSingleByteErrors | selfdrive/car/hyundai/hyundaican.py:40-51 | changing one covered byte always changes the checksum, in each variant |
| HyundaiCan.CreateLkas11 | selfdrive/car/hyundai/hyundaican.py:9-55 | no message iff no variant; otherwise the frame is packed again with the checksum of the first, zero-checksum packing |
| HyundaiCan.Lkas11SelfConsistent | selfdrive/car/hyundai/hyundaican.py:38-55 | with the checksum in byte 6, the frame sent carries its own correct checksum |
| HyundaiCan.Mdps12Checksum | selfdrive/car/hyundai/hyundaican.py:103-104 | definition: the byte sum without byte 3, mod 256; characterised by Mdps12ChecksumProperties and Mdps12SelfConsistent |
| HyundaiCan.Mdps12ChecksumProperties | selfdrive/car/hyundai/hyundaican.py:103-104 | the MDPS12 checksum ignores byte 3 and detects any single-byte change elsewhere |
| HyundaiCan.Mdps12Values | selfdrive/car/hyundai/hyundaican.py:87-99 | ToiActive from LKAS11 ActToi, MsgCount2 cnt, ToiFlt 0, every other field stock |
| HyundaiCan.CreateMdps12 | selfdrive/car/hyundai/hyundaican.py:86-107 | the frame is packed again with the checksum of the first packing, on bus camcan |
| HyundaiCan.Mdps12SelfConsistent | selfdrive/car/hyundai/hyundaican.py:101-107 | with the checksum in byte 3, the frame sent carries its own correct checksum |
| HyundaiCan.Clu11Values | selfdrive/car/hyundai/hyundaican.py:68-82 | CruiseSwState is the button, AliveCnt1 is 0, every other field is stock |
| HyundaiCan.Clu11ValuesLastButtonWins | selfdrive/car/hyundai/hyundaican.py:68-82 | rebuilding a CLU11 from its own output only replaces the button |
| HyundaiCan.CreateClu11 | selfdrive/car/hyundai/hyundaican.py:68-84 | the CLU11 frame is the packing of those values on bus 0 |
| HyundaiCan.CreateLkas12 | selfdrive/car/hyundai/hyundaican.py:57-58 | address 1342 with its six fixed bytes on bus 0 |
| HyundaiCan.Create1191 | selfdrive/car/hyundai/hyundaican.py:61-62 | address 1191 with its two fixed bytes on bus 0 |
| HyundaiCan.Create1156 | selfdrive/car/hyundai/hyundaican.py:65-66 | address 1156 with its eight fixed bytes on bus 0 |
| Crc8J1850Poly.Crc8 | selfdrive/car/hyundai/hyundaican.py:4 | definition of crcmod crc-8 with generator 0x11D, initCrc 0xFD and xorOut 0xDF; characterised by Crc8Empty and Crc8DetectsSingleByteErrors |
| Crc8J1850Poly.Crc8Empty | selfdrive/car/hyundai/hyundaican.py:4 | the CRC of the empty message is initCrc 0xFD |
| Crc8J1850Poly.ShiftLinear | selfdrive/car/hyundai/hyundaican.py:4 | one register shift is linear over xor and maps non-zero to non-zero |
| Crc8J1850Poly.ShiftNInjective | selfdrive/car/hyundai/hyundaican.py:4 | any number of shifts maps different registers to different registers |
| Crc8J1850Poly.CrcRegisterDiffers | selfdrive/car/hyundai/hyundaican.py:4 | two equal-length messages differing in one byte leave different registers |
| Crc8J1850Poly.StepDiffers | selfdrive/car/hyundai/hyundaican.py:4 | one byte step keeps registers apart, and separates different bytes from equal registers |
| Crc8J1850Poly.Crc8DetectsSingleByteErrors | selfdrive/car/hyundai/hyundaican.py:4 | the CRC of two messages differing in exactly one byte differs |
| HyundaiCarController.AccelHysteresis | selfdrive/car/hyundai/carcontroller.py:19-28 | output equals the new steady value, within 0.02 of the input; unchanged inside the band, else exactly 0.02 from the input |
| HyundaiCarController.AccelHysteresisIdempotent | selfdrive/car/hyundai/carcontroller.py:19-28 | applying the hysteresis again with the same input changes nothing |
| HyundaiCarController.AccelHysteresisMonotone | selfdrive/car/hyundai/carcontroller.py:19-28 | a larger input never gives a smaller steady value |
| HyundaiCarController.ApplyAccel | selfdrive/car/hyundai/carcontroller.py:81-84 | the commanded acceleration lies in [ACCEL_MIN, ACCEL_MAX] = [-3.0, 1.5] |
| HyundaiCarController.ApplyAccelScales | selfdrive/car/hyundai/carcontroller.py:17-84 | inside the clip range the command is the steady value times ACCEL_SCALE = 3 |
| HyundaiCarController.ProcessHudAlert | selfdrive/car/hyundai/carcontroller.py:30-57 | alert 3 iff steerRequired, else 0; a departure warning is set iff departing, 1 for Genesis models, else 2 |
| HyundaiCarController.LaneVisibleDecodes | selfdrive/car/hyundai/carcontroller.py:37-47 | the lane code determines which lines are visible; 3 iff both lines while enabled |
| HyundaiCarController.GatedSteer | selfdrive/car/hyundai/carcontroller.py:91-94 | steer is non-zero only when enabled with abs(angle) > 100, and there it is the limiter's value |
| HyundaiCarController.SteerReq | selfdrive/car/hyundai/carcontroller.py:96 | steer_req is 1 iff apply_steer is non-zero, else 0 |
| HyundaiCarController.FixedSendsContents | selfdrive/car/hyundai/carcontroller.py:111-117 | LKAS12, 1191 and 1156 are queued iff the camera is disconnected and the frame is a multiple of 10, 50 and 7 |
| HyundaiCarController.ControlSendsContents | selfdrive/car/hyundai/carcontroller.py:119-141 | LKAS11 and a CLU11 always; SCC12 iff odd frame; CANCEL iff pcm_cancel_cmd; RES_ACCEL iff resuming; CLU11 counter frame mod 16 |
| HyundaiCarController.Schedule | selfdrive/car/hyundai/carcontroller.py:105-141 | definition of the per-frame message queue; characterised by ScheduleContents |
| HyundaiCarController.ScheduleContents | selfdrive/car/hyundai/carcontroller.py:105-141 | the whole queue of one frame contains each message exactly under its condition, 2 to 8 messages |
| HyundaiCarController.ResumeStep | selfdrive/car/hyundai/carcontroller.py:133-149 | definition of the resume decision and burst counter; characterised by ResumeSendRule, ResumeCounterBounded, ResumeBurstCounts and ResumeBurstOfSix |
| HyundaiCarController.ResumeSendRule | selfdrive/car/hyundai/carcontroller.py:133-149 | RES_ACCEL iff stopped with a recorded distance that grew and more than 5 frames since the last burst; first stop records; moving clears |
| HyundaiCarController.ResumeCounterBounded | selfdrive/car/hyundai/carcontroller.py:138-146 | the resume counter stays within 0..5 |
| HyundaiCarController.ResumeBurstCounts | selfdrive/car/hyundai/carcontroller.py:140-146 | up to five consecutive sends count up one by one without stamping the burst |
| HyundaiCarController.ResumeBurstOfSix | selfdrive/car/hyundai/carcontroller.py:140-146 | the sixth consecutive send stamps the burst frame and resets the counter |
| HyundaiCarController.CarController.constructor | selfdrive/car/hyundai/carcontroller.py:60-71 | zero counters, steer and steady accel, no recorded lead, camera connected |
| HyundaiCarController.CarController.Actuate | selfdrive/car/hyundai/carcontroller.py:81-99 | the new steady accel, command, gated steer and request follow the specifications above; counters and resume state untouched |
| HyundaiCarController.CarController.ResumeBurst | selfdrive/car/hyundai/carcontroller.py:133-149 | the resume state and send decision are those of ResumeStep; nothing else changes |
| HyundaiCarController.CarController.QueueFixed | selfdrive/car/hyundai/carcontroller.py:111-117 | the messages appended are FixedSends |
| HyundaiCarController.CarController.QueueOwn | selfdrive/car/hyundai/carcontroller.py:119-141 | the messages appended are ControlSends, in the controller's order |
| HyundaiCarController.CarController.Queue | selfdrive/car/hyundai/carcontroller.py:105-141 | the frame's queue is the fixed messages followed by the controller's own |
| HyundaiCarController.CarController.Update | selfdrive/car/hyundai/carcontroller.py:75-151 | counters: lkas11 frame mod 16, scc12 reduced mod 15 and bumped on odd frames; actuation and resume per their specifications; the queue is the Schedule of this frame |
| PandaSafetyDefaults.DetectStep | panda/board/safety/safety_defaults.h:13-25 | only frame 832 changes the detection globals |
| PandaSafetyDefaults.DefaultRxStep | panda/board/safety/safety_defaults.h:8-32 | definition of default_rx_hook on the globals; characterised by DetectStepRules, DefaultRxEnabledOnlyFalls and DefaultForwardingNeverResumes |
| PandaSafetyDefaults.DetectStepRules | panda/board/safety/safety_defaults.h:13-25 | detection and switch 2 are never cleared; camera seen iff 832 on bus 0; camera bus is a nonzero bus of 832; switch 2 set only from the camera bus before detection |
| PandaSafetyDefaults.DefaultRxEnabledOnlyFalls | panda/board/safety/safety_defaults.h:26-30 | enabled only changes 1 to 0 on camera detection, with a disable-all call exactly then |
| PandaSafetyDefaults.DefaultForwardingNeverResumes | panda/board/safety/safety_defaults.h:3-30 | once enabled has fallen to 0 it stays 0 for any later frames |
| PandaSafetyDefaults.DefaultFwd | panda/board/safety/safety_defaults.h:57-72 | bus 1 always goes to 20; otherwise -1 unless enabled and the bus is 0 or the camera bus |
| PandaSafetyDefaults.DefaultFwdPairsBuses | panda/board/safety/safety_defaults.h:57-72 | while enabled bus 0 goes to camera bus + 10 and the camera bus to 10; disabled they go nowhere |
| PandaSafetyDefaults.InitControlsAllowed | panda/board/safety/safety_defaults.h:40-43 | controls are allowed iff the mode is all-output |
| PandaSafetyDefaults.TxHook | panda/board/safety/safety_defaults.h:45-48 | both modes' tx hook accept every frame |
| PandaSafetyDefaults.TxLinHook | panda/board/safety/safety_defaults.h:50-55 | the LIN tx hook accepts iff the mode is all-output |
| PandaSafetyDefaults.IgnHook | panda/board/safety/safety_defaults.h:34-36 | the ignition hook returns exactly -1, deferring to the GPIO |
| PandaSafetyDefaults.OutputModesDiffer | panda/board/safety/safety_defaults.h:85-100 | the two modes differ only in LIN tx and controls_allowed |
| PandaSafetyDefaults.DefaultSafety.constructor | panda/board/safety/safety_defaults.h:3-6 | starts enabled with nothing detected |
| PandaSafetyDefaults.DefaultSafety.RxHook | panda/board/safety/safety_defaults.h:8-32 | the globals and the callback follow DefaultRxStep |
| PandaSafetyDefaults.DefaultSafety.Init | panda/board/safety/safety_defaults.h:40-43 | sets controls_allowed for the mode, nothing else |
| PandaSafetyForward.ForwardRxStep | panda/board/safety/safety_forward.h:6-35 | definition of forward_rx_hook on the globals; characterised by ForwardRxRules and ForwardNeverReenabled |
| PandaSafetyForward.ForwardRxRules | panda/board/safety/safety_forward.h:11-33 | the shared detection rules; enabled becomes 1 iff no camera and switch 2; never 1 with a camera; enable/disable calls exactly on those edges |
| PandaSafetyForward.ForwardNeverReenabled | panda/board/safety/safety_forward.h:24-33 | once the camera is detected it stays detected and forwarding is never enabled again |
| PandaSafetyForward.ForwardFwd | panda/board/safety/safety_forward.h:87-99 | -1 unless enabled and the bus is 0 or the camera bus |
| PandaSafetyForward.ForwardFwdSwapsBuses | panda/board/safety/safety_forward.h:87-99 | while enabled bus 0 and the camera bus swap, and routing twice returns to the start |
| PandaSafetyForward.CounterStep | panda/board/safety/safety_forward.h:76-79 | the MDPS12 counter stays in 0..344 and counts up by one below the wrap |
| PandaSafetyForward.CounterCycles | panda/board/safety/safety_forward.h:76-79 | after n steps from 0 the counter is n mod 345 |
| PandaSafetyForward.CounterStepMod | panda/board/safety/safety_forward.h:76-79 | one step on a residue is the next residue mod 345 |
| PandaSafetyForward.NextStrColTq | panda/board/safety/safety_forward.h:46-59 | definition: 164 below the received torque on count 331, else 34 above the last one; ForwardSafety.TxHook stores it |
| PandaSafetyForward.RewrittenFrame | panda/board/safety/safety_forward.h:60-74 | definition of the rewritten payload; characterised by RewrittenOutTq, RewrittenStrColTq, RewrittenStrColTqWraps and RewrittenNegativeChecksumByte |
| PandaSafetyForward.RewriteChecksum | panda/board/safety/safety_forward.h:63-70 | definition of the byte sum of the rewritten frame mod 256; characterised by RewrittenChecksumByte |
| PandaSafetyForward.RewrittenChecksumByte | panda/board/safety/safety_forward.h:60-72 | for a StrColTq in 0..65535 the rewritten frame's byte 3 is the MDPS12 checksum of the rewritten frame (negative values: RewrittenNegativeChecksumByte) |
| PandaSafetyForward.RewrittenOutTq | panda/board/safety/safety_forward.h:64-74 | the rewritten frame carries OutTq 2058 in its top 12 bits |
| PandaSafetyForward.RewrittenStrColTq | panda/board/safety/safety_forward.h:46-62 | for a StrColTq in 0..2047 the rewritten frame's 11-bit StrColTq field decodes to the new torque (other values: RewrittenStrColTqWraps) |
| PandaSafetyForward.RewrittenStrColTqWraps | panda/board/safety/safety_forward.h:46-62 | for every StrColTq the field decodes to it mod 2048: a reachable negative value reads back 2048 higher, a value from 2048 up (thirteen steps of 34 reach 2325) 2048 lower |
| PandaSafetyForward.RewrittenNegativeChecksumByte | panda/board/safety/safety_forward.h:71-72 | a negative StrColTq is or-ed into RDLR sign-extended, so byte 3 leaves as 0xFF whatever the computed checksum |
| PandaSafetyForward.NegativeTorqueBreaksChecksum | panda/board/safety/safety_forward.h:46-72 | an all-zero frame at count 331 gets StrColTq -164, and its rewritten byte 3 (0xFF) differs from its MDPS12 checksum (122) |
| PandaSafetyForward.CanMailbox.constructor | panda/board/safety/safety_forward.h:37-38 | the mailbox holds the given payload |
| PandaSafetyForward.ForwardSafety.constructor | panda/board/safety/safety_forward.h:3 | starts with forwarding at -1 and the given globals |
| PandaSafetyForward.ForwardSafety.Init | panda/board/safety/safety_forward.h:101-104 | clears controls_allowed, nothing else |
| PandaSafetyForward.ForwardSafety.RxHook | panda/board/safety/safety_forward.h:6-35 | the globals and the callback follow ForwardRxStep; MDPS12 state untouched |
| PandaSafetyForward.ForwardSafety.CopyBytes | panda/board/safety/safety_forward.h:42-45 | a fresh 8-byte buffer holding the payload |
| PandaSafetyForward.ForwardSafety.SumBytes | panda/board/safety/safety_forward.h:67-69 | the loop computes the byte sum |
| PandaSafetyForward.ForwardSafety.RewriteBytes | panda/board/safety/safety_forward.h:60-66 | the buffer becomes the rewritten payload |
| PandaSafetyForward.ForwardSafety.RewriteMdps12 | panda/board/safety/safety_forward.h:41-75 | the new torque is stored and the payload replaced by the rewritten frame with its checksum |
| PandaSafetyForward.ForwardSafety.TxHook | panda/board/safety/safety_forward.h:37-85 | returns 1 iff enabled; counts 593 frames while enabled; rewrites only past 330; otherwise the frame is untouched |
| LongitudinalPlanner.CalcCruiseAccelLimits | selfdrive/controls/lib/planner.py:61-76 | definition: the min/max cruise limits from the following, eco, sport or default tables; characterised by FollowingIgnoresGasButton, GasButtonPicksMaxTable and CruiseLimitsOrdered |
| LongitudinalPlanner.FollowingIgnoresGasButton | selfdrive/controls/lib/planner.py:61-68 | when following, both limits come from the following tables whatever the gas button |
| LongitudinalPlanner.GasButtonPicksMaxTable | selfdrive/controls/lib/planner.py:61-76 | not following: the max table is SPORT for 1, ECO for 2, default otherwise; min from the default table |
| LongitudinalPlanner.CruiseLimitsOrdered | selfdrive/controls/lib/planner.py:34-76 | for an interp within its table values, the min limit is at most -0.3, the max at least 0.1 |
| LongitudinalPlanner.LateralAccelMonotone | selfdrive/controls/lib/planner.py:84-88 | the lateral acceleration estimate is non-negative and grows with the absolute steering angle |
| LongitudinalPlanner.TurnLimited | selfdrive/controls/lib/planner.py:89-93 | the max limit is the least of itself and both turn allowances; the min limit is lowered to it when above |
| LongitudinalPlanner.TurnLimitedIdempotent | selfdrive/controls/lib/planner.py:89-93 | limiting twice is the same as limiting once |
| LongitudinalPlanner.LimitAccelInTurns | selfdrive/controls/lib/planner.py:78-93 | the array is updated in place to TurnLimited and returned itself |
| LongitudinalPlanner.SlowestIndex | selfdrive/controls/lib/planner.py:139-141 | the index of the slowest candidate, the first among equals |
| LongitudinalPlanner.Candidates | selfdrive/controls/lib/planner.py:132-137 | model and cruise first, then each eligible mpc |
| LongitudinalPlanner.ChosenIsSlowest | selfdrive/controls/lib/planner.py:132-153 | the chosen plan is a candidate no faster than model, cruise and each eligible mpc |
| LongitudinalPlanner.SlowestValue | selfdrive/controls/lib/planner.py:139-153 | the chosen source's speed is that source's own speed |
| LongitudinalPlanner.FutureTarget | selfdrive/controls/lib/planner.py:155-159 | v_acc_future is the least of the setpoint and the checked leads' future speeds |
| LongitudinalPlanner.AdvanceStart | selfdrive/controls/lib/planner.py:376-380 | the start accel moves a quarter of the way to a_acc, staying between the two |
| LongitudinalPlanner.AdvanceStartSteady | selfdrive/controls/lib/planner.py:376-380 | at a steady accel the start state advances by one DT_PLAN step |
| LongitudinalPlanner.TurnAngles | selfdrive/controls/lib/planner.py:167-176 | with a blinker both angles are 0; below 11 m/s the later angle is 0 |
| LongitudinalPlanner.PlanLimits | selfdrive/controls/lib/planner.py:265-273 | the engaged limits are ordered and capped at AWARENESS_DECEL when slowing is forced |
| LongitudinalPlanner.MapOverride | selfdrive/controls/lib/planner.py:275-284 | a speed limit ahead with the cruise source pins both limits and the start accel to max(min(0, decel), -3); otherwise a turn raises only the lower limit to min(0, decel) and the upper limit is kept |
| LongitudinalPlanner.Engaged | selfdrive/controls/lib/planner.py:265-300 | engaged, only the cruise and model plans and the start accel change; the start accel changes only through the speed limit ahead, to its required decel in [-3, 0]; v_cruise is never negative |
| LongitudinalPlanner.Reset | selfdrive/controls/lib/planner.py:301-311 | disengaged, v_acc, v_acc_start and v_cruise take the reset speed and their accels the reset accel |
| LongitudinalPlanner.Choose | selfdrive/controls/lib/planner.py:120-159 | v_acc_future always set; disengaged nothing else changes; engaged v_acc is no faster than any eligible plan |
| LongitudinalPlanner.PlanStepRules | selfdrive/controls/lib/planner.py:263-380 | one cycle: future target within the setpoint, engaged choice, start state advanced from the old one or from the speed-limit-ahead decel, disengaged reset |
| LongitudinalPlanner.PlanStep | selfdrive/controls/lib/planner.py:263-380 | definition of one planner update; characterised by PlanStepRules and equal to what Planner.Update does |
| LongitudinalPlanner.EngagedLimits | selfdrive/controls/lib/planner.py:266-284 | the limits are PlanLimits after the map adjustments, with the start accel they impose, and the jerk limits are at most -0.1 and at least 0.1 |
| LongitudinalPlanner.Planner.constructor | selfdrive/controls/lib/planner.py:97-118 | all speeds and accels zero, source cruise |
| LongitudinalPlanner.Planner.ChooseSolution | selfdrive/controls/lib/planner.py:120-159 | the fields change as Choose says |
| LongitudinalPlanner.Planner.PlanEngaged | selfdrive/controls/lib/planner.py:265-300 | the fields change as Engaged says |
| LongitudinalPlanner.Planner.Update | selfdrive/controls/lib/planner.py:161-380 | the fields change as PlanStep says, whose properties PlanStepRules states |
| LongitudinalMpcModel.CalcRate | selfdrive/controls/lib/long_mpc.py:179-190 | the rate is at least 10 and at most the cap of 100 per second, rounded |
| LongitudinalMpcModel.CalcRateUntimed | selfdrive/controls/lib/long_mpc.py:179-190 | before any timed frame the rates for 1, 2 and 3 s are 40, 81 and 121 |
| LongitudinalMpcModel.KeepLast | selfdrive/controls/lib/long_mpc.py:84-90 | trimming from the front keeps the last n entries, all of them when there are fewer |
| LongitudinalMpcModel.HistoryBounded | selfdrive/controls/lib/long_mpc.py:84-91 | after the trim and append the history has at most n+1 entries, ending in the new speed |
| LongitudinalMpcModel.AbsDiffs | selfdrive/controls/lib/long_mpc.py:102 | one entry per neighbouring pair, entry i being abs(v[i+1] - v[i]), so none is negative |
| LongitudinalMpcModel.TrafficLevel | selfdrive/controls/lib/long_mpc.py:98-109 | the traffic level is at least 1.0, and exactly 1.0 with fewer than 20 samples |
| LongitudinalMpcModel.RawFollowTr | selfdrive/controls/lib/long_mpc.py:111-131 | definition: the table TR, ramped below 15 mph, plus the relative-speed modifier with a lead; characterised by SmoothFollow |
| LongitudinalMpcModel.SmoothFollow | selfdrive/controls/lib/long_mpc.py:111-136 | the following distance is at least 0.9 s, otherwise the raw value rounded to 3 decimals |
| LongitudinalMpcModel.CostFactor | selfdrive/controls/lib/long_mpc.py:145-147 | min(1, max(2, x)) is always 1 |
| LongitudinalMpcModel.GetCost | selfdrive/controls/lib/long_mpc.py:138-149 | with a lead and v_ego > 5 the cost is at most 0.1 |
| LongitudinalMpcModel.ProcessPhantom | selfdrive/controls/lib/long_mpc.py:192-204 | with an active lead x_lead <= 9.144 and v_lead <= the phantom speed; without one exactly those values |
| LongitudinalMpcModel.PhantomTarget | selfdrive/controls/lib/long_mpc.py:215-235 | a phantom lead is never placed beyond 9.144 m |
| LongitudinalMpcModel.LostConnectionBranchUnreachable | selfdrive/controls/lib/long_mpc.py:215-223 | a standing phantom always gets the smooth stop at 3.75 m, never the quick-stop branch |
| LongitudinalMpcModel.RadarLead | selfdrive/controls/lib/long_mpc.py:236-250 | the radar lead keeps its distance; its speed is floored at 0.1 or zeroed with its accel |
| LongitudinalMpcModel.ResetCauses | selfdrive/controls/lib/long_mpc.py:283-287 | without a lead only NaN resets; a forward, non-crashing, NaN-free solution never resets |
| LongitudinalMpcModel.NeedsReset | selfdrive/controls/lib/long_mpc.py:283-287 | definition: reset on NaN, or on running backwards or through the lead while following; characterised by ResetCauses |
| LongitudinalMpcModel.SaveCarDataStep | selfdrive/controls/lib/long_mpc.py:82-96 | definition of save_car_data on the whole state; SaveCarData ensures the method equals it |
| LongitudinalMpcModel.TrStep | selfdrive/controls/lib/long_mpc.py:151-172 | definition of get_TR on the whole state; GetTR ensures the method equals it, MpcStepDistance states its rules |
| LongitudinalMpcModel.LeadStep | selfdrive/controls/lib/long_mpc.py:212-266 | definition of the lead set-up on the whole state; SetupLead ensures the method equals it, MpcStepLead states its rules |
| LongitudinalMpcModel.SolutionStep | selfdrive/controls/lib/long_mpc.py:277-299 | definition of taking the solution with the sanity reset; ApplySolution ensures the method equals it, MpcStepSolution states its rules |
| LongitudinalMpcModel.MpcStep | selfdrive/controls/lib/long_mpc.py:206-299 | definition of one update on the whole state; characterised by MpcStepLead, MpcStepStandingPhantom, MpcStepDistance and MpcStepSolution |
| LongitudinalMpcModel.MpcStepLead | selfdrive/controls/lib/long_mpc.py:212-266 | the radar lead is placed as RadarLead says and remembered in v_lead/x_lead; the phantom is at most 9.144 m ahead with a_lead 0 and the radar lead left alone; with neither, the fake lead 50 m ahead at v_ego + 10 and the default tau; a followed lead becomes prev_lead_x, with new_lead when none was followed or it jumped more than 2.5 m |
| LongitudinalMpcModel.MpcStepStandingPhantom | selfdrive/controls/lib/long_mpc.py:215-223 | a standing phantom always gives the smooth stop 3.75 m ahead at a non-negative speed |
| LongitudinalMpcModel.MpcStepDistance | selfdrive/controls/lib/long_mpc.py:151-172 | TR is at least 0.9; signalling above 20 mph it is 0.9 with cost 1.0 and the car data and frame counter untouched; the traffic history stays within 181 samples; last_time never changes |
| LongitudinalMpcModel.MpcStepSolution | selfdrive/controls/lib/long_mpc.py:277-299 | the lead is still followed iff one was set up and the solution survived; a reset falls back to v_ego and a_ego with cur_state a_ego 0; otherwise the solution's step-1 values; v_mpc_future is step 10 |
| LongitudinalMpcModel.LongitudinalMpc.constructor | selfdrive/controls/lib/long_mpc.py:18-40 | zero state, empty histories, no lead, the given tau |
| LongitudinalMpcModel.LongitudinalMpc.SetCurState | selfdrive/controls/lib/long_mpc.py:69-71 | sets the ego speed and accel of the solver state only |
| LongitudinalMpcModel.LongitudinalMpc.CalcRateFrame | selfdrive/controls/lib/long_mpc.py:179-190 | returns CalcRate; last_time changes only when new_frame |
| LongitudinalMpcModel.LongitudinalMpc.TrimFront | selfdrive/controls/lib/long_mpc.py:84-90 | the deleting loop leaves KeepLast |
| LongitudinalMpcModel.LongitudinalMpc.SaveCarData | selfdrive/controls/lib/long_mpc.py:82-96 | both history schedules, with the frame stated, and the state equals SaveCarDataStep |
| LongitudinalMpcModel.LongitudinalMpc.GetTR | selfdrive/controls/lib/long_mpc.py:151-177 | the blinker case or the smoothed follow, with the cost recorded; the state and TR equal TrStep |
| LongitudinalMpcModel.LongitudinalMpc.Track | selfdrive/controls/lib/long_mpc.py:226-257 | tracking sets the lead status, position and new-lead flag and the solver's lead state |
| LongitudinalMpcModel.LongitudinalMpc.SetupLead | selfdrive/controls/lib/long_mpc.py:215-266 | a complete new state for each of the three branches, equal to LeadStep |
| LongitudinalMpcModel.LongitudinalMpc.ApplySolution | selfdrive/controls/lib/long_mpc.py:278-299 | the solution values or the reset, with the frame stated, equal to SolutionStep |
| LongitudinalMpcModel.LongitudinalMpc.Update | selfdrive/controls/lib/long_mpc.py:206-299 | the new state, the lead acceleration and TR are exactly MpcStep of the old state; the lead, distance and solution rules are restated for the fields |
| LongitudinalMpcModel.LongitudinalMpc.BeginUpdate | selfdrive/controls/lib/long_mpc.py:207-266 | the state becomes LeadStep after recording v_ego, the blinkers and x_ego = 0 |
| LongitudinalMpcModel.LongitudinalMpc.FinishUpdate | selfdrive/controls/lib/long_mpc.py:268-299 | TR and the state are TrStep followed by SolutionStep, and the traffic-history bound is kept |
| LaneHugging.LaneHug | selfdrive/controls/lane_hugging.py:13-19 | the angle is divided by the hug divisor exactly on the hugged side, else unchanged |
| LaneHugging.NoDirectionNoChange | selfdrive/controls/lane_hugging.py:13-19 | without 'left' or 'right' the angle passes through |
| LaneHugging.LaneHugSoftens | selfdrive/controls/lane_hugging.py:13-19 | with a divisor of at least 1 the output keeps the sign and is no larger |
| LaneHugging.RightHugClamped | selfdrive/controls/lane_hugging.py:16-17 | with 'right' every angle comes back unchanged, given that interp returns its first value at or below the first breakpoint, as numpy_fast.interp does: right-side hugging is a no-op |
| PhantomCounter.MsgData | selfdrive/phantom.py:26-30 | a message's data carries its status and speed |
| PhantomCounter.Step | selfdrive/phantom.py:23-40 | definition of one receiver update; characterised by StepRules and SilenceAfterMessage |
| PhantomCounter.StepRules | selfdrive/phantom.py:23-40 | a message resets the counter and arms disabling iff status is false; silence counts to 900 and picks off, lost or the last message |
| PhantomCounter.SilenceAfterMessage | selfdrive/phantom.py:23-40 | after a message, k silent cycles give the last message until int(rate) passes, then the lost phantom (with timeout); after status false, off |
| PhantomCounter.Phantom.constructor | selfdrive/phantom.py:11-21 | status false and speed 0, armed to disable |
| PhantomCounter.Phantom.Update | selfdrive/phantom.py:23-40 | the fields change as Step says |
| PhantomClock.SnapshotData | selfdrive/phantom/phantom.py:20-22 | the data carries the snapshot's status and speed |
| PhantomClock.TimedOut | selfdrive/phantom/phantom.py:27 | definition: the status is on and at least the timeout has passed since the last message; characterised by FreshMessageNotTimedOut and Phantom.Update |
| PhantomClock.FreshMessageNotTimedOut | selfdrive/phantom/phantom.py:24-27 | with a positive timeout, a message stamped at the same reading as the test never counts as a lost connection |
| PhantomClock.Phantom.constructor | selfdrive/phantom/phantom.py:9-17 | status false and speed 0, not lost, last receive now |
| PhantomClock.Phantom.Update | selfdrive/phantom/phantom.py:19-31 | last receive time becomes the stamp reading only on a message; lost iff at the check reading the timeout has passed with status on, then the standing phantom, else the snapshot; a fresh message is lost exactly when the two readings lie at least the timeout apart with status on |
| PhantomClock.Phantom.Get | selfdrive/phantom/phantom.py:33-34 | the value stored under the key, None where Python raises KeyError |

## Left out

- The MPC solvers (libmpc `init`, `init_with_simulation`, `change_tr`, `run_mpc`, `init_weights`) are not part of this model. The wrapper's solution is an input.
- `get_acceleration` and `send_mpc_solution` in long_mpc are not part of this model. The same goes for every message publication (`pm.send`, `new_message`) and all cloudlog output.
- `PIController`, `numpy_fast.interp`, `speed_smoother`, `apply_std_steer_torque_limits` and the DBC-driven `CANPacker` are not part of this model. They are parameters of function type.
- Common.PidReset: pid.py is not part of this model. Its reset is assumed to clear only the integrator and the saturation flag.
- Common.PidState keeps only the PIController fields the controllers read or write: the integrator, the two limits, a 0/1 gain scale standing for the zeroed kpV/kiV tables, and the saturation flag. sat_count, p, f and control are not modelled, and the update parameter sees only that subset.
- DT_MDL and DT_PLAN (common/realtime.py) are taken as 0.05 s and `Conversions.MPH_TO_MS` (selfdrive/config.py) as 0.44704. Those files are not part of this model.
- `sec_since_boot` and `time.time` are not modelled. Each reading becomes a parameter. LateralControl.LatControl.Update reads the clock three times (selfdrive/controls/lib/latcontrol.py:30, 48 and 53) and takes `desTime`, `stampTime` and `checkTime`. PhantomClock.Phantom.Update reads the clock twice (selfdrive/phantom/phantom.py:25 and 27), so it takes two parameters, `stampTime` and `checkTime`, with no order between them.
- LongitudinalMpcModel.SaveCarDataStep takes one `now` for all the `time.time()` readings that `calc_rate` makes (selfdrive/controls/lib/long_mpc.py:180), including one on every pass of the `while` at line 84. The readings only matter once `last_time` is set, and the wrapper's own calls never set it (see LongitudinalMpcModel.CalcRate below).
- Floating point is not modelled: quantities are exact reals, so NaN is a flag of the MPC solution.
- `round` is modelled as Python's round-half-even on reals, and `int()` truncates toward zero.
- The planner's curvature and model-speed computation, its map speed-limit logic and the trigonometric lead-in-path checks are not modelled. Their results are inputs: the model speed, the limited setpoint, `lead1_check`/`lead2_check`, and the two map decelerations. `turnDecel` is the raw (v_curvature_map - v_ego) / time_to_turn on a cycle where the car decelerates for a turn within reach. `aheadDecel` is the raw required deceleration on a cycle where a lower speed limit lies ahead of a faster car. LongitudinalPlanner.Engaged applies both to the one list that accel_limits and accel_limits_turns name, and writes the speed-limit-ahead deceleration to a_acc_start. Whether those map conditions hold on a cycle is decided outside the model.
- The fcw checker call in the planner is not modelled.
- The path planner's lateral MPC, the lane-line planner and `calc_states_after_delay` are not modelled. The lane-change probability and the solution cost/NaN flag are inputs.
- `mod_sshd_config` in both phantom receivers is not modelled (it is a system-configuration side effect), and neither are the message sockets. In selfdrive/phantom.py the socket creation is commented out (line 14), so `update` as written raises AttributeError at line 25 on every call. PhantomCounter assumes a working socket, and the message it would deliver is an `Option` input.
- Lateral control's saturation flag follows the code, not the comment at selfdrive/controls/lib/latcontrol.py:56, which says the flag and the timer are cleared once the PID is no longer saturated; the code clears only the timer. The flag is tested before the timer is cleared, so it can still rise on that cycle.
- HyundaiCarController.CarController.Update: carcontroller calls `create_lkas11` and `create_clu11` with more arguments than hyundaican defines, and it imports a `create_scc12` that hyundaican does not have. The queued messages are therefore requests that record the arguments passed. Only the three fixed frames are the builders' own.
- HyundaiCan.CreateLkas11: a fingerprint in no checksum set makes Python raise because `checksum` is unbound. The model returns None instead of excluding that input.
- HyundaiCan.Lkas11SelfConsistent and HyundaiCan.Mdps12SelfConsistent hold under an explicit packer layout (checksum in byte 6, respectively byte 3), because the DBC is not part of this model.
- Crc8J1850Poly: under Python 3, which the rest of the code assumes, the crc8 variant's `dat[:6] + dat[7]` (selfdrive/car/hyundai/hyundaican.py:42) adds an int to bytes and raises TypeError. The model follows the evident intent, not the execution: bytes 0-5 followed by byte 7. crcmod's initCrc 0xFD is read as the CRC of the empty message, so the register starts at 0xFD xor 0xDF.
- LongitudinalControl.DynamicGas: it requires a gas-button status of 0, 1 or 2, because any other value leaves the table unbound and raises.
- LongitudinalMpcModel.CalcRate: the wrapper's own calls never pass `new_frame`, so `last_time` stays unset. The untimed rates (CalcRateUntimed) are the ones in effect.
- LongitudinalMpcModel.LostConnectionBranchUnreachable: the quick-stop branch for a `lost_connection` key is modelled but unreachable, because neither receiver stores that key.
- PandaSafetyForward: C `int` is taken as wide enough for the torque arithmetic, and a right shift of a negative value as rounding down. RDLR and RDHR are kept as the payload bytes they hold, in little-endian order.
- safety_cb_enable_all and safety_cb_disable_all are not part of this model. The receive hooks report which of them they would call.
- LongitudinalPlanner.LateralAccel, LongitudinalPlanner.TurnAllowance and LongitudinalPlanner.LimitAccelInTurns (and through GeometryUsable the planner update) require `steerRatio * wheelbase` to be non-zero, so the ZeroDivisionError at selfdrive/controls/lib/planner.py:85-86 is not modelled. Real car parameters always give a positive product.
- LaneHugging.LaneHug: it requires the interpolated divisor to be non-zero on the hugged side, so Python's ZeroDivisionError is not modelled. The divisor lies between 1.0 and `lane_hug_mod`, so it can be zero only when `lane_hug_mod` is 0 or less, outside the parameter's documented range of 1.0 to 2.0.
