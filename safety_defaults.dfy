/**
 * The panda's default safety hooks (panda/board/safety/safety_defaults.h):
 * camera detection from the LKAS command frame 832, the forwarding switch
 * that turns off for good once the camera is seen on bus 0, the bus routing,
 * and the constant hooks of the no-output and all-output modes.
 *
 * C globals become the fields of a class; GET_BUS and GET_ADDR become the
 * bus and address parameters. safety_cb_disable_all is not part of this
 * model: the hook reports that it would call it.
 */
module PandaSafetyDefaults {

  /** The LKAS command frame that reveals where the camera is. */
  const LkasCmdAddr: int := 832

  /** The three detection globals. */
  datatype Detection = Detection(cameraDetected: int, cameraBus: int, giraffeSwitch2: int)

  /**
   * The detection rules both receive hooks share: frame 832 on bus 0 means
   * the camera is connected; on another bus it names the camera's bus; on
   * the camera bus before the camera was detected it means giraffe switch 2
   * is high.
   */
  function DetectStep(d: Detection, bus: int, addr: int): (r: Detection)
    ensures addr != LkasCmdAddr ==> r == d
  {
    var detected := if bus == 0 && addr == LkasCmdAddr then 1 else d.cameraDetected;
    var cameraBus := if bus != 0 && addr == LkasCmdAddr then bus else d.cameraBus;
    var giraffe := if addr == LkasCmdAddr && bus == cameraBus && detected != 1 then 1 else d.giraffeSwitch2;
    Detection(detected, cameraBus, giraffe)
  }

  /**
   * Detection only ever sets flags: a detected camera stays detected and a
   * high switch stays high. The switch goes high only on an 832 frame from
   * a nonzero bus, which then is the camera bus, while no camera is seen on
   * bus 0; the camera bus only ever takes nonzero values.
   */
  lemma DetectStepRules(d: Detection, bus: int, addr: int)
    ensures var r := DetectStep(d, bus, addr);
            (d.cameraDetected == 1 ==> r.cameraDetected == 1) &&
            (d.giraffeSwitch2 == 1 ==> r.giraffeSwitch2 == 1) &&
            (r.cameraDetected == 1 <==> d.cameraDetected == 1 || (bus == 0 && addr == LkasCmdAddr)) &&
            (r.cameraBus != d.cameraBus ==> r.cameraBus == bus && bus != 0) &&
            (r.giraffeSwitch2 != d.giraffeSwitch2 ==>
               r.giraffeSwitch2 == 1 && addr == LkasCmdAddr && bus != 0 && r.cameraBus == bus &&
               r.cameraDetected != 1)
  {
  }

  /** The calls a receive hook makes into the safety callbacks. */
  datatype CbCall = NoCall | EnableAll | DisableAll

  datatype DefaultState = DefaultState(enabled: int, detection: Detection)

  /** default_rx_hook: detection, then forwarding stops once the camera is detected. */
  function DefaultRxStep(s: DefaultState, bus: int, addr: int): (DefaultState, CbCall)
  {
    var d := DetectStep(s.detection, bus, addr);
    if s.enabled == 1 && d.cameraDetected == 1 then (DefaultState(0, d), DisableAll)
    else (DefaultState(s.enabled, d), NoCall)
  }

  /**
   * enabled only ever changes from 1 to 0, and only when the camera is
   * detected; after the hook, a detected camera means forwarding is off.
   */
  lemma DefaultRxEnabledOnlyFalls(s: DefaultState, bus: int, addr: int)
    ensures var (t, call) := DefaultRxStep(s, bus, addr);
            (t.enabled == s.enabled || (s.enabled == 1 && t.enabled == 0 && t.detection.cameraDetected == 1)) &&
            (call == DisableAll <==> t.enabled != s.enabled) &&
            (t.detection.cameraDetected == 1 ==> t.enabled != 1)
  {
  }

  function DefaultRxAfter(s: DefaultState, frames: seq<(int, int)>): DefaultState
  {
    if frames == [] then s
    else var f := frames[|frames| - 1]; DefaultRxStep(DefaultRxAfter(s, frames[..|frames| - 1]), f.0, f.1).0
  }

  /**
   * Starting from enabled = 1, enabled stays in {0, 1}; once a frame has
   * turned it off (the camera on bus 0), no later frame turns it back on.
   */
  lemma {:induction false} DefaultForwardingNeverResumes(s: DefaultState, frames: seq<(int, int)>, k: int)
    requires s.enabled == 0 || s.enabled == 1
    requires 0 <= k <= |frames|
    ensures var e := DefaultRxAfter(s, frames).enabled; e == 0 || e == 1
    ensures DefaultRxAfter(s, frames[..k]).enabled == 0 ==> DefaultRxAfter(s, frames).enabled == 0
  {
    if frames != [] {
      var n := |frames|;
      var p := frames[..n - 1];
      var f := frames[n - 1];
      DefaultRxEnabledOnlyFalls(DefaultRxAfter(s, p), f.0, f.1);
      if k == n {
        assert frames[..k] == frames;
        DefaultForwardingNeverResumes(s, p, 0);
      } else {
        assert frames[..k] == p[..k];
        DefaultForwardingNeverResumes(s, p, k);
      }
    }
  }

  /**
   * default_fwd_hook: while forwarding, bus 0 goes to the camera bus and the
   * camera bus to bus 0, both offset by 10; bus 1 always goes to 20; every
   * other frame is not forwarded (-1).
   */
  function DefaultFwd(enabled: int, cameraBus: int, busNum: int): (r: int)
    ensures busNum == 1 ==> r == 20
    ensures busNum != 1 && enabled != 1 ==> r == -1
    ensures busNum != 1 && busNum != 0 && busNum != cameraBus ==> r == -1
  {
    var busFwd := -1;
    var busFwd := if enabled == 1 && busNum == 0 then cameraBus + 10 else busFwd;
    var busFwd := if enabled == 1 && busNum == cameraBus then 0 + 10 else busFwd;
    if busNum == 1 then 0 + 20 else busFwd
  }

  /** With a camera bus other than 0 and 1, forwarding pairs bus 0 with the camera bus. */
  lemma DefaultFwdPairsBuses(cameraBus: int)
    requires cameraBus != 0 && cameraBus != 1
    ensures DefaultFwd(1, cameraBus, 0) == cameraBus + 10
    ensures DefaultFwd(1, cameraBus, cameraBus) == 10
    ensures DefaultFwd(0, cameraBus, 0) == -1 && DefaultFwd(0, cameraBus, cameraBus) == -1
  {
  }

  /** The two output modes that share these receive and forward hooks. */
  datatype OutputMode = NoOutput | AllOutput

  /** The value the mode's init hook gives controls_allowed. */
  function InitControlsAllowed(mode: OutputMode): (r: int)
    ensures r == 1 <==> mode == AllOutput
  {
    match mode
    case NoOutput => 0
    case AllOutput => 1
  }

  /** The tx hooks: as written, both modes let every CAN frame out. */
  function TxHook(mode: OutputMode): (r: int)
    ensures r == 1
  {
    match mode
    case NoOutput => 1
    case AllOutput => 1
  }

  /** The LIN tx hooks: only the all-output mode sends on LIN. */
  function TxLinHook(mode: OutputMode): (r: bool)
    ensures r <==> mode == AllOutput
  {
    match mode
    case NoOutput => false
    case AllOutput => true
  }

  /** default_ign_hook: -1, ignition is read from the GPIO. */
  function IgnHook(): (r: int)
    ensures r == -1
  {
    -1
  }

  /** The modes differ only in controls_allowed and LIN output; neither filters CAN output. */
  lemma OutputModesDiffer()
    ensures TxHook(NoOutput) == TxHook(AllOutput)
    ensures TxLinHook(NoOutput) != TxLinHook(AllOutput)
    ensures InitControlsAllowed(NoOutput) == 0 && InitControlsAllowed(AllOutput) == 1
  {
  }

  /** The globals of safety_defaults.h, with controls_allowed from the shared safety state. */
  class DefaultSafety {
    var enabled: int
    var cameraDetected: int
    var cameraBus: int
    var giraffeSwitch2: int
    var controlsAllowed: int

    function State(): DefaultState
      reads this
    {
      DefaultState(enabled, Detection(cameraDetected, cameraBus, giraffeSwitch2))
    }

    constructor(controlsAllowed: int)
      ensures State() == DefaultState(1, Detection(-1, -1, -1))
      ensures this.controlsAllowed == controlsAllowed
    {
      enabled := 1;
      cameraDetected := -1;
      cameraBus := -1;
      giraffeSwitch2 := -1;
      this.controlsAllowed := controlsAllowed;
    }

    method RxHook(bus: int, addr: int) returns (call: CbCall)
      modifies this
      ensures (State(), call) == DefaultRxStep(old(State()), bus, addr)
      ensures controlsAllowed == old(controlsAllowed)
    {
      call := NoCall;
      if bus == 0 && addr == LkasCmdAddr {
        cameraDetected := 1;
      }
      if bus != 0 && addr == LkasCmdAddr {
        cameraBus := bus;
      }
      if addr == LkasCmdAddr && bus == cameraBus && cameraDetected != 1 {
        giraffeSwitch2 := 1;
      }
      if enabled == 1 && cameraDetected == 1 {
        enabled := 0;
        call := DisableAll;
      }
    }

    /** nooutput_init and alloutput_init. */
    method Init(mode: OutputMode, param: int)
      modifies this
      ensures controlsAllowed == InitControlsAllowed(mode)
      ensures State() == old(State())
    {
      match mode
      case NoOutput => controlsAllowed := 0;
      case AllOutput => controlsAllowed := 1;
    }
  }
}
