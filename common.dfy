/**
 * Shared vocabulary of the control core: Python's numeric helpers as they
 * behave on exact reals, an Option type, and the interfaces of the foreign
 * collaborators (numpy_fast.interp, the PIController) that the controllers
 * call but whose code is not part of this model.
 */
module Common {

  datatype Option<+T> = None | Some(value: T)

  /** One byte of a CAN payload. */
  type Byte = x: int | 0 <= x < 256

  function Min(a: real, b: real): real { if a <= b then a else b }

  function Max(a: real, b: real): real { if a >= b then a else b }

  function Abs(x: real): real { if x >= 0.0 then x else -x }

  /** numpy_fast.clip, taken as min(max(x, lo), hi). */
  function Clip(x: real, lo: real, hi: real): (r: real)
    ensures lo <= hi ==> lo <= r <= hi
    ensures lo <= x <= hi ==> r == x
  {
    Min(Max(x, lo), hi)
  }

  /** The integer version of Clip, used for counters. */
  function ClipInt(x: int, lo: int, hi: int): (r: int)
    ensures lo <= hi ==> lo <= r <= hi
    ensures lo <= x <= hi ==> r == x
  {
    var m := if x >= lo then x else lo;
    if m <= hi then m else hi
  }

  /**
   * Python 3's round(x): the nearest integer, ties to the even neighbour.
   * Floating-point representation error is not modelled.
   */
  function Round(x: real): (r: int)
    ensures x - 0.5 <= r as real <= x + 0.5
  {
    var f := x.Floor;
    var d := x - f as real;
    if d < 0.5 then f
    else if d > 0.5 then f + 1
    else if f % 2 == 0 then f
    else f + 1
  }

  /** Rounding keeps a value inside any pair of integer bounds around it. */
  lemma RoundWithin(x: real, lo: int, hi: int)
    requires lo as real <= x <= hi as real
    ensures lo <= Round(x) <= hi
  {
  }

  /**
   * Python's round(x, digits) on exact reals, with the unit 10^-digits given
   * as its reciprocal `scale` (1000.0 for three digits).
   */
  function RoundTo(x: real, scale: real): real
    requires scale > 0.0
  {
    Round(x * scale) as real / scale
  }

  /**
   * round(x, digits) never leaves an interval whose ends are whole multiples
   * of the unit: lo and hi count units.
   */
  lemma RoundToWithin(x: real, scale: real, lo: int, hi: int)
    requires scale > 0.0
    requires lo as real <= x * scale <= hi as real
    ensures lo as real / scale <= RoundTo(x, scale) <= hi as real / scale
  {
    var m := Round(x * scale) as real;
    RoundWithin(x * scale, lo, hi);
    DivMonotone(lo as real, m, scale);
    DivMonotone(m, hi as real, scale);
  }

  /** round(x, digits) moves x by at most half a unit. */
  lemma RoundToClose(x: real, scale: real)
    requires scale > 0.0
    ensures x - 0.5 / scale <= RoundTo(x, scale) <= x + 0.5 / scale
  {
    var m := Round(x * scale) as real;
    DivMonotone(x * scale - 0.5, m, scale);
    DivMonotone(m, x * scale + 0.5, scale);
    assert (x * scale - 0.5) / scale == x - 0.5 / scale;
    assert (x * scale + 0.5) / scale == x + 0.5 / scale;
  }

  lemma DivMonotone(a: real, b: real, p: real)
    requires a <= b && p > 0.0
    ensures a / p <= b / p
  {
    assert b / p - a / p == (b - a) / p;
  }

  /** Python's int(x) on a real: truncation toward zero. */
  function Trunc(x: real): (r: int)
    ensures x >= 0.0 ==> r == x.Floor
    ensures x < 0.0 ==> r == -((-x).Floor)
  {
    if x >= 0.0 then x.Floor else -((-x).Floor)
  }

  /**
   * numpy_fast.interp(x, xp, fp): a piecewise-linear lookup. Its code is not
   * part of this model, so every caller receives it as a parameter.
   */
  type Interp = (real, seq<real>, seq<real>) -> real

  /**
   * numpy_fast.interp returns the first value for any x at or below the
   * first breakpoint.
   */
  ghost predicate InterpClampsBelow(interp: Interp)
  {
    forall x: real, xp: seq<real>, fp: seq<real> {:trigger interp(x, xp, fp)} ::
      |xp| == |fp| >= 1 && x <= xp[0] ==> interp(x, xp, fp) == fp[0]
  }

  /**
   * The part of a PIController's state that the controllers read or write:
   * the integrator, the output limits, a gain multiplier (the longitudinal
   * controller zeroes the gains while decelerating for a turn) and the
   * saturation flag.
   */
  datatype PidState = PidState(i: real, posLimit: real, negLimit: real, gainScale: real, saturated: bool)

  /**
   * The arguments of one PIController.update call. An Option flag is None
   * when the caller leaves the argument at the controller's own default.
   */
  datatype PidArgs = PidArgs(
    setpoint: real, measurement: real, speed: real, deadzone: real, feedforward: real,
    freezeIntegrator: Option<bool>, checkSaturation: Option<bool>, override: Option<bool>)

  datatype PidStep = PidStep(pid: PidState, output: real)

  /** PIController.update: its new state and its output, supplied by the caller. */
  type PidUpdate = (PidState, PidArgs) -> PidStep

  /** PIController.reset: the integrator and the saturation flag are cleared. */
  function PidReset(p: PidState): PidState
  {
    p.(i := 0.0, saturated := false)
  }

  /** A value stored in a phantom-mode data dictionary. */
  datatype PhantomValue = Flag(b: bool) | Number(x: real)

  /** The keys a phantom-mode data dictionary may ever hold. */
  const PhantomKeys: set<string> := {"status", "speed", "angle", "time"}

  /**
   * The shape every phantom data dictionary keeps: a boolean "status", a
   * numeric "speed", and no key outside PhantomKeys.
   */
  predicate PhantomDataValid(d: map<string, PhantomValue>)
  {
    "status" in d && d["status"].Flag? && "speed" in d && d["speed"].Number? && d.Keys <= PhantomKeys
  }
}
