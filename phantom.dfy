/**
 * The phantom-mode receiver of selfdrive/phantom.py. Each cycle it takes the
 * latest phantomData message, or none, and decides what the planner sees:
 * the message itself, the last message again while waiting for the next
 * one, a stopped phantom after too many silent cycles (with the timeout
 * option), or phantom mode off after a status-false message.
 *
 * The message socket is never created in the source (its creation is
 * commented out), so the received message is a parameter: Some(message) or
 * None. The timeout option is kept as its truth value.
 */
module PhantomCounter {
  import opened Common

  /** One phantomData message. */
  datatype PhantomMsg = PhantomMsg(status: bool, speed: real, angle: real, time: real)

  /** Silent cycles are counted up to this cap. */
  const CounterCap: int := 900

  /** The data while phantom mode is off. */
  const DisabledData: map<string, PhantomValue> := map["status" := Flag(false), "speed" := Number(0.0)]

  /** The data of a phantom that lost its connection: on, but standing still. */
  const LostData: map<string, PhantomValue> :=
    map["status" := Flag(true), "speed" := Number(0.0), "angle" := Number(0.0), "time" := Number(0.0)]

  /** The data a message carries. */
  function MsgData(m: PhantomMsg): (d: map<string, PhantomValue>)
    ensures PhantomDataValid(d) && d["status"] == Flag(m.status) && d["speed"] == Number(m.speed)
  {
    map["status" := Flag(m.status), "speed" := Number(m.speed), "angle" := Number(m.angle), "time" := Number(m.time)]
  }

  datatype PhantomState = PhantomState(
    data: map<string, PhantomValue>,
    lastReceiveCounter: int,
    lastPhantomData: map<string, PhantomValue>,
    toDisable: bool)

  const InitialState: PhantomState := PhantomState(DisabledData, 0, DisabledData, true)

  predicate StateValid(s: PhantomState)
  {
    PhantomDataValid(s.data) && PhantomDataValid(s.lastPhantomData) && 0 <= s.lastReceiveCounter <= CounterCap
  }

  /** Phantom.update with the message received this cycle, if any. */
  function Step(s: PhantomState, msg: Option<PhantomMsg>, rate: real, timeout: bool): PhantomState
  {
    match msg
    case Some(m) => PhantomState(MsgData(m), 0, MsgData(m), !m.status)
    case None =>
      var data :=
        if s.toDisable then DisabledData
        else if s.lastReceiveCounter > Trunc(rate * 1.0) && timeout then LostData
        else s.lastPhantomData;
      var counter := if s.lastReceiveCounter + 1 <= CounterCap then s.lastReceiveCounter + 1 else CounterCap;
      s.(data := data, lastReceiveCounter := counter)
  }

  /**
   * A message replaces the data and its copy, resets the counter and arms
   * disabling exactly when its status is false. A silent cycle leaves the
   * copy and the disabling flag alone, counts up without passing the cap,
   * and chooses between off, lost and the last message.
   */
  lemma StepRules(s: PhantomState, msg: Option<PhantomMsg>, rate: real, timeout: bool)
    requires StateValid(s)
    ensures var t := Step(s, msg, rate, timeout);
            StateValid(t) &&
            (msg.Some? ==> t.data == t.lastPhantomData == MsgData(msg.value) && t.lastReceiveCounter == 0 &&
                           t.toDisable == !msg.value.status) &&
            (msg.None? ==> t.lastPhantomData == s.lastPhantomData && t.toDisable == s.toDisable &&
                           t.lastReceiveCounter == (if s.lastReceiveCounter < CounterCap then s.lastReceiveCounter + 1 else CounterCap) &&
                           (s.toDisable ==> t.data == DisabledData) &&
                           (!s.toDisable && timeout && s.lastReceiveCounter > Trunc(rate) ==> t.data == LostData) &&
                           (!s.toDisable && !(timeout && s.lastReceiveCounter > Trunc(rate)) ==> t.data == s.lastPhantomData))
  {
    assert DisabledData.Keys == {"status", "speed"};
    assert LostData.Keys == PhantomKeys;
  }

  /** The state after a run of silent cycles. */
  function Silent(s: PhantomState, n: nat, rate: real, timeout: bool): PhantomState
  {
    if n == 0 then s else Step(Silent(s, n - 1, rate, timeout), None, rate, timeout)
  }

  /**
   * After a message with status true, the k-th silent cycle repeats the
   * message while at most int(rate) silent cycles preceded it; with the
   * timeout option, later ones report the lost phantom, without it the
   * message is repeated for ever. After a status-false message every silent
   * cycle reports phantom mode off.
   */
  lemma {:induction false} SilenceAfterMessage(s: PhantomState, m: PhantomMsg, k: nat, rate: real, timeout: bool)
    requires k >= 1
    ensures var t := Silent(Step(s, Some(m), rate, timeout), k, rate, timeout);
            t.lastReceiveCounter == (if k <= CounterCap then k else CounterCap) &&
            t.lastPhantomData == MsgData(m) && t.toDisable == !m.status &&
            (!m.status ==> t.data == DisabledData) &&
            (m.status && timeout && k - 1 > Trunc(rate) && k - 1 <= CounterCap ==> t.data == LostData) &&
            (m.status && !(timeout && k - 1 > Trunc(rate)) ==> t.data == MsgData(m))
  {
    if k > 1 {
      SilenceAfterMessage(s, m, k - 1, rate, timeout);
    }
  }

  /** The receiver's fields. */
  class Phantom {
    var data: map<string, PhantomValue>
    var lastReceiveCounter: int
    var lastPhantomData: map<string, PhantomValue>
    var timeout: bool
    var toDisable: bool

    function State(): PhantomState
      reads this
    {
      PhantomState(data, lastReceiveCounter, lastPhantomData, toDisable)
    }

    /** Phantom.__init__ without the sshd configuration side effect. */
    constructor(timeout: bool)
      ensures State() == InitialState && StateValid(State())
      ensures this.timeout == timeout
    {
      data := DisabledData;
      lastReceiveCounter := 0;
      lastPhantomData := DisabledData;
      this.timeout := timeout;
      toDisable := true;
    }

    /** Phantom.update. */
    method Update(msg: Option<PhantomMsg>, rate: real)
      modifies this
      ensures State() == Step(old(State()), msg, rate, timeout)
      ensures timeout == old(timeout)
    {
      if msg.Some? {
        var m := msg.value;
        data := MsgData(m);
        lastPhantomData := data;
        lastReceiveCounter := 0;
        toDisable := !m.status;
      } else {
        if toDisable {
          data := DisabledData;
        } else if lastReceiveCounter > Trunc(rate * 1.0) && timeout {
          data := LostData;
        } else {
          data := lastPhantomData;
        }
        lastReceiveCounter := if lastReceiveCounter + 1 <= CounterCap then lastReceiveCounter + 1 else CounterCap;
      }
    }
  }
}
