/**
 * The phantom-mode receiver of selfdrive/phantom/phantom.py. Each update it
 * copies the latest phantomData snapshot, notes the time of a fresh message,
 * and, when no message came for `timeout` seconds while phantom mode is on,
 * replaces the snapshot by a standing-still phantom and flags the lost
 * connection.
 *
 * The SubMaster becomes two parameters: the latest snapshot and whether it
 * was updated this cycle. The two time.time() calls of an update become two
 * parameters: `stampTime` for the receive stamp and `checkTime` for the
 * timeout test. Nothing orders them, since the wall clock may jump.
 */
module PhantomClock {
  import opened Common

  /** The fields of the latest phantomData message the SubMaster holds. */
  datatype Snapshot = Snapshot(status: bool, speed: real, angle: real)

  function SnapshotData(p: Snapshot): (d: map<string, PhantomValue>)
    ensures PhantomDataValid(d) && d["status"] == Flag(p.status) && d["speed"] == Number(p.speed)
  {
    map["status" := Flag(p.status), "speed" := Number(p.speed), "angle" := Number(p.angle)]
  }

  /** The data of a phantom that lost its connection: on, but standing still. */
  const LostData: map<string, PhantomValue> := map["status" := Flag(true), "speed" := Number(0.0), "angle" := Number(0.0)]

  /** Whether a phantom that last heard from the app at lastReceive counts as disconnected. */
  predicate TimedOut(now: real, lastReceive: real, timeout: real, status: bool)
  {
    now - lastReceive >= timeout && status
  }

  /** A message arriving this very cycle never counts as a lost connection when the timeout is positive. */
  lemma FreshMessageNotTimedOut(now: real, timeout: real, status: bool)
    requires timeout > 0.0
    ensures !TimedOut(now, now, timeout, status)
  {
  }

  class Phantom {
    var data: map<string, PhantomValue>
    var lostConnection: bool
    var lastReceiveTime: real
    var timeout: real

    predicate Valid()
      reads this
    {
      PhantomDataValid(data)
    }

    /** Phantom.__init__ without the sshd configuration side effect. */
    constructor(now: real, timeout: real)
      ensures Valid()
      ensures data == map["status" := Flag(false), "speed" := Number(0.0)]
      ensures !lostConnection && lastReceiveTime == now && this.timeout == timeout
    {
      data := map["status" := Flag(false), "speed" := Number(0.0)];
      lostConnection := false;
      lastReceiveTime := now;
      this.timeout := timeout;
    }

    /** Phantom.update. */
    method Update(snapshot: Snapshot, updated: bool, stampTime: real, checkTime: real)
      modifies this
      ensures Valid()
      ensures lastReceiveTime == (if updated then stampTime else old(lastReceiveTime))
      ensures lostConnection <==> TimedOut(checkTime, lastReceiveTime, timeout, snapshot.status)
      ensures lostConnection ==> data == LostData
      ensures !lostConnection ==> data == SnapshotData(snapshot)
      ensures updated && checkTime - stampTime < timeout ==> !lostConnection
      ensures updated && snapshot.status && checkTime - stampTime >= timeout ==> lostConnection
      ensures Get("status") == Some(Flag(snapshot.status))
      ensures Get("speed") == Some(Number(if lostConnection then 0.0 else snapshot.speed))
      ensures timeout == old(timeout)
    {
      data := SnapshotData(snapshot);
      if updated {
        lastReceiveTime := stampTime;
      }
      if checkTime - lastReceiveTime >= timeout && data["status"] == Flag(true) {
        data := LostData;
        lostConnection := true;
        assert LostData.Keys == {"status", "speed", "angle"};
      } else {
        lostConnection := false;
      }
    }

    /** Phantom.__getitem__: the value under a key, None where Python raises KeyError. */
    function Get(key: string): (r: Option<PhantomValue>)
      reads this
      ensures r.Some? <==> key in data
      ensures r.Some? ==> r.value == data[key]
    {
      if key in data then Some(data[key]) else None
    }
  }
}
