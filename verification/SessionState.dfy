/** The state of one server session, as its own methods update it.
    (internal/deviceaccess/access_server/devicetcp/session.go) */
module SessionState {
  import opened Types
  import opened Codec
  import opened Heartbeat
  import opened RollingIds
  import ObservaRegistry

  const HEARTBEAT_DEFAULT: uint16 := 300

  /** The capacity of a session that has been verified. */
  predicate Capacity(size: uint16) {
    size == 512 || size == 1024 || size == 2048 || size == 4096
  }

  /** How the backend answers a verification. */
  datatype Verdict = NoClient | NoId | CallFailed | Refused | Passed

  /** A verification lets the reader register the session or not, may send a response, or ends the session. */
  datatype Verified = Verified(ok: bool, response: Option<uint8>) | Broken(error: Error)

  /** A ping is answered with a code, or the server dereferences the nil result of a failed decode. */
  datatype Ponged = Ponged(code: uint8) | NilDereference

  class Observa {
    const id: uint16
    var closed: bool

    constructor (id: uint16)
      ensures this.id == id && !closed
    {
      this.id := id;
      closed := false;
    }
  }

  class Session {
    var rollingHeaderID: uint32
    var rollingObservaID: uint32
    var observaCount: int
    var observaStore: map<uint16, Observa>
    var bodyCapSize: uint16
    var heartbeatSeconds: uint16
    var verifyPass: bool
    var deviceID: Bytes

    /** A verified session has one of the four capacities, the interval is one that `CheckSeconds` can multiply
        by one and a half, and stored observations are open and under their own ids. */
    ghost predicate Valid()
      reads this, observaStore.Values
    {
      && (forall id :: id in observaStore ==> observaStore[id].id == id && !observaStore[id].closed)
      && (verifyPass ==> Capacity(bodyCapSize) && |deviceID| == DEVICE_ID_LEN)
      && (heartbeatSeconds == HEARTBEAT_DEFAULT || HEARTBEAT_MIN <= heartbeatSeconds <= HEARTBEAT_MAX)
    }

    constructor ()
      ensures Valid() && !verifyPass && heartbeatSeconds == 300
      ensures observaStore == map[] && observaCount == 0 && rollingHeaderID == rollingObservaID == 0
    {
      rollingHeaderID, rollingObservaID, observaCount, observaStore := 0, 0, 0, map[];
      bodyCapSize, heartbeatSeconds, verifyPass, deviceID := 0, HEARTBEAT_DEFAULT, false, [];
    }

    /** The n-th call gives the n-th rolling id, if the counter was not moved otherwise. */
    method GenHeaderID(ghost n: nat) returns (id: uint16)
      requires rollingHeaderID == n % UINT32
      modifies this`rollingHeaderID
      ensures rollingHeaderID == (n + 1) % UINT32 && id == RollingId(n + 1)
    {
      rollingHeaderID := (rollingHeaderID + 1) % UINT32;
      id := rollingHeaderID % ID_SPACE;
    }

    /** Creates an observation unless 256 are counted; called by one goroutine at a time. */
    method CreateObserva() returns (r: Option<Observa>)
      requires Valid()
      modifies this`rollingObservaID, this`observaCount, this`observaStore
      ensures Valid()
      ensures r.None? <==> old(observaCount) >= 256
      ensures r.None? ==> observaStore == old(observaStore) && observaCount == old(observaCount)
      ensures r.Some? ==> fresh(r.value) && !r.value.closed && r.value.id == rollingObservaID % ID_SPACE
      ensures r.Some? ==> rollingObservaID == (old(rollingObservaID) + 1) % UINT32
      ensures r.Some? ==> observaStore == old(observaStore)[r.value.id := r.value]
      ensures r.Some? ==> observaCount == old(observaCount) + 1
    {
      if observaCount >= ObservaRegistry.OBSERVATIONS_MAX {
        return None;
      }
      rollingObservaID := (rollingObservaID + 1) % UINT32;
      var ob := new Observa(rollingObservaID % ID_SPACE);
      observaStore := observaStore[ob.id := ob];
      observaCount := observaCount + 1;
      return Some(ob);
    }

    /** Removes an open observation and closes it; another call for the same id then changes nothing. */
    method DestroyObserva(id: uint16)
      requires Valid()
      modifies this`observaCount, this`observaStore, if id in observaStore then {observaStore[id]} else {}
      ensures Valid()
      ensures observaStore == old(observaStore) - {id}
      ensures observaCount == old(observaCount) - if id in old(observaStore) then 1 else 0
      ensures id in old(observaStore) ==> old(!observaStore[id].closed) && old(observaStore)[id].closed
    {
      if id in observaStore {
        var ob := observaStore[id];
        observaStore := observaStore - {id};
        ob.closed := true;
        observaCount := observaCount - 1;
      }
    }

    /** Handles the body of a verify request; `disabled` is the configuration switch.  When the call of the backend
        fails on a session that is verified already, the reader is told to register it once more. */
    method ReceiveVerifyReq(body: Bytes, disabled: bool, verdict: Verdict) returns (r: Verified)
      requires Valid()
      modifies this`verifyPass, this`deviceID, this`bodyCapSize
      ensures Valid()
      ensures r.Broken? <==> DecodeVerifyReqBody(body).Err?
      ensures r.Verified? ==> (r.ok <==> disabled || verdict.Passed? || (verdict.CallFailed? && old(verifyPass)))
      ensures r.Verified? ==> (r.response == None <==> disabled || verdict.Passed?)
      ensures r.Verified? && (disabled || verdict.Passed?) ==>
        && r == Verified(true, None) && verifyPass
        && deviceID == DecodeVerifyReqBody(body).value.deviceID
        && bodyCapSize == 512 * Pow2(DecodeVerifyReqBody(body).value.capLevel)
      ensures r.Verified? && r.response.Some? ==>
        r.response.value == if verdict.Refused? then 3 else 0
      ensures r.Broken? || r.response.Some? ==>
        verifyPass == old(verifyPass) && deviceID == old(deviceID) && bodyCapSize == old(bodyCapSize)
    {
      var decoded := DecodeVerifyReqBody(body);
      if decoded.Err? {
        return Broken(decoded.error);
      }
      var req := decoded.value;
      if !disabled {
        match verdict {
          case NoClient => return Verified(false, Some(CODE_UNKNOWN));
          case NoId => return Verified(false, Some(CODE_UNKNOWN));
          case CallFailed => return Verified(verifyPass, Some(CODE_UNKNOWN));
          case Refused => return Verified(false, Some(CODE_VERIFY_FAIL));
          case Passed =>
        }
      }
      VerifyInverse(body);
      verifyPass := true;
      deviceID := req.deviceID;
      bodyCapSize := GetCapSize(req.capLevel).value;
      r := Verified(true, None);
    }

    /** Handles the body of a ping: 0 leaves the interval, 30 to 43200 seconds set it, other values are refused. */
    method DevicePingProcess(body: Bytes) returns (r: Ponged)
      requires Valid()
      modifies this`heartbeatSeconds
      ensures Valid() && CheckSeconds(heartbeatSeconds) == heartbeatSeconds + heartbeatSeconds / 2
      ensures r.NilDereference? <==> |body| != 0 && |body| != 2
      ensures r.Ponged? ==>
        var t: int := if body == [] then 0 else 256 * (body[0] as int) + body[1];
        && r.code == (if t == 0 || 30 <= t <= 43200 then 1 else 4)
        && heartbeatSeconds == if 30 <= t <= 43200 then t else old(heartbeatSeconds)
      ensures r.NilDereference? ==> heartbeatSeconds == old(heartbeatSeconds)
    {
      CheckSecondsExact(heartbeatSeconds);
      var code := CODE_SUCCESS;
      var decoded := DecodePingReqBody(body);
      if decoded.Err? {
        return NilDereference;
      }
      var timeout := decoded.value;
      if timeout != 0 {
        if timeout < HEARTBEAT_MIN || timeout > HEARTBEAT_MAX {
          code := CODE_PARA_INVALID;
        } else {
          heartbeatSeconds := timeout;
          CheckSecondsExact(timeout);
        }
      }
      r := Ponged(code);
    }
  }
}
