/** The user side of an observation: what one `ObGet` stream shows.
    (internal/deviceaccess/access_server/apprpc/apprpc.go) */
module AppRpc {
  import opened Types

  // Status nibbles of the REST-like layer that an observation can carry.
  const STATUS_CONTINUE: uint8 := 3
  const STATUS_TERMINATE: uint8 := 4
  const STATUS_NOT_FOUND: uint8 := 5

  datatype RpcCode =
    | InternalServerError | OK | DeviceOffline | DeviceTimeout | Continue | Terminate
    | NotFound | BadRequest | MethodNotAllowed | TooManyRequests | TooManyObservations

  /** The status carried by a message of the device, as the user sees it. */
  function ToRpcCode(status: uint8): RpcCode {
    match status
    case 2 => OK
    case 3 => Continue
    case 4 => Terminate
    case 5 => NotFound
    case 6 => BadRequest
    case 7 => MethodNotAllowed
    case 8 => TooManyRequests
    case 9 => TooManyObservations
    case _ => InternalServerError
  }

  /** The numbers of the device protocol, from 2 on, name the codes of the user's side from OK on, in this order. */
  const SHOWN: seq<RpcCode> := [
    OK, Continue, Terminate, NotFound, BadRequest, MethodNotAllowed, TooManyRequests, TooManyObservations]

  /** Every status from 2 to 9 is shown as its own code, and everything else as an internal error. */
  lemma StatusIsShown(status: uint8)
    ensures ToRpcCode(status) == if 2 <= status <= 9 then SHOWN[status - 2] else InternalServerError
  {
  }

  datatype Notice = Notice(code: uint8, data: Bytes)
  datatype Frame = Frame(fid: uint32, code: RpcCode, data: Bytes)

  /** What one `select` of the serving loop picked. */
  datatype Event = SessionDone | StreamDone | ChanClosed | Notified(notice: Notice)

  /** The frames a single event puts on the stream: none or one. */
  function Show(fid: uint32, e: Event): seq<Frame> {
    match e
    case SessionDone => [Frame(fid, DeviceOffline, [])]
    case StreamDone => []
    case ChanClosed => [Frame(fid, Terminate, [])]
    case Notified(n) => [Frame(fid, ToRpcCode(n.code), n.data)]
  }

  /** The loop goes on only after a CONTINUE notification. */
  predicate GoesOn(e: Event) {
    e.Notified? && ToRpcCode(e.notice.code) == Continue
  }

  /** The 32-bit number of the n-th frame of a stream. */
  function Fid(n: nat): uint32 {
    n % UINT32
  }

  function NextFid(fid: uint32): uint32 {
    (fid + 1) % UINT32
  }

  lemma FidStep(n: nat)
    ensures NextFid(Fid(n)) == Fid(n + 1)
  {
  }

  /** All the frames shown for a sequence of selected events. */
  function Stream(fid: uint32, events: seq<Event>): seq<Frame>
    decreases |events|
  {
    if events == [] then []
    else if GoesOn(events[0]) then Show(fid, events[0]) + Stream(NextFid(fid), events[1..])
    else Show(fid, events[0])
  }

  /** A stream served from frame number n on: frame i shows event i and is numbered n + i modulo 2^32, and
      only the last frame can be other than CONTINUE. */
  lemma {:induction false} StreamNumbered(n: nat, events: seq<Event>)
    ensures |Stream(Fid(n), events)| <= |events|
    ensures forall i :: 0 <= i < |Stream(Fid(n), events)| ==> Show(Fid(n + i), events[i]) == [Stream(Fid(n), events)[i]]
    ensures forall i :: 0 <= i < |Stream(Fid(n), events)| - 1 ==> Stream(Fid(n), events)[i].code == Continue
    decreases |events|
  {
    if events != [] && GoesOn(events[0]) {
      FidStep(n);
      StreamNumbered(n + 1, events[1..]);
      var rest := Stream(Fid(n + 1), events[1..]);
      assert Stream(Fid(n), events) == Show(Fid(n), events[0]) + rest;
      forall i | 0 <= i < |Stream(Fid(n), events)|
        ensures Show(Fid(n + i), events[i]) == [Stream(Fid(n), events)[i]]
      {
        if i > 0 {
          assert Show(Fid(n + 1 + (i - 1)), events[1..][i - 1]) == [rest[i - 1]];
        }
      }
    }
  }

  /** The server's record of one observation, as far as the serving loop writes it. */
  class Observa {
    var frameID: uint32

    constructor ()
      ensures frameID == 0
    {
      frameID := 0;
    }

    /** Serves selected events until one ends the observation. */
    method NotifyServe(events: seq<Event>) returns (stream: seq<Frame>)
      modifies this
      ensures stream == Stream(old(frameID), events)
    {
      stream := [];
      var i := 0;
      while i < |events|
        invariant 0 <= i <= |events|
        invariant Stream(old(frameID), events) == stream + Stream(frameID, events[i..])
      {
        StreamStep(frameID, events, i, stream);
        stream := stream + Show(frameID, events[i]);
        if !GoesOn(events[i]) {
          return;
        }
        frameID := NextFid(frameID);
        i := i + 1;
      }
    }
  }

  lemma StreamStep(fid: uint32, events: seq<Event>, i: nat, shown: seq<Frame>)
    requires i < |events|
    ensures shown + Stream(fid, events[i..])
         == shown + Show(fid, events[i]) + if GoesOn(events[i]) then Stream(NextFid(fid), events[i + 1..]) else []
  {
    assert events[i..][1..] == events[i + 1..];
  }
}
