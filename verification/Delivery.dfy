/** What each side queues, and what becomes of it: from the messages as they are meant, over the bytes on the
    connection, to the handlers of the other side.  (session.go, devicesession.go, codec.go, codec_restlike.go) */
module Delivery {
  import opened Types
  import opened Codec
  import opened RestLike
  import opened Framing

  const STATUS_OK: uint8 := 2

  /** A message as its sender means it. */
  datatype Sent =
    | Verify(id: uint16, req: VerifyReq)
    | Verdict(id: uint16, code: uint8)
    | Ping(id: uint16, timeout: uint16)
    | Pong(id: uint16, code: uint8)
    | Rest(typ: uint8, m: Message)

  predicate IsRequest(typ: uint8) {
    typ == DEVICE_SEND_REQ || typ == SERVER_SEND_REQ
  }

  /** The kind of request that the reader's switch on the method finds. */
  function Dispatch(typ: uint8, verb: uint8): Option<Kind> {
    if verb == METHOD_GET || verb == METHOD_POST then Some(CoReq)
    else if verb == METHOD_OBSERVE then Some(if typ == DEVICE_SEND_REQ then NotifyReq else EstabReq)
    else None
  }

  /** What the code of one side can queue for the reader of the other.  Nothing checks the length of a body but
      the server's 16-bit sizes, and the verification's encoder checks a total length only. */
  predicate Queues(reader: Side, o: Sent) {
    match o
    case Verify(_, req) => reader == Server && VerifyEncodable(req) && req.capLevel < 4
    case Verdict(_, code) => reader == Device && code < 8
    case Ping(_, _) => reader == Server
    case Pong(_, code) => reader == Device && code < 8
    case Rest(typ, m) =>
      && InRange(m)
      && (reader == Device ==> HEADER_LEN + |Body(m)| < 0x1_0000)
      && Built(reader, typ, m)
  }

  /** What the functions of the peer put together: a Get or Post with a CoReq from either side, a notification from
      the device, an establish request from the server, and the responses to each. */
  predicate Built(reader: Side, typ: uint8, m: Message) {
    match m.kind
    case CoReq => (m.verb == 1 || m.verb == 2) && typ == (if reader == Server then 5 else 7)
    case NotifyReq => m.verb == 3 && reader == Server && typ == 5
    case EstabReq => m.verb == 3 && reader == Device && typ == 7
    case CoResp => (m.verb == 1 || m.verb == 2) && typ == (if reader == Server then 8 else 6)
    case EstabResp => m.verb == 3 && reader == Server && typ == 8
    case NotifyResp => m.verb == 3 && reader == Device && typ == 6
  }

  /** The message is one that the reader's decoders can take: a body of at most 4096 bytes, a well-formed id and
      secret. */
  predicate Fits(o: Sent) {
    match o
    case Verify(_, req) => VerifyOk(req)
    case Rest(_, m) => |Body(m)| <= BODY_MAX
    case _ => true
  }

  /** The bytes that the encoders write: all of the body, behind a header whose length has 16 bits. */
  function FrameOf(o: Sent): Frame {
    match o
    case Verify(id, req) =>
      Frame(Header(VERSION, DEVICE_VERIFY_REQ, id, |VerifyBody(req)| % 0x1_0000, CODE_UNKNOWN), VerifyBody(req))
    case Verdict(id, code) => Frame(Header(VERSION, DEVICE_VERIFY_RESP, id, 0, code), [])
    case Ping(id, timeout) =>
      Frame(Header(VERSION, DEVICE_PING_REQ, id, |PingBody(timeout)|, CODE_UNKNOWN), PingBody(timeout))
    case Pong(id, code) => Frame(Header(VERSION, DEVICE_PING_RESP, id, 0, code), [])
    case Rest(typ, m) => Frame(OverHeader(m, typ), Body(m))
  }

  /** What a handler makes of a frame; `awaited` is the kind of response that the caller with this id waits for. */
  function Meaning(f: Frame, awaited: Kind): Option<Sent> {
    var h := f.header;
    if h.typ == DEVICE_VERIFY_REQ then
      var r := DecodeVerifyReqBody(f.body);
      if r.Ok? then Some(Verify(h.id, r.value)) else None
    else if h.typ == DEVICE_VERIFY_RESP then Some(Verdict(h.id, h.code))
    else if h.typ == DEVICE_PING_REQ then
      var r := DecodePingReqBody(f.body);
      if r.Ok? then Some(Ping(h.id, r.value)) else None
    else if h.typ == DEVICE_PING_RESP then Some(Pong(h.id, h.code))
    else if IsRequest(h.typ) then
      var verb := DecodeMethod(f.body);
      if verb.Err? then None
      else
        var kind := Dispatch(h.typ, verb.value);
        if kind.None? then None else MeaningOfRest(f, kind.value)
    else MeaningOfRest(f, awaited)
  }

  function MeaningOfRest(f: Frame, kind: Kind): Option<Sent> {
    var r := Decode(kind, f.header.id, f.body);
    if r.Ok? then Some(Rest(f.header.typ, r.value)) else None
  }

  /** What the caller waits for whom a response answers; for anything else it does not matter. */
  function Awaited(o: Sent): Kind {
    if o.Rest? && o.m.kind != CoReq && o.m.kind != NotifyReq && o.m.kind != EstabReq then o.m.kind else CoResp
  }

  /** The encoders write exactly the bytes of the frame. */
  method Encoded(reader: Side, o: Sent) returns (buf: array<uint8>)
    requires Queues(reader, o)
    ensures fresh(buf) && buf[..] == FrameBytes(FrameOf(o))
  {
    hide HeaderBytes, Body, OverHeader, Dispatch, VerifyBody, PingBody;
    match o
    case Verify(id, req) =>
      var r, _ := EncodeVerifyReq(Header(VERSION, DEVICE_VERIFY_REQ, id, 0, CODE_UNKNOWN), req);
      buf := r.value;
    case Ping(id, timeout) =>
      var b, _ := EncodePingReq(Header(VERSION, DEVICE_PING_REQ, id, 0, CODE_UNKNOWN), timeout);
      buf := b;
    case Verdict(id, code) =>
      buf := EncodeBare(Header(VERSION, DEVICE_VERIFY_RESP, id, 0, code));
    case Pong(id, code) =>
      buf := EncodeBare(Header(VERSION, DEVICE_PING_RESP, id, 0, code));
    case Rest(typ, m) =>
      if reader == Device {
        var r := ServerMessage(m, typ);
        buf := r.value;
      } else {
        buf := DeviceMessage(m, typ);
      }
  }

  /** `EncodeVerifyResp` and `EncodePingResp`: a header alone. */
  method EncodeBare(h: Header) returns (buf: array<uint8>)
    ensures fresh(buf) && buf[..] == HeaderBytes(h)
  {
    buf := new uint8[HEADER_LEN](_ => 0);
    var _ := EncodeHeader(h, buf, 0, HEADER_LEN);
    assert buf[..] == buf[0..HEADER_LEN];
  }

  // ----- the wire format -----

  function Word(x: uint16): Bytes {
    [x / 256, x % 256]
  }

  function Quad(x: uint32): Bytes {
    [x / 16777216, x / 65536 % 256, x / 256 % 256, x % 256]
  }

  /** The messages as the protocol's description draws them, in plain numbers: type and code share the first byte,
      then id and length, then the body of each kind. */
  function Drawn(o: Sent): Bytes
    requires o.Verify? ==> VerifyEncodable(o.req) && o.req.capLevel < 4
    requires o.Verdict? || o.Pong? ==> o.code < 8
    requires o.Rest? ==> o.typ < 16 && InRange(o.m)
  {
    match o
    case Verify(id, req) =>
      [16] + Word(id) + Word(|req.deviceID| + |req.secret| + 2) + [req.capLevel * 64] + req.deviceID + [58] + req.secret
    case Verdict(id, code) => [32 + code] + Word(id) + [0, 0]
    case Ping(id, timeout) => [48] + Word(id) + if timeout == 0 then [0, 0] else [0, 2] + Word(timeout)
    case Pong(id, code) => [64 + code] + Word(id) + [0, 0]
    case Rest(typ, m) => [typ * 16 + 1] + Word(m.headerID) + Word(|DrawnBody(m)| % 65536) + DrawnBody(m)
  }

  function DrawnBody(m: Message): Bytes
    requires InRange(m)
  {
    match m.kind
    case CoReq => [m.verb * 16] + Quad(m.uri) + m.data
    case CoResp => [m.verb * 16 + m.code] + m.data
    case EstabReq => [m.verb * 16] + Word(m.obID) + Quad(m.uri) + m.data
    case EstabResp => [m.verb * 16 + m.code] + Word(m.obID)
    case NotifyReq => [m.verb * 16 + m.code] + Word(m.obID) + m.data
    case NotifyResp => [m.verb * 16 + m.code] + Word(m.obID)
  }

  lemma BodyAsDrawn(m: Message)
    requires InRange(m)
    ensures Body(m) == DrawnBody(m)
  {
  }

  lemma HeaderAsDrawn(h: Header)
    requires h.version == 0 && h.typ < 16 && h.code < 8
    ensures HeaderBytes(h) == [h.typ * 16 + h.code] + Word(h.id) + Word(h.bodyLen)
  {
    VersionBit(h);
  }

  /** Whatever either side queues goes onto the wire as it is drawn. */
  lemma WireFormat(reader: Side, o: Sent)
    requires Queues(reader, o)
    ensures FrameBytes(FrameOf(o)) == Drawn(o)
  {
    hide HeaderBytes, VerifyBody, PingBody, Body, DrawnBody;
    match o
    case Verify(id, req) => VerifyAsDrawn(id, req);
    case Ping(id, timeout) => PingAsDrawn(id, timeout);
    case Verdict(id, code) => HeaderAsDrawn(FrameOf(o).header);
    case Pong(id, code) => HeaderAsDrawn(FrameOf(o).header);
    case Rest(typ, m) => RestAsDrawn(reader, o);
  }

  lemma VerifyAsDrawn(id: uint16, req: VerifyReq)
    requires VerifyEncodable(req) && req.capLevel < 4
    ensures FrameBytes(FrameOf(Verify(id, req))) == Drawn(Verify(id, req))
  {
    hide HeaderBytes, Word;
    HeaderAsDrawn(FrameOf(Verify(id, req)).header);
    assert |VerifyBody(req)| == |req.deviceID| + |req.secret| + 2;
  }

  lemma PingAsDrawn(id: uint16, timeout: uint16)
    ensures FrameBytes(FrameOf(Ping(id, timeout))) == Drawn(Ping(id, timeout))
  {
    hide HeaderBytes;
    HeaderAsDrawn(FrameOf(Ping(id, timeout)).header);
    assert Word(0) == [0, 0] && Word(2) == [0, 2];
    assert PingBody(timeout) == if timeout == 0 then [] else Word(timeout);
  }

  lemma RestAsDrawn(reader: Side, o: Sent)
    requires Queues(reader, o) && o.Rest?
    ensures FrameBytes(FrameOf(o)) == Drawn(o)
  {
    hide Body, DrawnBody, HeaderBytes, Word;
    BodyAsDrawn(o.m);
    BodyLength(o.m);
    HeaderAsDrawn(OverHeader(o.m, o.typ));
    assert OverHeader(o.m, o.typ).bodyLen == |Body(o.m)| % 65536;
  }

  /** A request of any other method is not handled, and is no error. */
  lemma OnlyThreeMethods(typ: uint8, verb: uint8)
    ensures Dispatch(typ, verb).None? <==> verb != 1 && verb != 2 && verb != 3
  {
  }

  /** The types that each reader takes, by number. */
  lemma TypesTaken(h: Header)
    ensures Refuses(Server, h) <==> h.typ !in [1, 3, 5, 8]
    ensures Refuses(Device, h) <==> h.typ !in [2, 4, 6, 7] || ((h.typ == 2 || h.typ == 4) && h.code != 1)
    ensures Skips(Device, h) <==> (h.typ == 2 || h.typ == 4) && h.code == 1
  {
  }

  // ----- one message -----

  /** A verdict of the server that ends the session. */
  predicate BadNews(o: Sent) {
    (o.Verdict? || o.Pong?) && o.code != CODE_SUCCESS
  }

  /** The length that the header announces. */
  function Announced(o: Sent): nat {
    FrameOf(o).header.bodyLen
  }

  /** The frame that the reader gets: as much of the body as was announced. */
  function Seen(o: Sent): Frame
    requires Announced(o) <= |FrameOf(o).body|
  {
    Frame(FrameOf(o).header, FrameOf(o).body[..Announced(o)])
  }

  lemma AnnouncedLength(reader: Side, o: Sent)
    requires Queues(reader, o)
    ensures Announced(o) == |FrameOf(o).body| % 0x1_0000 <= |FrameOf(o).body|
    ensures Fits(o) ==> Announced(o) == |FrameOf(o).body| <= BODY_MAX
  {
    hide InRange, Dispatch;
  }

  lemma HeaderOfQueued(reader: Side, o: Sent)
    requires Queues(reader, o)
    ensures var h := FrameOf(o).header;
      && (Announced(o) <= BODY_MAX ==> Sound(h))
      && (Refuses(reader, h) <==> BadNews(o)) && (BadNews(o) ==> Announced(o) == 0)
      && (Skips(reader, h) ==> Announced(o) == 0)
  {
    hide Body, InRange, Dispatch;
  }

  /** What the reader makes of any message that the peer can queue, whatever follows it: bad news ends the session,
      an announced length over 4096 is malformed, and otherwise it takes the announced part of the body. */
  lemma NextOfQueued(reader: Side, o: Sent, rest: Bytes)
    requires Queues(reader, o)
    ensures Announced(o) <= |FrameOf(o).body|
    ensures Next(reader, FrameBytes(FrameOf(o)) + rest)
         == if BadNews(o) then Stopped(Refused)
            else if Announced(o) > BODY_MAX then Stopped(Malformed)
            else Got(Seen(o), HEADER_LEN + Announced(o))
  {
    hide FirstByte, High, Low, Sound, DecodeHeader, FrameOf, Queues, Skips, ReadsBody;
    var f := FrameOf(o);
    var s := FrameBytes(f) + rest;
    AnnouncedLength(reader, o);
    HeaderOfQueued(reader, o);
    assert s[..HEADER_LEN] == HeaderBytes(f.header);
    assert s[HEADER_LEN..HEADER_LEN + Announced(o)] == f.body[..Announced(o)];
    HeaderRoundTrip(f.header);
    HeaderAccepted(f.header);
  }

  /** The handler that gets the announced part of a message understands what was meant if and only if the message
      fits: requests are dispatched on their method to the decoder of the right kind, responses are decoded as the
      kind that the waiting caller expects. */
  lemma MeaningSurvives(reader: Side, o: Sent)
    requires Queues(reader, o) && Announced(o) <= |FrameOf(o).body| && Announced(o) <= BODY_MAX
    ensures Meaning(Seen(o), Awaited(o)) == Some(o) <==> Fits(o)
  {
    match o
    case Verify(_, _) => VerifySurvives(reader, o);
    case Ping(_, timeout) => PingRoundTrip(timeout, []);
    case Verdict(_, _) =>
    case Pong(_, _) =>
    case Rest(_, _) => if Fits(o) { RestSurvives(reader, o); } else { RestIsCut(reader, o); }
  }

  lemma VerifySurvives(reader: Side, o: Sent)
    requires Queues(reader, o) && o.Verify? && Announced(o) <= |FrameOf(o).body|
    ensures Meaning(Seen(o), Awaited(o)) == Some(o) <==> Fits(o)
  {
    hide DecodeVerifyReqBody;
    assert |VerifyBody(o.req)| % 0x1_0000 == |VerifyBody(o.req)|;
    assert Seen(o).body == VerifyBody(o.req);
    VerifyRoundTrip(o.req);
  }

  lemma RestSurvives(reader: Side, o: Sent)
    requires Queues(reader, o) && o.Rest? && Fits(o) && Announced(o) <= |FrameOf(o).body|
    ensures Meaning(Seen(o), Awaited(o)) == Some(o)
  {
    hide Body, Decode, DecodeMethod;
    AnnouncedLength(reader, o);
    assert Seen(o).body == Body(o.m);
    BodyRoundTrip(o.m);
  }

  lemma RestIsCut(reader: Side, o: Sent)
    requires Queues(reader, o) && o.Rest? && !Fits(o) && Announced(o) <= |FrameOf(o).body|
    requires Announced(o) <= BODY_MAX
    ensures Meaning(Seen(o), Awaited(o)) != Some(o)
  {
    hide InRange, DecodeMethod, Dispatch, Body, MeaningOfRest;
    forall kind ensures MeaningOfRest(Seen(o), kind) != Some(o) { LessIsOther(Seen(o), o, kind); }
  }

  /** What is decoded from a part of a body has less data. */
  lemma LessIsOther(f: Frame, o: Sent, kind: Kind)
    requires o.Rest? && |f.body| < |Body(o.m)|
    ensures MeaningOfRest(f, kind) != Some(o)
  {
    hide Body, Decode;
    BodyLength(o.m);
    if Decode(kind, f.header.id, f.body).Ok? { DecodedData(kind, f.header.id, f.body); }
  }

  lemma BodyLength(m: Message)
    ensures |Body(m)| == HeadLen(m.kind) + |m.data|
  {
  }

  lemma DecodedData(k: Kind, id: uint16, body: Bytes)
    requires Decode(k, id, body).Ok?
    ensures Decode(k, id, body).value.kind == k
    ensures |Decode(k, id, body).value.data| <= |body| - HeadLen(k)
  {
  }

  // ----- a sequence of messages -----

  function Frames(os: seq<Sent>): (fs: seq<Frame>)
    ensures |fs| == |os| && forall i :: 0 <= i < |os| ==> fs[i] == FrameOf(os[i])
  {
    if os == [] then [] else [FrameOf(os[0])] + Frames(os[1..])
  }

  /** The bytes that a sequence of messages puts on the connection. */
  function Wire(os: seq<Sent>): Bytes {
    FramesBytes(Frames(os))
  }

  lemma WireUnfold(os: seq<Sent>)
    ensures Wire(os) == if os == [] then [] else FrameBytes(FrameOf(os[0])) + Wire(os[1..])
  {
    hide FrameBytes, FrameOf, FramesBytes;
    FramesUnfold(Frames(os));
    if os != [] { assert Frames(os)[1..] == Frames(os[1..]); }
  }

  /** The position of the first message that does not fit, or the length. */
  function Misfit(os: seq<Sent>): (n: nat)
    ensures n <= |os|
    ensures forall i :: 0 <= i < n ==> Fits(os[i])
    ensures n < |os| ==> !Fits(os[n])
  {
    if os == [] || !Fits(os[0]) then 0
    else
      assert forall i :: 0 < i < |os| ==> os[i] == os[1..][i - 1];
      1 + Misfit(os[1..])
  }

  predicate AllQueue(reader: Side, os: seq<Sent>) {
    forall o :: o in os ==> Queues(reader, o)
  }

  /** Each of the first n frames means what was sent. */
  predicate Meant(frames: seq<Frame>, os: seq<Sent>, n: nat) {
    forall i {:trigger frames[i]} :: 0 <= i < n && i < |frames| && i < |os| ==>
      Meaning(frames[i], Awaited(os[i])) == Some(os[i])
  }

  /** What becomes of the messages: before the first that does not fit, each one that is handled has its meaning.
      That one is either malformed, which ends the session, or its announced part is handled in its place, and then
      the rest of its body is read as headers.  `whole` says that nothing was cut off the stream. */
  predicate Outcome(r: Reading, os: seq<Sent>, fine: nat -> bool, k: nat, whole: bool) {
    var n, m := Misfit(os), |r.frames|;
    && Meant(r.frames, os, n)
    && (m > n ==> n < |os| && SeenAs(os[n], r.frames[n]))
    && (m <= n && r.stop == Malformed ==> m == n < |os| && Announced(os[n]) > BODY_MAX)
    && (m <= n && r.stop == Refused ==> m < |os| && BadNews(os[m]))
    && (m <= n && r.stop == Failed ==> !fine(k + m))
    && (m <= n && r.stop == Short && whole ==> m == |os|)
  }

  predicate SeenAs(o: Sent, f: Frame) {
    Announced(o) <= BODY_MAX && Announced(o) <= |FrameOf(o).body| && f == Seen(o)
  }

  lemma OutcomeOfNext(reader: Side, os: seq<Sent>, fine: nat -> bool, k: nat)
    requires os != [] && Queues(reader, os[0])
    ensures var o, r := os[0], ReadAll(reader, Wire(os), fine, k);
      && (BadNews(o) ==> r == Reading([], 0, Refused))
      && (!BadNews(o) && Announced(o) > BODY_MAX ==> r == Reading([], 0, Malformed))
      && (!BadNews(o) && Announced(o) <= BODY_MAX ==> Announced(o) <= |FrameOf(o).body|)
      && (!BadNews(o) && Announced(o) <= BODY_MAX && !fine(k) ==> r == Reading([], 0, Failed))
      && (!BadNews(o) && Announced(o) <= BODY_MAX && fine(k) ==> r.frames != [] && r.frames[0] == Seen(o))
  {
    hide Next, ReadAll, FrameBytes, FrameOf, Wire, Queues, BadNews;
    WireUnfold(os);
    NextOfQueued(reader, os[0], Wire(os[1..]));
    OneRound(reader, Wire(os), fine, k);
  }

  /** A message that fits and is accepted is handled, and reading goes on behind it. */
  lemma FitGoesOn(reader: Side, os: seq<Sent>, fine: nat -> bool, k: nat)
    requires os != [] && Queues(reader, os[0]) && Fits(os[0]) && !BadNews(os[0]) && fine(k)
    ensures var r := ReadAll(reader, Wire(os[1..]), fine, k + 1); var f := FrameOf(os[0]);
      ReadAll(reader, Wire(os), fine, k) == Reading([f] + r.frames, |FrameBytes(f)| + r.used, r.stop)
    ensures Meaning(FrameOf(os[0]), Awaited(os[0])) == Some(os[0])
  {
    hide Next, ReadAll, FrameOf, Wire, Queues, BadNews, Fits, Meaning;
    var o := os[0];
    WireUnfold(os);
    NextOfQueued(reader, o, Wire(os[1..]));
    AnnouncedLength(reader, o);
    MeaningSurvives(reader, o);
    assert Seen(o) == FrameOf(o);
    OneRound(reader, Wire(os), fine, k);
    assert Wire(os)[|FrameBytes(FrameOf(o))|..] == Wire(os[1..]);
  }

  lemma OutcomeGoesOn(o: Sent, f: Frame, r: Reading, os: seq<Sent>, fine: nat -> bool, k: nat, used: nat)
    requires Outcome(r, os, fine, k + 1, true)
    requires Fits(o) && Meaning(f, Awaited(o)) == Some(o)
    ensures Outcome(Reading([f] + r.frames, used, r.stop), [o] + os, fine, k, true)
  {
    hide Fits, Meaning, SeenAs, BadNews, Announced;
    var all, frames := [o] + os, [f] + r.frames;
    assert all[1..] == os;
    assert Misfit(all) == 1 + Misfit(os);
    forall i {:trigger frames[i]} | 0 <= i < Misfit(all) && i < |frames| && i < |all|
      ensures Meaning(frames[i], Awaited(all[i])) == Some(all[i])
    {
      if i > 0 { assert frames[i] == r.frames[i - 1] && all[i] == os[i - 1]; }
    }
  }

  lemma {:induction false} ReadsQueue(reader: Side, os: seq<Sent>, fine: nat -> bool, k: nat)
    requires AllQueue(reader, os)
    ensures Outcome(ReadAll(reader, Wire(os), fine, k), os, fine, k, true)
  {
    hide ReadAll, FrameOf, FrameBytes, Wire, Queues, BadNews, Fits, Meaning, Outcome;
    if os == [] {
      WireUnfold(os);
      EndOfStream(reader, fine, k);
      assert Outcome(Reading([], 0, Short), os, fine, k, true) by { NothingSent(fine, k); }
    } else if Fits(os[0]) && !BadNews(os[0]) && fine(k) {
      FitGoesOn(reader, os, fine, k);
      ReadsQueue(reader, os[1..], fine, k + 1);
      var r := ReadAll(reader, Wire(os[1..]), fine, k + 1);
      OutcomeGoesOn(os[0], FrameOf(os[0]), r, os[1..], fine, k, |FrameBytes(FrameOf(os[0]))| + r.used);
      assert os == [os[0]] + os[1..];
    } else {
      OutcomeOfNext(reader, os, fine, k);
      AnnouncedLength(reader, os[0]);
      OutcomeAtOnce(reader, ReadAll(reader, Wire(os), fine, k), os, fine, k);
    }
  }

  lemma NothingSent(fine: nat -> bool, k: nat)
    ensures Outcome(Reading([], 0, Short), [], fine, k, true)
  {
  }

  /** The first message does not fit, is bad news or is not accepted. */
  lemma OutcomeAtOnce(reader: Side, r: Reading, os: seq<Sent>, fine: nat -> bool, k: nat)
    requires os != [] && (!Fits(os[0]) || BadNews(os[0]) || !fine(k))
    requires Fits(os[0]) ==> Announced(os[0]) <= BODY_MAX
    requires BadNews(os[0]) ==> r == Reading([], 0, Refused)
    requires !BadNews(os[0]) && Announced(os[0]) > BODY_MAX ==> r == Reading([], 0, Malformed)
    requires !BadNews(os[0]) && Announced(os[0]) <= BODY_MAX && !fine(k) ==> r == Reading([], 0, Failed)
    requires !BadNews(os[0]) && Announced(os[0]) <= BODY_MAX && fine(k) ==>
      Announced(os[0]) <= |FrameOf(os[0]).body| && r.frames != [] && r.frames[0] == Seen(os[0])
    ensures Outcome(r, os, fine, k, true)
  {
    hide Announced, FrameOf, Seen, Meaning;
    assert BadNews(os[0]) ==> Fits(os[0]);
  }

  /** For every sequence of messages that one side can queue, of any length, and wherever the connection breaks:
      the outcome described above. */
  lemma EndToEnd(reader: Side, os: seq<Sent>, cut: nat, fine: nat -> bool)
    requires AllQueue(reader, os) && cut <= |Wire(os)|
    ensures Outcome(ReadAll(reader, Wire(os)[..cut], fine, 0), os, fine, 0, cut == |Wire(os)|)
  {
    hide AllQueue, ReadAll, Wire;
    ReadsQueue(reader, os, fine, 0);
    CutStream(reader, Wire(os), cut, fine, 0);
    var whole, r := ReadAll(reader, Wire(os), fine, 0), ReadAll(reader, Wire(os)[..cut], fine, 0);
    if cut == |Wire(os)| {
      assert Wire(os)[..cut] == Wire(os);
    } else {
      OutcomeOfPrefix(whole, r, os, fine);
    }
  }

  lemma OutcomeOfPrefix(whole: Reading, r: Reading, os: seq<Sent>, fine: nat -> bool)
    requires Outcome(whole, os, fine, 0, true) && r.frames <= whole.frames && (r.stop != Short ==> r == whole)
    ensures Outcome(r, os, fine, 0, false)
  {
    hide Meaning, SeenAs, BadNews, Announced, Misfit;
    var n := Misfit(os);
    forall i {:trigger r.frames[i]} | 0 <= i < n && i < |r.frames| && i < |os|
      ensures Meaning(r.frames[i], Awaited(os[i])) == Some(os[i])
    {
      assert r.frames[i] == whole.frames[i];
    }
  }

  // ----- exactly when everything arrives -----

  /** As many frames are handled as messages were sent, each with the meaning it was sent with. */
  predicate AllArrive(frames: seq<Frame>, os: seq<Sent>) {
    |frames| == |os| && Meant(frames, os, |os|)
  }

  predicate Deliverable(os: seq<Sent>, fine: nat -> bool) {
    forall i: nat {:trigger os[i]} :: i < |os| ==> Fits(os[i]) && !BadNews(os[i]) && fine(i)
  }

  /** Bad news, when it is handled at all, was refused. */
  lemma RefusedHasNoMeaning(reader: Side, o: Sent, f: Frame)
    requires Queues(reader, o) && BadNews(o) && !Refuses(reader, f.header)
    ensures Meaning(f, Awaited(o)) != Some(o)
  {
    hide Decode, DecodeMethod, Dispatch, DecodeVerifyReqBody;
  }

  /** On an unbroken stream everything that was queued arrives with its own meaning if and only if every message
      fits, none is bad news, and every handler accepts. */
  lemma AllArriveIffDeliverable(reader: Side, os: seq<Sent>, fine: nat -> bool)
    requires AllQueue(reader, os)
    ensures AllArrive(ReadAll(reader, Wire(os), fine, 0).frames, os) <==> Deliverable(os, fine)
  {
    hide ReadAll, Wire;
    var r := ReadAll(reader, Wire(os), fine, 0);
    ReadsQueue(reader, os, fine, 0);
    if Deliverable(os, fine) { DeliverableArrives(r, os, fine); }
    if AllArrive(r.frames, os) {
      HandledArePassed(reader, Wire(os), fine, 0);
      ArrivedIsDeliverable(reader, r.frames, r, os, fine);
    }
  }

  lemma DeliverableArrives(r: Reading, os: seq<Sent>, fine: nat -> bool)
    requires Outcome(r, os, fine, 0, true) && Deliverable(os, fine)
    ensures AllArrive(r.frames, os)
  {
    hide Meaning, Announced, FrameOf;
    var n, m := Misfit(os), |r.frames|;
    DeliverableAt(os, fine, n);
    DeliverableAt(os, fine, m);
  }

  lemma DeliverableAt(os: seq<Sent>, fine: nat -> bool, i: nat)
    requires Deliverable(os, fine)
    ensures i < |os| ==> Fits(os[i]) && !BadNews(os[i]) && fine(0 + i)
  {
  }

  lemma ArrivedIsDeliverable(reader: Side, frames: seq<Frame>, r: Reading, os: seq<Sent>, fine: nat -> bool)
    requires AllQueue(reader, os) && Outcome(r, os, fine, 0, true) && frames == r.frames
    requires AllArrive(frames, os) && AllPassed(reader, frames, fine, 0)
    ensures Deliverable(os, fine)
  {
    hide Meaning, Fits, BadNews, Queues, FrameOf, Announced, Refuses;
    var n := Misfit(os);
    if n < |os| {
      assert SeenAs(os[n], frames[n]) && Meaning(frames[n], Awaited(os[n])) == Some(os[n]);
      MeaningSurvives(reader, os[n]);
    }
    forall i: nat {:trigger os[i]} | i < |os| ensures Fits(os[i]) && !BadNews(os[i]) && fine(i) {
      assert !Refuses(reader, frames[i].header) && fine(0 + i);
      if BadNews(os[i]) { RefusedHasNoMeaning(reader, os[i], frames[i]); }
    }
  }

  // ----- a handler that returns 65535 bytes -----

  /** The answer to a Get whose handler returned 65535 zero bytes. */
  function BigAnswer(id: uint16): Message {
    Message(CoResp, id, METHOD_GET, STATUS_OK, 0, 0, seq(0xFFFF, i => 0))
  }

  /** The device queues it, its header announces no body, and the server's reader takes the first bytes of the body
      for the header of a verification. */
  lemma BigAnswerIsReadAsHeaders(id: uint16, fine: nat -> bool)
    requires fine(0) && fine(1)
    ensures var o := Rest(SERVER_SEND_RESP, BigAnswer(id)); var fs := ReadAll(Server, Wire([o]), fine, 0).frames;
      && Queues(Server, o) && Announced(o) == 0
      && |fs| >= 2 && fs[0] == Frame(FrameOf(o).header, [])
      && fs[1] == Frame(Header(0, DEVICE_VERIFY_REQ, 0, 0, STATUS_OK), [])
  {
    hide ReadAll, Next, FrameBytes, FramesBytes;
    var o := Rest(SERVER_SEND_RESP, BigAnswer(id));
    var body := Body(BigAnswer(id));
    BigBody(id);
    WireUnfold([o]);
    assert [o][1..] == [];
    WireUnfold([]);
    assert Wire([o]) == FrameBytes(FrameOf(o)) + [];
    NextOfQueued(Server, o, []);
    OneRound(Server, Wire([o]), fine, 0);
    assert FrameBytes(FrameOf(o))[HEADER_LEN..] == body by { BodyBehindHeader(FrameOf(o)); }
    assert Wire([o])[HEADER_LEN..] == body;
    NextOfZeros(body);
    OneRound(Server, body, fine, 1);
  }

  lemma BigBody(id: uint16)
    ensures var b := Body(BigAnswer(id)); |b| == 0x1_0000 && b[..HEADER_LEN] == [0x12, 0, 0, 0, 0]
    ensures Queues(Server, Rest(SERVER_SEND_RESP, BigAnswer(id)))
  {
  }

  lemma BodyBehindHeader(f: Frame)
    ensures FrameBytes(f)[HEADER_LEN..] == f.body
  {
  }

  lemma NextOfZeros(body: Bytes)
    requires |body| >= HEADER_LEN && body[..HEADER_LEN] == [0x12, 0, 0, 0, 0]
    ensures Next(Server, body) == Got(Frame(Header(0, DEVICE_VERIFY_REQ, 0, 0, STATUS_OK), []), HEADER_LEN)
  {
  }

  // ----- from queue to handler -----

  method EncodeAll(reader: Side, os: seq<Sent>) returns (bufs: seq<Bytes>)
    requires AllQueue(reader, os)
    ensures bufs == Buffers(Frames(os))
  {
    hide Queues, FrameBytes, FrameOf, Buffers, Frames;
    ghost var all := Buffers(Frames(os));
    assert |all| == |os|;
    bufs := [];
    for i := 0 to |os|
      invariant bufs == all[..i]
    {
      var buf := Encoded(reader, os[i]);
      ghost var bytes := buf[..];
      assert all[i] == FrameBytes(Frames(os)[i]) == bytes;
      assert all[..i + 1] == all[..i] + [bytes];
      bufs := bufs + [buf[..]];
    }
    assert all[..|os|] == all;
  }

  /** Writes buffers to a connection and reads what arrives at its other end. */
  method Transfer(reader: Side, bufs: seq<Bytes>, plan: nat -> (nat, bool), fine: nat -> bool)
    returns (r: Reading, failed: bool, ghost cut: nat)
    requires forall k: nat :: plan(k).1 || plan(k).0 > 0
    ensures cut <= |Concat(bufs)| && r == ReadAll(reader, Concat(bufs)[..cut], fine, 0)
    ensures !failed ==> cut == |Concat(bufs)|
    ensures (forall k: nat :: !plan(k).1) ==> !failed
  {
    hide Concat, ReadAll;
    var sender := new Outbound(plan);
    failed := sender.Outgoing(bufs);
    cut := |sender.wire|;
    assert sender.wire == Concat(bufs)[..cut];
    var receiver := new Inbound(sender.wire);
    r := receiver.Incoming(reader, fine);
    assert receiver.stream[0..] == sender.wire;
  }

  /** Everything that one side queues is encoded, written to a connection that may write piecemeal and may fail,
      and read by the other side, with the outcome described above.  If no write fails, everything arrives with its
      own meaning if and only if it all fits, none is bad news and every handler accepts. */
  method QueueToHandler(reader: Side, os: seq<Sent>, plan: nat -> (nat, bool), fine: nat -> bool)
    returns (r: Reading, failed: bool)
    requires AllQueue(reader, os)
    requires forall k: nat :: plan(k).1 || plan(k).0 > 0
    ensures Outcome(r, os, fine, 0, false)
    ensures !failed ==> Outcome(r, os, fine, 0, true) && (AllArrive(r.frames, os) <==> Deliverable(os, fine))
    ensures (forall k: nat :: !plan(k).1) ==> !failed
  {
    hide AllQueue, Concat, ReadAll, Buffers, Outcome, AllArrive, Deliverable;
    var bufs := EncodeAll(reader, os);
    var reading, bad, cut := Transfer(reader, bufs, plan, fine);
    EndToEnd(reader, os, cut, fine);
    AllArriveIffDeliverable(reader, os, fine);
    WholeIsMore(reading, os, fine);
    assert Wire(os)[..|Wire(os)|] == Wire(os);
    return reading, bad;
  }

  lemma WholeIsMore(r: Reading, os: seq<Sent>, fine: nat -> bool)
    ensures Outcome(r, os, fine, 0, true) ==> Outcome(r, os, fine, 0, false)
  {
    hide Meaning, SeenAs, BadNews, Announced, Misfit;
  }
}
