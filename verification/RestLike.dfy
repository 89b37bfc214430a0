/** The REST-like messages and their layering over the 5-byte header.  (pkg/deviceproto/codec_restlike.go) */
module RestLike {
  import opened Types
  import opened Codec

  const METHOD_GET: uint8 := 1
  const METHOD_POST: uint8 := 2
  const METHOD_OBSERVE: uint8 := 3

  /** The six kinds of message. */
  datatype Kind = CoReq | CoResp | EstabReq | EstabResp | NotifyReq | NotifyResp

  /** Any message: the fields that its kind does not have are 0 or empty. */
  datatype Message = Message(kind: Kind, headerID: uint16, verb: uint8, code: uint8,
      obID: uint16, uri: uint32, data: Bytes)

  function HeadLen(k: Kind): nat {
    match k
    case CoReq => 5
    case CoResp => 1
    case EstabReq => 7
    case EstabResp => 3
    case NotifyReq => 3
    case NotifyResp => 3
  }

  predicate HasData(k: Kind) {
    k != EstabResp && k != NotifyResp
  }

  predicate HasCode(k: Kind) {
    k != CoReq && k != EstabReq
  }

  predicate HasOb(k: Kind) {
    k != CoReq && k != CoResp
  }

  predicate HasUri(k: Kind) {
    k == CoReq || k == EstabReq
  }

  /** A value of the Go type of its kind. */
  predicate Typed(m: Message) {
    && (!HasData(m.kind) ==> m.data == [])
    && (!HasCode(m.kind) ==> m.code == 0)
    && (!HasOb(m.kind) ==> m.obID == 0)
    && (!HasUri(m.kind) ==> m.uri == 0)
  }

  function UriBytes(uri: uint32): Bytes {
    [uri / 0x100_0000, uri / 0x1_0000 % 0x100, uri / 0x100 % 0x100, uri % 0x100]
  }

  function JoinUri(b0: uint8, b1: uint8, b2: uint8, b3: uint8): uint32 {
    b0 * 0x100_0000 + b1 * 0x1_0000 + b2 * 0x100 + b3
  }

  function VerbByte(m: Message): uint8 {
    (m.verb % 0x10) * 0x10 + if HasCode(m.kind) then m.code % 0x10 else 0
  }

  /** The fixed part of a body. */
  function Head(m: Message): (b: Bytes)
    ensures |b| == HeadLen(m.kind)
  {
    [VerbByte(m)]
    + (if HasOb(m.kind) then [High(m.obID), Low(m.obID)] else [])
    + (if HasUri(m.kind) then UriBytes(m.uri) else [])
  }

  function Body(m: Message): Bytes {
    Head(m) + m.data
  }

  function DecodeMethod(buf: Bytes): Result<uint8, Error> {
    if |buf| < 1 then Err(NotEnough) else Ok(buf[0] / 0x10)
  }

  /** The decoder of each kind; the header id comes from the header. */
  function Decode(k: Kind, headerID: uint16, buf: Bytes): Result<Message, Error> {
    if |buf| < HeadLen(k) then Err(NotEnough)
    else
      var at := if HasOb(k) then 3 else 1;
      Ok(Message(k, headerID, buf[0] / 0x10,
                 if HasCode(k) then buf[0] % 0x10 else 0,
                 if HasOb(k) then Join(buf[1], buf[2]) else 0,
                 if HasUri(k) then JoinUri(buf[at], buf[at + 1], buf[at + 2], buf[at + 3]) else 0,
                 if HasData(k) then buf[HeadLen(k)..] else []))
  }

  // ----- encoding in place -----

  /** `copy(buf[lo:], data)` for a slice that is long enough. */
  method Copy(buf: array<uint8>, lo: nat, data: Bytes)
    requires lo + |data| <= buf.Length
    modifies buf
    ensures Written(old(buf[..]), buf[..], lo, data)
  {
    forall i | 0 <= i < |data| {
      buf[lo + i] := data[i];
    }
    assert buf[lo..lo + |data|] == data;
  }

  lemma WrittenTwice(b0: Bytes, b1: Bytes, b2: Bytes, lo: nat, x: Bytes, y: Bytes)
    requires Written(b0, b1, lo, x) && Written(b1, b2, lo + |x|, y)
    ensures Written(b0, b2, lo, x + y)
  {
    var mid, end := lo + |x|, lo + |x| + |y|;
    assert b2[lo..mid] == b2[..mid][lo..] == b1[..mid][lo..] == b1[lo..mid];
    assert b2[lo..end] == b2[lo..mid] + b2[mid..end];
    assert b2[..lo] == b2[..mid][..lo] == b1[..mid][..lo] == b1[..lo];
    assert b1[end..] == b1[mid..][|y|..] == b0[mid..][|y|..] == b0[end..];
  }

  method PutByte(buf: array<uint8>, at: nat, b: uint8)
    requires at < buf.Length
    modifies buf
    ensures Written(old(buf[..]), buf[..], at, [b])
  {
    buf[at] := b;
  }

  method PutObID(buf: array<uint8>, at: nat, id: uint16)
    requires at + 2 <= buf.Length
    modifies buf
    ensures Written(old(buf[..]), buf[..], at, [High(id), Low(id)])
  {
    buf[at] := High(id);
    buf[at + 1] := Low(id);
    assert buf[at..at + 2] == [High(id), Low(id)];
  }

  method PutUri(buf: array<uint8>, at: nat, uri: uint32)
    requires at + 4 <= buf.Length
    modifies buf
    ensures Written(old(buf[..]), buf[..], at, UriBytes(uri))
  {
    buf[at] := uri / 0x100_0000;
    buf[at + 1] := uri / 0x1_0000 % 0x100;
    buf[at + 2] := uri / 0x100 % 0x100;
    buf[at + 3] := uri % 0x100;
    assert buf[at..at + 4] == UriBytes(uri);
  }

  /** Encodes a body into the slice buf[lo..hi], field by field. */
  method Encode(m: Message, buf: array<uint8>, lo: nat, hi: nat) returns (err: Option<Error>)
    requires lo <= hi <= buf.Length && Typed(m)
    modifies buf
    ensures err == if hi - lo < |Body(m)| then Some(NotEnough) else None
    ensures err.Some? ==> buf[..] == old(buf[..])
    ensures err.None? ==> Written(old(buf[..]), buf[..], lo, Body(m))
  {
    if hi - lo < HeadLen(m.kind) + |m.data| {
      return Some(NotEnough);
    }
    EncodeHead(m, buf, lo);
    label headed:
    Copy(buf, lo + HeadLen(m.kind), m.data);
    WrittenTwice(old(buf[..]), old@headed(buf[..]), buf[..], lo, Head(m), m.data);
    err := None;
  }

  method EncodeHead(m: Message, buf: array<uint8>, lo: nat)
    requires lo + HeadLen(m.kind) <= buf.Length
    modifies buf
    ensures Written(old(buf[..]), buf[..], lo, Head(m))
  {
    ghost var before, done := buf[..], [VerbByte(m)];
    PutByte(buf, lo, VerbByte(m));
    var at := 1;
    if HasOb(m.kind) {
      ghost var between := buf[..];
      PutObID(buf, lo + at, m.obID);
      WrittenTwice(before, between, buf[..], lo, done, [High(m.obID), Low(m.obID)]);
      done := done + [High(m.obID), Low(m.obID)];
      at := 3;
    }
    if HasUri(m.kind) {
      ghost var between := buf[..];
      PutUri(buf, lo + at, m.uri);
      WrittenTwice(before, between, buf[..], lo, done, UriBytes(m.uri));
      done := done + UriBytes(m.uri);
    }
    assert done == Head(m);
  }

  /** The header that the layered encoders write; the length is computed in 16 bits. */
  function OverHeader(m: Message, typ: uint8): Header {
    Header(VERSION, typ, m.headerID, (HeadLen(m.kind) + |m.data| % 0x1_0000) % 0x1_0000, CODE_SUCCESS)
  }

  function Over(m: Message, typ: uint8): Bytes {
    HeaderBytes(OverHeader(m, typ)) + Body(m)
  }

  /** The layered form of every encoder: the body first, then the header in front of it. */
  method EncodeOver(m: Message, typ: uint8, buf: array<uint8>) returns (err: Option<Error>)
    requires Typed(m)
    modifies buf
    ensures err == if buf.Length < HEADER_LEN + |Body(m)| then Some(NotEnough) else None
    ensures err.Some? ==> buf[..] == old(buf[..])
    ensures err.None? ==> Written(old(buf[..]), buf[..], 0, Over(m, typ))
  {
    if buf.Length < HEADER_LEN + HeadLen(m.kind) + |m.data| {
      return Some(NotEnough);
    }
    ghost var before := buf[..];
    err := Encode(m, buf, HEADER_LEN, buf.Length);
    ghost var between := buf[..];
    err := EncodeHeader(OverHeader(m, typ), buf, 0, HEADER_LEN);
    LayersWritten(before, between, buf[..], HeaderBytes(OverHeader(m, typ)), Body(m));
  }

  lemma LayersWritten(b0: Bytes, b1: Bytes, b2: Bytes, h: Bytes, body: Bytes)
    requires Written(b0, b1, |h|, body) && Written(b1, b2, 0, h)
    ensures Written(b0, b2, 0, h + body)
  {
    var mid, end := |h|, |h| + |body|;
    assert b2[mid..end] == b2[mid..][..|body|] == b1[mid..][..|body|] == b1[mid..end] == body;
    assert b2[..end] == b2[..mid] + b2[mid..end];
    assert b2[end..] == b2[mid..][|body|..] == b1[mid..][|body|..] == b1[end..];
  }

  /** `sendCoReq` and its likes: a buffer whose size the server computes in 16 bits, filled and ready to send.
      Only data of at least 64 KiB less the two headers makes the sum wrap, and then nothing is sent. */
  method ServerMessage(m: Message, typ: uint8) returns (r: Result<array<uint8>, Error>)
    requires Typed(m)
    ensures r.Ok? <==> HEADER_LEN + |Body(m)| < 0x1_0000
    ensures r.Ok? ==> fresh(r.value) && r.value[..] == Over(m, typ)
  {
    var size := (HEADER_LEN + HeadLen(m.kind) + |m.data| % 0x1_0000) % 0x1_0000;
    var buf := new uint8[size](_ => 0);
    var err := EncodeOver(m, typ, buf);
    if err.Some? {
      return Err(err.value);
    }
    assert buf[..] == buf[0..|Over(m, typ)|];
    r := Ok(buf);
  }

  /** The same on the device, which computes the size without wrap-around: any message is sent. */
  method DeviceMessage(m: Message, typ: uint8) returns (buf: array<uint8>)
    requires Typed(m)
    ensures fresh(buf) && buf[..] == Over(m, typ)
  {
    buf := new uint8[HEADER_LEN + HeadLen(m.kind) + |m.data|](_ => 0);
    var _ := EncodeOver(m, typ, buf);
    assert buf[..] == buf[0..|Over(m, typ)|];
  }

  // ----- round trips -----

  /** The fields fit their bits. */
  predicate InRange(m: Message) {
    Typed(m) && m.verb < 0x10 && m.code < 0x10
  }

  lemma UriRoundTrip(uri: uint32)
    ensures var b := UriBytes(uri); JoinUri(b[0], b[1], b[2], b[3]) == uri
  {
    var a, b := uri / 0x100, uri / 0x1_0000;
    assert uri == a * 0x100 + uri % 0x100;
    assert a == b * 0x100 + a % 0x100;
    assert b == uri / 0x100_0000 * 0x100 + b % 0x100;
  }

  /** Decoding a body undoes encoding for exactly the messages whose method and status fit four bits, and the
      reader dispatches on the method that was written. */
  lemma BodyRoundTrip(m: Message)
    requires Typed(m)
    ensures Decode(m.kind, m.headerID, Body(m)) == Ok(m) <==> InRange(m)
    ensures m.verb < 0x10 ==> DecodeMethod(Body(m)) == Ok(m.verb)
  {
    hide High, Low, Join, UriBytes, JoinUri;
    VerbBits(m);
    assert Body(m)[0] == VerbByte(m);
    assert Body(m)[HeadLen(m.kind)..] == m.data;
    if HasOb(m.kind) {
      assert Body(m)[1] == High(m.obID) && Body(m)[2] == Low(m.obID);
      WordRoundTrip(m.obID);
    }
    if HasUri(m.kind) {
      UriInBody(m);
      UriRoundTrip(m.uri);
    }
  }

  /** The decoders refuse a body that is shorter than the fixed part of its kind, and nothing else. */
  lemma DecodeErrors(k: Kind, id: uint16, buf: Bytes)
    ensures DecodeMethod(buf) == Err(NotEnough) <==> buf == []
    ensures Decode(k, id, buf) == Err(NotEnough) <==>
      |buf| < match k { case CoReq => 5 case CoResp => 1 case EstabReq => 7 case _ => 3 }
    ensures buf != [] ==> DecodeMethod(buf).Ok?
    ensures Decode(k, id, buf).Err? ==> Decode(k, id, buf) == Err(NotEnough)
  {
  }

  lemma UriInBody(m: Message)
    requires Typed(m) && HasUri(m.kind)
    ensures |UriBytes(m.uri)| == 4
    ensures var at := if HasOb(m.kind) then 3 else 1;
      Body(m)[at] == UriBytes(m.uri)[0] && Body(m)[at + 1] == UriBytes(m.uri)[1]
      && Body(m)[at + 2] == UriBytes(m.uri)[2] && Body(m)[at + 3] == UriBytes(m.uri)[3]
  {
  }

  lemma VerbBits(m: Message)
    ensures VerbByte(m) / 0x10 == m.verb % 0x10
    ensures HasCode(m.kind) ==> VerbByte(m) % 0x10 == m.code % 0x10
  {
  }

  /** What a peer makes of a buffer that holds one layered message. */
  function Receive(k: Kind, buf: Bytes): Result<(Header, Message), Error> {
    match DecodeHeader(buf)
    case Err(e) => Err(e)
    case Ok(h) =>
      if |buf| != HEADER_LEN + h.bodyLen then Err(LengthError)
      else
        match Decode(k, h.id, buf[HEADER_LEN..])
        case Err(e) => Err(e)
        case Ok(m) => Ok((h, m))
  }

  /** A layered message comes back with its own type, id and length exactly when its fields are in range, the
      type fits four bits and the body has at most 4096 bytes. */
  lemma LayeredRoundTrip(m: Message, typ: uint8)
    requires Typed(m)
    ensures Receive(m.kind, Over(m, typ)) == Ok((Header(0, typ, m.headerID, |Body(m)| % 0x1_0000, CODE_SUCCESS), m))
       <==> InRange(m) && typ < 0x10 && |Body(m)| <= BODY_MAX
  {
    hide FirstByte, High, Low, Head, Decode;
    var h, buf := OverHeader(m, typ), Over(m, typ);
    assert h.bodyLen == |Body(m)| % 0x1_0000;
    assert buf[..HEADER_LEN] == HeaderBytes(h) && buf[HEADER_LEN..] == Body(m);
    HeaderOnly(buf);
    HeaderRoundTrip(h);
    BodyRoundTrip(m);
    if DecodeHeader(buf).Ok? && |Body(m)| > BODY_MAX {
      ReceiveLength(m, typ);
    }
  }

  lemma HeaderOnly(buf: Bytes)
    requires |buf| >= HEADER_LEN
    ensures DecodeHeader(buf) == DecodeHeader(buf[..HEADER_LEN])
  {
  }

  lemma ReceiveLength(m: Message, typ: uint8)
    requires Typed(m) && DecodeHeader(Over(m, typ)).Ok? && |Body(m)| > BODY_MAX
    ensures Receive(m.kind, Over(m, typ)).Err?
  {
  }
}
