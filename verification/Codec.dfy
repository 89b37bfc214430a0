/** The 5-byte message header, the verify message and the ping message.  (pkg/deviceproto/codec.go) */
module Codec {
  import opened Types

  const HEADER_LEN := 5
  const VERSION: uint8 := 0
  const DEVICE_ID_LEN := 36
  const SECRET_MIN := 24
  const SECRET_MAX := 64
  const BODY_MAX := 4096
  const COLON: uint8 := 58

  const DEVICE_VERIFY_REQ: uint8 := 1
  const DEVICE_VERIFY_RESP: uint8 := 2
  const DEVICE_PING_REQ: uint8 := 3
  const DEVICE_PING_RESP: uint8 := 4
  const DEVICE_SEND_REQ: uint8 := 5
  const DEVICE_SEND_RESP: uint8 := 6
  const SERVER_SEND_REQ: uint8 := 7
  const SERVER_SEND_RESP: uint8 := 8

  const CODE_UNKNOWN: uint8 := 0
  const CODE_SUCCESS: uint8 := 1
  const CODE_VERIFY_FAIL: uint8 := 3
  const CODE_PARA_INVALID: uint8 := 4

  datatype Error = ExceedLength | NotEnough | LengthError | VerifyData | CapLevel

  datatype Header = Header(version: uint8, typ: uint8, id: uint16, bodyLen: uint16, code: uint8)

  /** The capacity that a two-bit level stands for: 512 bytes, doubled once per level. */
  function GetCapSize(level: uint8): (r: Result<uint16, Error>)
    ensures level <= 3 ==> r.Ok? && r.value == 512 * Pow2(level)
    ensures level > 3 ==> r == Err(CapLevel)
  {
    assert Pow2(1) == 2 && Pow2(2) == 4 && Pow2(3) == 8;
    if level > 3 then Err(CapLevel) else Ok([512, 1024, 2048, 4096][level])
  }

  // ----- shifts and masks on unsigned bytes and words -----

  function High(x: uint16): uint8 {
    x / 0x100
  }

  function Low(x: uint16): uint8 {
    x % 0x100
  }

  function Join(hi: uint8, lo: uint8): uint16 {
    hi * 0x100 + lo
  }

  /** (type << 4) & 0xF0 + (version << 3) & 0x80 + code & 0x07, in 8 bits. */
  function FirstByte(h: Header): uint8 {
    ((h.typ % 0x10) * 0x10 + (h.version * 8 % 0x100) / 0x80 * 0x80 + h.code % 8) % 0x100
  }

  function HeaderBytes(h: Header): Bytes {
    [FirstByte(h), High(h.id), Low(h.id), High(h.bodyLen), Low(h.bodyLen)]
  }

  function DecodeHeader(buf: Bytes): Result<Header, Error> {
    if |buf| < HEADER_LEN then Err(NotEnough)
    else
      var h := Header(buf[0] / 8 % 2, buf[0] / 0x10, Join(buf[1], buf[2]), Join(buf[3], buf[4]), buf[0] % 8);
      if h.bodyLen > BODY_MAX then Err(ExceedLength) else Ok(h)
  }

  /** The part of a buffer from `lo` on becomes `bytes`, the rest stays. */
  predicate Written(before: Bytes, after: Bytes, lo: nat, bytes: Bytes) {
    && lo + |bytes| <= |before| == |after|
    && after[lo..lo + |bytes|] == bytes
    && after[..lo] == before[..lo]
    && after[lo + |bytes|..] == before[lo + |bytes|..]
  }

  /** Encodes into the slice buf[lo..hi]. */
  method EncodeHeader(h: Header, buf: array<uint8>, lo: nat, hi: nat) returns (err: Option<Error>)
    requires lo <= hi <= buf.Length
    modifies buf
    ensures err == if hi - lo < HEADER_LEN then Some(NotEnough) else None
    ensures err.Some? ==> buf[..] == old(buf[..])
    ensures err.None? ==> Written(old(buf[..]), buf[..], lo, HeaderBytes(h))
  {
    if hi - lo < HEADER_LEN {
      return Some(NotEnough);
    }
    buf[lo] := FirstByte(h);
    buf[lo + 1] := High(h.id);
    buf[lo + 2] := Low(h.id);
    buf[lo + 3] := High(h.bodyLen);
    buf[lo + 4] := Low(h.bodyLen);
    err := None;
  }

  // ----- the header -----

  /** A header that the encoder and the decoder agree on. */
  predicate Sound(h: Header) {
    h.version == 0 && h.typ < 0x10 && h.code < 8 && h.bodyLen <= BODY_MAX
  }

  lemma WordRoundTrip(x: uint16)
    ensures Join(High(x), Low(x)) == x
  {
  }

  lemma JoinSplits(hi: uint8, lo: uint8)
    ensures High(Join(hi, lo)) == hi && Low(Join(hi, lo)) == lo
  {
  }

  /** The decoder reads back the low bits of type and code, and version 0 whatever version was written. */
  lemma FirstByteBits(h: Header)
    ensures FirstByte(h) / 8 % 2 == 0
    ensures FirstByte(h) % 8 == h.code % 8
    ensures h.version == 0 ==> FirstByte(h) / 0x10 == h.typ % 0x10
  {
    var top := (h.version * 8 % 0x100) / 0x80;
    assert 0 <= top <= 1;
    var sum := (h.typ % 0x10) * 0x10 + top * 0x80 + h.code % 8;
    if sum >= 0x100 {
      assert FirstByte(h) == sum - 0x100;
    } else {
      assert FirstByte(h) == sum;
    }
  }

  /** Decoding undoes encoding for exactly the headers of version 0 with a 4-bit type, a 3-bit code and a body
      of at most 4096 bytes: the version bit is masked away when it is written. */
  lemma HeaderRoundTrip(h: Header)
    ensures DecodeHeader(HeaderBytes(h)) == Ok(h) <==> Sound(h)
  {
    hide FirstByte, High, Low, Join;
    FirstByteBits(h);
    WordRoundTrip(h.id);
    WordRoundTrip(h.bodyLen);
  }

  /** The decoder refuses a header for its length only. */
  lemma HeaderAccepted(h: Header)
    ensures DecodeHeader(HeaderBytes(h)).Ok? <==> h.bodyLen <= BODY_MAX
  {
    hide FirstByte, High, Low, Join;
    WordRoundTrip(h.bodyLen);
  }

  /** The decoder's fields and errors, in plain numbers. */
  lemma HeaderFields(buf: Bytes)
    ensures DecodeHeader(buf) == Err(NotEnough) <==> |buf| < 5
    ensures DecodeHeader(buf) == Err(ExceedLength) <==> |buf| >= 5 && buf[3] as int * 256 + buf[4] > 4096
    ensures DecodeHeader(buf).Ok? ==>
      var h := DecodeHeader(buf).value;
      && h.typ == buf[0] / 16 && h.version == buf[0] / 8 % 2 && h.code == buf[0] % 8
      && h.id == buf[1] as int * 256 + buf[2] && h.bodyLen == buf[3] as int * 256 + buf[4]
  {
  }

  lemma VersionMask(v: uint8)
    ensures v * 8 % 256 / 128 == v / 16 % 2
  {
    var e, o, r := v / 16 / 2, v / 16 % 2, v % 16;
    assert v == 32 * e + 16 * o + r;
    ByteOf(e, 128 * o + 8 * r);
  }

  lemma ByteOf(e: nat, x: nat)
    requires x < 256
    ensures (256 * e + x) % 256 == x
  {
  }

  /** Of the version only bit 4 is ever written, into the top bit of the type. */
  lemma VersionBit(h: Header)
    ensures FirstByte(h) == ((h.typ % 16) * 16 + h.code % 8 + if h.version / 16 % 2 == 1 then 128 else 0) % 256
  {
    VersionMask(h.version);
  }

  lemma FirstByteAgain(b: uint8, h: Header)
    requires h.version == b / 8 % 2 && h.typ == b / 0x10 && h.code == b % 8
    ensures FirstByte(h) == b <==> h.version == 0
  {
    var q := b / 8;
    assert b == q * 8 + b % 8 && q / 2 == b / 0x10;
    FirstByteBits(h);
    if h.version == 0 {
      assert FirstByte(h) == (b / 0x10) * 0x10 + b % 8;
    }
  }

  /** Encoding undoes decoding for exactly the buffers without the version bit. */
  lemma HeaderInverse(buf: Bytes)
    requires DecodeHeader(buf).Ok?
    ensures HeaderBytes(DecodeHeader(buf).value) == buf[..HEADER_LEN] <==> DecodeHeader(buf).value.version == 0
  {
    hide FirstByte, High, Low, Join;
    var h := DecodeHeader(buf).value;
    FirstByteAgain(buf[0], h);
    JoinSplits(buf[1], buf[2]);
    JoinSplits(buf[3], buf[4]);
    assert HeaderBytes(h)[1..] == buf[..HEADER_LEN][1..];
    assert HeaderBytes(h)[0] == buf[0] <==> h.version == 0;
    assert HeaderBytes(h) == [HeaderBytes(h)[0]] + HeaderBytes(h)[1..];
    assert buf[..HEADER_LEN] == [buf[0]] + buf[..HEADER_LEN][1..];
  }

  // ----- the verify message -----

  datatype VerifyReq = VerifyReq(capLevel: uint8, deviceID: Bytes, secret: Bytes)

  /** The position of the first occurrence of c, or -1. */
  function Index(s: Bytes, c: uint8): (p: int)
    ensures -1 <= p < |s|
    ensures p == -1 ==> c !in s
    ensures p >= 0 ==> s[p] == c && c !in s[..p]
  {
    if s == [] then -1
    else if s[0] == c then 0
    else
      var p := Index(s[1..], c);
      if p == -1 then -1 else p + 1
  }

  function VerifyData(req: VerifyReq): Bytes {
    req.deviceID + [COLON] + req.secret
  }

  function VerifyBody(req: VerifyReq): Bytes {
    [req.capLevel % 4 * 0x40] + VerifyData(req)
  }

  /** The encoder checks the total length only. */
  predicate VerifyEncodable(req: VerifyReq) {
    DEVICE_ID_LEN + SECRET_MIN <= |req.deviceID| + |req.secret| <= DEVICE_ID_LEN + SECRET_MAX
  }

  function DecodeVerifyData(level: uint8, data: Bytes): Result<VerifyReq, Error> {
    var p := Index(data, COLON);
    if p != DEVICE_ID_LEN then Err(Error.VerifyData)
    else
      var secret := data[p + 1..];
      if |secret| < SECRET_MIN || |secret| > SECRET_MAX then Err(Error.VerifyData)
      else Ok(VerifyReq(level, data[..p], secret))
  }

  function DecodeVerifyReqBody(buf: Bytes): Result<VerifyReq, Error> {
    if |buf| < DEVICE_ID_LEN + SECRET_MIN + 1 then Err(NotEnough)
    else if |buf| > 1 + DEVICE_ID_LEN + 1 + SECRET_MAX then Err(ExceedLength)
    else DecodeVerifyData(buf[0] / 0x40, buf[1..])
  }

  function DecodeVerifyReq(buf: Bytes): Result<VerifyReq, Error> {
    if |buf| < HEADER_LEN + DEVICE_ID_LEN + SECRET_MIN + 1 then Err(NotEnough)
    else if |buf| > HEADER_LEN + 1 + DEVICE_ID_LEN + 1 + SECRET_MAX then Err(ExceedLength)
    else
      match DecodeHeader(buf)
      case Err(e) => Err(e)
      case Ok(_) => DecodeVerifyData(buf[HEADER_LEN] / 0x40, buf[HEADER_LEN + 1..])
  }

  /** Encodes into a fresh buffer; the header comes back with the length that was written. */
  method EncodeVerifyReq(h: Header, req: VerifyReq) returns (r: Result<array<uint8>, Error>, h': Header)
    ensures r.Ok? <==> VerifyEncodable(req)
    ensures r.Err? ==> r.error == Error.VerifyData && h' == h
    ensures r.Ok? ==> fresh(r.value) && h' == h.(bodyLen := |VerifyBody(req)|)
    ensures r.Ok? ==> r.value[..] == HeaderBytes(h') + VerifyBody(req)
  {
    var data := req.deviceID + [COLON] + req.secret;
    var bodyLen := |data| + 1;
    if bodyLen < 1 + DEVICE_ID_LEN + 1 + SECRET_MIN || bodyLen > 1 + DEVICE_ID_LEN + 1 + SECRET_MAX {
      return Err(Error.VerifyData), h;
    }
    var buf := new uint8[HEADER_LEN + bodyLen](_ => 0);
    buf[HEADER_LEN] := req.capLevel % 4 * 0x40;
    forall i | 0 <= i < |data| {
      buf[HEADER_LEN + 1 + i] := data[i];
    }
    h' := h.(bodyLen := bodyLen);
    assert buf[HEADER_LEN..] == VerifyBody(req);
    var err := EncodeHeader(h', buf, 0, buf.Length);
    assert buf[..] == buf[..HEADER_LEN] + buf[HEADER_LEN..];
    return Ok(buf), h';
  }

  /** A request that both ends agree on: a 36-byte id without a colon, a secret of 24 to 64 bytes, which may
      contain colons, and a two-bit level. */
  predicate VerifyOk(req: VerifyReq) {
    |req.deviceID| == 36 && 58 !in req.deviceID && 24 <= |req.secret| <= 64 && req.capLevel < 4
  }

  /** What the encoder and the decoder refuse, and why: a total length that cannot be right, a body that is too short
      or too long, and data whose first colon is not after 36 bytes or whose secret is too short or too long. */
  lemma VerifyErrors(req: VerifyReq, buf: Bytes)
    ensures VerifyEncodable(req) <==> 60 <= |req.deviceID| + |req.secret| <= 100
    ensures DecodeVerifyReqBody(buf) == Err(NotEnough) <==> |buf| < 61
    ensures DecodeVerifyReqBody(buf) == Err(ExceedLength) <==> |buf| > 102
    ensures DecodeVerifyReqBody(buf).Ok? <==>
      62 <= |buf| <= 102 && buf[37] == 58 && 58 !in buf[1..37]
    ensures DecodeVerifyReqBody(buf).Ok? ==>
      DecodeVerifyReqBody(buf).value == VerifyReq(buf[0] / 64, buf[1..37], buf[38..])
  {
    if |buf| > 37 {
      var data := buf[1..];
      assert data[..36] == buf[1..37] && data[37..] == buf[38..];
      if 58 !in buf[1..37] && buf[37] == 58 {
        assert data == buf[1..37] + [COLON] + buf[38..];
        IndexOfFirst(buf[1..37], buf[38..]);
      }
    }
  }

  lemma {:induction false} IndexOfFirst(s: Bytes, t: Bytes)
    requires COLON !in s
    ensures Index(s + [COLON] + t, COLON) == |s|
  {
    if s != [] {
      assert (s + [COLON] + t)[1..] == s[1..] + [COLON] + t;
      IndexOfFirst(s[1..], t);
    }
  }

  /** Decoding a verify body undoes encoding for exactly the requests above. */
  lemma VerifyRoundTrip(req: VerifyReq)
    requires VerifyEncodable(req)
    ensures DecodeVerifyReqBody(VerifyBody(req)) == Ok(req) <==> VerifyOk(req)
  {
    var data := VerifyData(req);
    assert VerifyBody(req)[1..] == data;
    if VerifyOk(req) {
      IndexOfFirst(req.deviceID, req.secret);
      assert data[..DEVICE_ID_LEN] == req.deviceID && data[DEVICE_ID_LEN + 1..] == req.secret;
    }
    if DecodeVerifyReqBody(VerifyBody(req)) == Ok(req) {
      assert req.deviceID == data[..DEVICE_ID_LEN];
    }
  }

  /** Every accepted body re-encodes to itself, except that the six reserved bits of its first byte are cleared;
      and what it decodes to is a request that both ends agree on. */
  lemma VerifyInverse(buf: Bytes)
    requires DecodeVerifyReqBody(buf).Ok?
    ensures VerifyOk(DecodeVerifyReqBody(buf).value)
    ensures VerifyBody(DecodeVerifyReqBody(buf).value) == [buf[0] / 0x40 * 0x40] + buf[1..]
  {
    var data := buf[1..];
    assert data == data[..DEVICE_ID_LEN] + [COLON] + data[DEVICE_ID_LEN + 1..];
  }

  /** Decoding a whole buffer agrees with decoding its header and then its body: it fails when the header does,
      and otherwise gives the result of the body, errors included. */
  lemma VerifyReqIsHeaderThenBody(buf: Bytes)
    requires |buf| >= HEADER_LEN
    ensures DecodeHeader(buf).Err? ==> DecodeVerifyReq(buf).Err?
    ensures DecodeHeader(buf).Ok? ==> DecodeVerifyReq(buf) == DecodeVerifyReqBody(buf[HEADER_LEN..])
  {
    if |buf| > HEADER_LEN {
      assert buf[HEADER_LEN..][1..] == buf[HEADER_LEN + 1..];
    }
  }

  // ----- the ping message -----

  function PingBody(timeout: uint16): Bytes {
    if timeout == 0 then [] else [High(timeout), Low(timeout)]
  }

  /** Decodes a body that was read to the length the header announced. */
  function DecodePingReqBody(body: Bytes): Result<uint16, Error> {
    if |body| == 0 then Ok(0)
    else if |body| == 2 then Ok(Join(body[0], body[1]))
    else Err(LengthError)
  }

  method EncodePingReq(h: Header, timeout: uint16) returns (buf: array<uint8>, h': Header)
    ensures fresh(buf) && h' == h.(bodyLen := |PingBody(timeout)|)
    ensures buf[..] == HeaderBytes(h') + PingBody(timeout)
  {
    var bodyLen := 0;
    if timeout != 0 {
      bodyLen := 2;
    }
    buf := new uint8[HEADER_LEN + bodyLen](_ => 0);
    if bodyLen == 2 {
      buf[HEADER_LEN] := High(timeout);
      buf[HEADER_LEN + 1] := Low(timeout);
    }
    h' := h.(bodyLen := bodyLen);
    assert buf[HEADER_LEN..] == PingBody(timeout);
    var err := EncodeHeader(h', buf, 0, buf.Length);
    assert buf[..] == buf[..HEADER_LEN] + buf[HEADER_LEN..];
  }

  /** Every timeout survives the round trip; the only other accepted body is the two-byte zero. */
  lemma PingRoundTrip(timeout: uint16, body: Bytes)
    ensures DecodePingReqBody(PingBody(timeout)) == Ok(timeout)
    ensures DecodePingReqBody(body) == Ok(timeout) ==> body == PingBody(timeout) || (timeout == 0 && body == [0, 0])
  {
    hide High, Low, Join;
    WordRoundTrip(timeout);
    if |body| == 2 {
      JoinSplits(body[0], body[1]);
      assert body == [body[0], body[1]];
      assert High(0) == 0 && Low(0) == 0 by { WordZero(); }
    }
  }

  lemma WordZero()
    ensures High(0) == 0 && Low(0) == 0
  {
  }
}
