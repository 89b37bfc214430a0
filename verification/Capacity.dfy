/** The capacity checks in front of a request, and what becomes of the requests that pass them.
    (internal/deviceaccess/access_server/apprpc/apprpc.go) */
module Capacity {
  import opened Types
  import opened Codec
  import opened RestLike
  import opened SessionState

  /** `len(data) > int(BodyCapSize - n)` lets the data through; the subtraction is in 16 bits. */
  predicate Admitted(cap: uint16, n: uint16, data: Bytes) {
    |data| <= (cap - n) % 0x1_0000
  }

  /** `Get` and `Post` subtract the one byte of the response's header. */
  predicate GetAdmits(cap: uint16, data: Bytes) {
    Admitted(cap, HeadLen(CoResp), data)
  }

  predicate ObGetAdmits(cap: uint16, data: Bytes) {
    Admitted(cap, HeadLen(EstabReq), data)
  }

  /** A Get or Post is admitted if and only if its body exceeds the capacity of the session by at most four bytes.
      Then no length wraps, and the device accepts the header, except at capacity 4096 with 4092 to 4095 bytes of
      data: there the device takes the header for an error and drops the connection. */
  lemma AdmittedGet(cap: uint16, m: Message)
    requires Capacity(cap) && Typed(m) && m.kind == CoReq
    ensures GetAdmits(cap, m.data) <==> |Body(m)| <= cap + 4
    ensures GetAdmits(cap, m.data) ==> OverHeader(m, SERVER_SEND_REQ).bodyLen == |Body(m)|
    ensures GetAdmits(cap, m.data) ==>
      (DecodeHeader(Over(m, SERVER_SEND_REQ)).Ok? <==> !(cap == 4096 && |m.data| >= 4092))
  {
    hide DecodeHeader, HeaderBytes, Head, Over;
    if GetAdmits(cap, m.data) { HeaderOfRequest(m); }
  }

  /** An ObGet is admitted if and only if its body fits the capacity, and then the device accepts its header. */
  lemma AdmittedObGet(cap: uint16, m: Message)
    requires Capacity(cap) && Typed(m) && m.kind == EstabReq
    ensures ObGetAdmits(cap, m.data) <==> |Body(m)| <= cap
    ensures ObGetAdmits(cap, m.data) ==> OverHeader(m, SERVER_SEND_REQ).bodyLen == |Body(m)|
    ensures ObGetAdmits(cap, m.data) ==> DecodeHeader(Over(m, SERVER_SEND_REQ)).Ok?
  {
    hide DecodeHeader, HeaderBytes, Head, Over;
    if ObGetAdmits(cap, m.data) { HeaderOfRequest(m); }
  }

  lemma HeaderOfRequest(m: Message)
    requires |Body(m)| < 0x1_0000
    ensures OverHeader(m, SERVER_SEND_REQ).bodyLen == |Body(m)|
    ensures DecodeHeader(Over(m, SERVER_SEND_REQ)).Ok? <==> |Body(m)| <= BODY_MAX
  {
    hide DecodeHeader, HeaderBytes, Head;
    var h, buf := OverHeader(m, SERVER_SEND_REQ), Over(m, SERVER_SEND_REQ);
    assert |HeaderBytes(h)| == HEADER_LEN by { HeaderSize(h); }
    assert buf[..HEADER_LEN] == HeaderBytes(h);
    HeaderOnly(buf);
    HeaderAccepted(h);
  }

  lemma HeaderSize(h: Header)
    ensures |HeaderBytes(h)| == HEADER_LEN
  {
  }
}
