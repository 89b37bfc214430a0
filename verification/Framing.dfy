/** Messages written one after another on a connection and split apart again by the reader of the other end.
    (session.go, devicesession.go: tcpOutgoing, tcpIncomming; rtioutils.go: WriteFull) */
module Framing {
  import opened Types
  import opened Codec
  import opened RestLike

  datatype Side = Server | Device

  /** What a reader hands to its handlers. */
  datatype Frame = Frame(header: Header, body: Bytes)

  /** Short: the connection ended; Malformed: the header was refused; Refused: a type, or a verdict of the peer,
      that ends the session; Failed: the handler returned an error. */
  datatype Stop = Short | Malformed | Refused | Failed

  datatype Step = Stopped(why: Stop) | Got(frame: Frame, size: nat)

  /** The frames handled, the bytes they took, and why the loop ended. */
  datatype Reading = Reading(frames: seq<Frame>, used: nat, stop: Stop)

  // ----- the readers -----

  /** The branches that read a body of the announced length. */
  predicate ReadsBody(side: Side, h: Header) {
    match side
    case Server => h.typ in [DEVICE_VERIFY_REQ, DEVICE_PING_REQ, DEVICE_SEND_REQ, SERVER_SEND_RESP]
    case Device => h.typ in [SERVER_SEND_REQ, DEVICE_SEND_RESP]
  }

  /** The branches that go on without reading a body. */
  predicate Skips(side: Side, h: Header) {
    side == Device && h.typ in [DEVICE_VERIFY_RESP, DEVICE_PING_RESP] && h.code == CODE_SUCCESS
  }

  /** One round of the loop, up to the call of the handler. */
  function Next(side: Side, s: Bytes): Step {
    if |s| < HEADER_LEN then Stopped(Short)
    else
      match DecodeHeader(s[..HEADER_LEN])
      case Err(_) => Stopped(Malformed)
      case Ok(h) =>
        if Skips(side, h) then Got(Frame(h, []), HEADER_LEN)
        else if !ReadsBody(side, h) then Stopped(Refused)
        else if |s| < HEADER_LEN + h.bodyLen then Stopped(Short)
        else Got(Frame(h, s[HEADER_LEN..HEADER_LEN + h.bodyLen]), HEADER_LEN + h.bodyLen)
  }

  lemma NextFits(side: Side, s: Bytes)
    ensures Next(side, s).Got? ==> HEADER_LEN <= Next(side, s).size <= |s|
  {
    hide DecodeHeader;
  }

  /** The whole loop; `fine(k)` tells whether the handler accepts the k-th frame. */
  function ReadAll(side: Side, s: Bytes, fine: nat -> bool, k: nat): Reading
    decreases |s|
  {
    match Next(side, s)
    case Stopped(why) => Reading([], 0, why)
    case Got(f, n) =>
      if !fine(k) then Reading([], 0, Failed)
      else
        NextFits(side, s);
        var r := ReadAll(side, s[n..], fine, k + 1);
        Reading([f] + r.frames, n + r.used, r.stop)
  }

  lemma OneRound(side: Side, s: Bytes, fine: nat -> bool, k: nat)
    ensures var next := Next(side, s);
      && (next.Stopped? ==> ReadAll(side, s, fine, k) == Reading([], 0, next.why))
      && (next.Got? && !fine(k) ==> ReadAll(side, s, fine, k) == Reading([], 0, Failed))
      && (next.Got? && fine(k) ==> next.size <= |s|)
    ensures var next := Next(side, s);
      next.Got? && fine(k) ==>
        var r := ReadAll(side, s[next.size..], fine, k + 1);
        ReadAll(side, s, fine, k) == Reading([next.frame] + r.frames, next.size + r.used, r.stop)
  {
    hide Next;
    NextFits(side, s);
  }

  /** The receiving half of a connection: the bytes that arrive before it ends, and how many were read. */
  class Inbound {
    const stream: Bytes
    var pos: nat

    constructor (stream: Bytes)
      ensures this.stream == stream && pos == 0
    {
      this.stream := stream;
      pos := 0;
    }

    predicate Valid()
      reads this
    {
      pos <= |stream|
    }

    /** `io.ReadFull`: n bytes, or an error when the connection ends before them. */
    method ReadFull(n: nat) returns (r: Option<Bytes>)
      requires Valid()
      modifies this
      ensures Valid()
      ensures r.Some? <==> old(pos) + n <= |stream|
      ensures r.Some? ==> pos == old(pos) + n && r.value == stream[old(pos)..pos]
      ensures r.None? ==> pos == |stream|
    {
      if pos + n > |stream| {
        pos := |stream|;
        return None;
      }
      r := Some(stream[pos..pos + n]);
      pos := pos + n;
    }

    /** One round: a header, then a body where the branch reads one. */
    method ReadFrame(side: Side) returns (step: Step)
      requires Valid()
      modifies this
      ensures Valid() && step == Next(side, stream[old(pos)..])
      ensures step.Got? ==> pos == old(pos) + step.size
    {
      ghost var rest := stream[pos..];
      var head := ReadFull(HEADER_LEN);
      if head.None? {
        return Stopped(Short);
      }
      assert head.value == rest[..HEADER_LEN];
      var decoded := DecodeHeader(head.value);
      if decoded.Err? {
        return Stopped(Malformed);
      }
      var h := decoded.value;
      if Skips(side, h) {
        return Got(Frame(h, []), HEADER_LEN);
      }
      if !ReadsBody(side, h) {
        return Stopped(Refused);
      }
      var body := ReadFull(h.bodyLen);
      if body.None? {
        return Stopped(Short);
      }
      assert body.value == rest[HEADER_LEN..HEADER_LEN + h.bodyLen];
      step := Got(Frame(h, body.value), HEADER_LEN + h.bodyLen);
    }

    /** `tcpIncomming` of either side; the handler of the k-th frame is asked for its verdict in the loop. */
    method Incoming(side: Side, fine: nat -> bool) returns (r: Reading)
      requires Valid()
      modifies this
      ensures Valid() && r == ReadAll(side, stream[old(pos)..], fine, 0)
    {
      hide Next, ReadAll;
      var start := pos;
      var frames := [];
      while true
        invariant Valid() && start <= pos
        invariant var rest := ReadAll(side, stream[pos..], fine, |frames|);
          ReadAll(side, stream[start..], fine, 0) == Reading(frames + rest.frames, pos - start + rest.used, rest.stop)
        decreases |stream| - pos
      {
        var at := pos;
        NextFits(side, stream[at..]);
        OneRound(side, stream[at..], fine, |frames|);
        var step := ReadFrame(side);
        if step.Stopped? {
          return Reading(frames, at - start, step.why);
        }
        if !fine(|frames|) {
          return Reading(frames, at - start, Failed);
        }
        assert stream[at..][step.size..] == stream[pos..];
        frames := frames + [step.frame];
      }
    }
  }

  // ----- the writers -----

  /** The sending half of a connection: the bytes written, and what each call of Write will do: how much it
      writes at most, and whether it fails.  A call that does not fail makes progress. */
  class Outbound {
    const plan: nat -> (nat, bool)
    var calls: nat
    var wire: Bytes

    constructor (plan: nat -> (nat, bool))
      requires forall k: nat :: plan(k).1 || plan(k).0 > 0
      ensures this.plan == plan && Valid() && wire == []
    {
      this.plan := plan;
      calls := 0;
      wire := [];
    }

    ghost predicate Valid()
      reads this
    {
      forall k: nat :: plan(k).1 || plan(k).0 > 0
    }

    /** No call of Write from the lo-th up to the hi-th fails. */
    ghost predicate Clean(lo: nat, hi: nat) {
      forall k: nat :: lo <= k < hi ==> !plan(k).1
    }

    /** The calls from the lo-th on were clean up to the last, which failed. */
    ghost predicate FailedLast(lo: nat)
      reads this
    {
      lo < calls && plan(calls - 1).1 && Clean(lo, calls - 1)
    }

    method Write(p: Bytes) returns (n: nat, failed: bool)
      requires Valid()
      modifies this
      ensures Valid() && n <= |p| && wire == old(wire) + p[..n]
      ensures !failed && p != [] ==> n > 0
      ensures n == |p| || n == plan(old(calls)).0
      ensures failed == plan(old(calls)).1 && calls == old(calls) + 1
    {
      n := if plan(calls).0 < |p| then plan(calls).0 else |p|;
      failed := plan(calls).1;
      calls := calls + 1;
      wire := wire + p[..n];
    }

    /** Without an error everything was written; with one, the first n bytes were.  It is an error exactly when a
        write fails, and nothing is written after that. */
    method WriteFull(buf: Bytes) returns (n: nat, failed: bool)
      requires Valid()
      modifies this
      ensures Valid() && n <= |buf| && wire == old(wire) + buf[..n]
      ensures !failed ==> n == |buf|
      ensures old(calls) <= calls && if failed then FailedLast(old(calls)) else Clean(old(calls), calls)
    {
      n := 0;
      while n < |buf|
        invariant Valid() && n <= |buf| && wire == old(wire) + buf[..n]
        invariant old(calls) <= calls && Clean(old(calls), calls)
      {
        ghost var before := n;
        var m, bad := Write(buf[n..]);
        n := n + m;
        assert buf[..before] + buf[before..][..m] == buf[..n];
        if bad {
          return n, true;
        }
      }
      return n, false;
    }

    /** `tcpOutgoing` on the buffers queued for it: what reaches the connection is a prefix of their
        concatenation, and all of it unless a write failed. */
    method Outgoing(bufs: seq<Bytes>) returns (failed: bool)
      requires Valid()
      modifies this
      ensures Valid()
      ensures exists n :: 0 <= n <= |Concat(bufs)| && wire == old(wire) + Concat(bufs)[..n]
      ensures !failed ==> wire == old(wire) + Concat(bufs)
      ensures old(calls) <= calls && if failed then FailedLast(old(calls)) else Clean(old(calls), calls)
    {
      for i := 0 to |bufs|
        invariant Valid() && wire == old(wire) + Concat(bufs[..i])
        invariant old(calls) <= calls && Clean(old(calls), calls)
      {
        var n, bad := WriteFull(bufs[i]);
        ConcatSplit(bufs, i);
        ConcatSplit(bufs, i + 1);
        ghost var done := |Concat(bufs[..i])|;
        assert Concat(bufs)[..done + n] == Concat(bufs[..i]) + bufs[i][..n];
        if bad {
          return true;
        }
        assert bufs[i][..n] == bufs[i];
      }
      assert bufs[..|bufs|] == bufs;
      assert Concat(bufs)[..|Concat(bufs)|] == Concat(bufs);
      failed := false;
    }
  }

  function Concat(bufs: seq<Bytes>): Bytes {
    if bufs == [] then [] else bufs[0] + Concat(bufs[1..])
  }

  /** Everything before the i-th buffer, and the i-th buffer itself, lie one after another. */
  lemma {:induction false} ConcatSplit(bufs: seq<Bytes>, i: nat)
    requires i <= |bufs|
    ensures Concat(bufs[..i]) + Concat(bufs[i..]) == Concat(bufs)
    ensures i < |bufs| ==> Concat(bufs[..i + 1]) == Concat(bufs[..i]) + bufs[i]
  {
    if i > 0 {
      ConcatSplit(bufs[1..], i - 1);
      assert bufs[..i][1..] == bufs[1..][..i - 1];
      assert bufs[1..][i - 1..] == bufs[i..];
      Regroup(bufs[0], Concat(bufs[1..][..i - 1]), Concat(bufs[i..]));
      if i < |bufs| {
        assert bufs[..i + 1][1..] == bufs[1..][..i];
        Regroup(bufs[0], Concat(bufs[1..][..i - 1]), bufs[i]);
      }
    } else {
      assert bufs[0..] == bufs && bufs[..0] == [];
      if bufs != [] {
        assert bufs[..1][1..] == [] && Concat([]) == [];
      }
    }
  }

  lemma Regroup(x: Bytes, y: Bytes, z: Bytes)
    ensures (x + y) + z == x + (y + z)
  {
  }

  // ----- one frame -----

  function FrameBytes(f: Frame): Bytes {
    HeaderBytes(f.header) + f.body
  }

  /** A frame on which the reader ends the session by design. */
  predicate Refuses(side: Side, h: Header) {
    !Skips(side, h) && !ReadsBody(side, h)
  }

  /** A sound header of a type that the reader goes on with, and a body of the announced length; where the reader
      skips the body there is none. */
  predicate Readable(side: Side, f: Frame) {
    && Sound(f.header) && !Refuses(side, f.header)
    && if Skips(side, f.header) then f.body == [] else |f.body| == f.header.bodyLen
  }

  /** Whatever follows it, a frame is read back for exactly the readable frames, and then it takes all its bytes
      and no more. */
  lemma FrameRecovered(side: Side, f: Frame, rest: Bytes)
    ensures var next := Next(side, FrameBytes(f) + rest);
      && (next.Got? && next.frame == f <==> Readable(side, f))
      && (Readable(side, f) ==> next.size == |FrameBytes(f)|)
  {
    hide FirstByte, High, Low, Sound, DecodeHeader;
    var h, s := f.header, FrameBytes(f) + rest;
    assert s[..HEADER_LEN] == HeaderBytes(h);
    if |f.body| == h.bodyLen {
      assert s[HEADER_LEN..HEADER_LEN + h.bodyLen] == f.body;
    }
    HeaderRoundTrip(h);
  }

  /** A frame with a sound header and all its body, which the reader may still refuse. */
  predicate Emittable(side: Side, f: Frame) {
    |f.body| == f.header.bodyLen && Sound(f.header) && (Skips(side, f.header) ==> f.body == [])
  }

  lemma NextOfEmittable(side: Side, f: Frame, rest: Bytes)
    requires Emittable(side, f)
    ensures Next(side, FrameBytes(f) + rest)
         == if Refuses(side, f.header) then Stopped(Refused) else Got(f, |FrameBytes(f)|)
  {
    hide FirstByte, High, Low, Sound, DecodeHeader;
    var s := FrameBytes(f) + rest;
    FrameRecovered(side, f, rest);
    assert s[..HEADER_LEN] == HeaderBytes(f.header);
    HeaderRoundTrip(f.header);
  }

  // ----- the stream -----

  /** One buffer per frame. */
  function Buffers(fs: seq<Frame>): (bufs: seq<Bytes>)
    ensures |bufs| == |fs| && forall i :: 0 <= i < |fs| ==> bufs[i] == FrameBytes(fs[i])
  {
    if fs == [] then [] else [FrameBytes(fs[0])] + Buffers(fs[1..])
  }

  function FramesBytes(fs: seq<Frame>): Bytes {
    Concat(Buffers(fs))
  }

  lemma FramesUnfold(fs: seq<Frame>)
    ensures FramesBytes(fs) == if fs == [] then [] else FrameBytes(fs[0]) + FramesBytes(fs[1..])
  {
    hide FrameBytes;
    if fs != [] { assert Buffers(fs)[1..] == Buffers(fs[1..]); }
  }

  /** The leading frames that are readable and that their handlers accept. */
  function Leading(side: Side, fs: seq<Frame>, fine: nat -> bool, k: nat): (n: nat)
    ensures n <= |fs|
    ensures forall i: nat {:trigger fs[i]} :: i < n ==> Readable(side, fs[i]) && fine(k + i)
    ensures n < |fs| ==> !Readable(side, fs[n]) || !fine(k + n)
  {
    if fs == [] || !Readable(side, fs[0]) || !fine(k) then 0
    else
      var n := Leading(side, fs[1..], fine, k + 1);
      assert forall i: nat {:trigger fs[i]} :: 0 < i <= n ==> fs[i] == fs[1..][i - 1] && fine(k + 1 + (i - 1));
      n + 1
  }

  /** A first frame that is readable and accepted is read, and reading goes on behind it. */
  lemma StreamGoesOn(side: Side, fs: seq<Frame>, fine: nat -> bool, k: nat)
    requires fs != [] && Readable(side, fs[0]) && fine(k)
    ensures var r := ReadAll(side, FramesBytes(fs[1..]), fine, k + 1);
      ReadAll(side, FramesBytes(fs), fine, k) == Reading([fs[0]] + r.frames, |FrameBytes(fs[0])| + r.used, r.stop)
  {
    hide Readable, Next, FrameBytes, FramesBytes, ReadAll;
    var rest := FramesBytes(fs[1..]);
    FramesUnfold(fs);
    FrameRecovered(side, fs[0], rest);
    OneRound(side, FramesBytes(fs), fine, k);
    assert FramesBytes(fs)[|FrameBytes(fs[0])|..] == rest;
  }

  /** Otherwise the first frame is not recovered, and a whole one ends the reading. */
  lemma StreamStops(side: Side, fs: seq<Frame>, fine: nat -> bool, k: nat)
    requires fs != [] && (!Readable(side, fs[0]) || !fine(k))
    ensures var r := ReadAll(side, FramesBytes(fs), fine, k);
      && (r.frames == [] || r.frames[0] != fs[0])
      && (Emittable(side, fs[0]) ==> r == Reading([], 0, if Refuses(side, fs[0].header) then Refused else Failed))
  {
    hide Readable, Next, FrameBytes, FramesBytes, ReadAll, Emittable, Refuses;
    var rest := FramesBytes(fs[1..]);
    FramesUnfold(fs);
    FrameRecovered(side, fs[0], rest);
    OneRound(side, FramesBytes(fs), fine, k);
    if Emittable(side, fs[0]) {
      NextOfEmittable(side, fs[0], rest);
      EmittableIsReadable(side, fs[0]);
    }
  }

  /** Reading what was written, for any frames at all: the leading readable frames are recovered, each taking all
      its bytes; everything is recovered if and only if every frame is readable and every handler accepts; and a
      next frame that is whole but refused or failed ends the reading there, so that no boundary is lost. */
  lemma {:induction false} StreamRecovered(side: Side, fs: seq<Frame>, fine: nat -> bool, k: nat)
    ensures var r := ReadAll(side, FramesBytes(fs), fine, k); var n := Leading(side, fs, fine, k);
      && fs[..n] <= r.frames
      && (r.frames == fs <==> n == |fs|)
      && (n == |fs| ==> r == Reading(fs, |FramesBytes(fs)|, Short))
      && (n < |fs| && Emittable(side, fs[n]) ==>
            r == Reading(fs[..n], |FramesBytes(fs[..n])|, if Refuses(side, fs[n].header) then Refused else Failed))
  {
    hide Emittable, Refuses, FrameBytes, FramesBytes, Readable, ReadAll, Leading;
    LeadingUnfold(side, fs, fine, k);
    FramesUnfold(fs);
    assert fs[..0] == [] && FramesBytes([]) == [] by { FramesUnfold([]); }
    if fs == [] {
      EndOfStream(side, fine, k);
    } else if Readable(side, fs[0]) && fine(k) {
      StreamGoesOn(side, fs, fine, k);
      StreamRecovered(side, fs[1..], fine, k + 1);
      var n := Leading(side, fs[1..], fine, k + 1);
      assert fs[..n + 1] == [fs[0]] + fs[1..][..n] && fs[..n + 1][1..] == fs[1..][..n];
      assert fs == [fs[0]] + fs[1..];
      FramesUnfold(fs[..n + 1]);
    } else {
      StreamStops(side, fs, fine, k);
    }
  }

  lemma LeadingUnfold(side: Side, fs: seq<Frame>, fine: nat -> bool, k: nat)
    ensures Leading(side, fs, fine, k)
         == if fs == [] || !Readable(side, fs[0]) || !fine(k) then 0 else Leading(side, fs[1..], fine, k + 1) + 1
  {
    hide Readable;
  }

  lemma EmittableIsReadable(side: Side, f: Frame)
    requires Emittable(side, f)
    ensures Readable(side, f) <==> !Refuses(side, f.header)
  {
  }

  lemma EndOfStream(side: Side, fine: nat -> bool, k: nat)
    ensures ReadAll(side, [], fine, k) == Reading([], 0, Short)
  {
  }

  /** When a connection ends early the reader has handled a prefix of what it would have handled: no byte of a
      cut frame is taken for another frame.  A reader that stopped for another reason does not see the cut. */
  lemma {:induction false} CutStream(side: Side, s: Bytes, cut: nat, fine: nat -> bool, k: nat)
    requires cut <= |s|
    ensures ReadAll(side, s[..cut], fine, k).frames <= ReadAll(side, s, fine, k).frames
    ensures var r := ReadAll(side, s[..cut], fine, k); r.stop != Short ==> r == ReadAll(side, s, fine, k)
    decreases |s|
  {
    hide Next;
    NextOfCut(side, s, cut);
    NextFits(side, s);
    NextFits(side, s[..cut]);
    if Next(side, s[..cut]).Got? && fine(k) {
      var n := Next(side, s).size;
      assert s[..cut][n..] == s[n..][..cut - n];
      CutStream(side, s[n..], cut - n, fine, k + 1);
    }
  }

  lemma NextOfCut(side: Side, s: Bytes, cut: nat)
    requires cut <= |s|
    ensures Next(side, s[..cut]) == Next(side, s) || Next(side, s[..cut]) == Stopped(Short)
  {
    hide DecodeHeader;
    if cut >= HEADER_LEN {
      assert s[..cut][..HEADER_LEN] == s[..HEADER_LEN];
      var d := DecodeHeader(s[..HEADER_LEN]);
      if d.Ok? && HEADER_LEN + d.value.bodyLen <= cut {
        assert s[..cut][HEADER_LEN..HEADER_LEN + d.value.bodyLen] == s[HEADER_LEN..HEADER_LEN + d.value.bodyLen];
      }
    }
  }

  /** On any bytes at all, the frames handled re-encode to the bytes they took for exactly the readings in
      which no header carried the version bit. */
  lemma {:induction false} ReencodesItsBytes(side: Side, s: Bytes, fine: nat -> bool, k: nat)
    ensures var r := ReadAll(side, s, fine, k);
      && r.used <= |s|
      && |FramesBytes(r.frames)| == r.used
      && (FramesBytes(r.frames) == s[..r.used] <==> forall f :: f in r.frames ==> f.header.version == 0)
    decreases |s|
  {
    hide Next, FrameBytes, FramesBytes;
    var r := ReadAll(side, s, fine, k);
    FramesUnfold(r.frames);
    if Next(side, s).Got? && fine(k) {
      var f, n := Next(side, s).frame, Next(side, s).size;
      NextFits(side, s);
      NextReencodes(side, s);
      ReencodesItsBytes(side, s[n..], fine, k + 1);
      var r' := ReadAll(side, s[n..], fine, k + 1);
      assert r.frames[1..] == r'.frames;
      SplitEqual(FrameBytes(f), FramesBytes(r'.frames), s, r.used);
      assert s[n..][..r'.used] == s[n..r.used];
      assert forall g :: g in r.frames <==> g == f || g in r'.frames;
    }
  }

  lemma NextReencodes(side: Side, s: Bytes)
    requires Next(side, s).Got?
    ensures var f := Next(side, s).frame; var n := Next(side, s).size;
      |FrameBytes(f)| == n && (FrameBytes(f) == s[..n] <==> f.header.version == 0)
  {
    hide FirstByte, High, Low, DecodeHeader;
    var f, n := Next(side, s).frame, Next(side, s).size;
    HeaderInverse(s[..HEADER_LEN]);
    assert s[..HEADER_LEN][..HEADER_LEN] == s[..HEADER_LEN];
    assert s[..n] == s[..HEADER_LEN] + s[HEADER_LEN..n];
    assert FrameBytes(f)[..HEADER_LEN] == HeaderBytes(f.header);
    assert s[..n][..HEADER_LEN] == s[..HEADER_LEN];
  }

  lemma SplitEqual(x: Bytes, y: Bytes, s: Bytes, end: nat)
    requires |x| + |y| == end <= |s|
    ensures x + y == s[..end] <==> x == s[..|x|] && y == s[|x|..end]
  {
    assert s[..end][..|x|] == s[..|x|] && s[..end][|x|..] == s[|x|..end];
    assert (x + y)[..|x|] == x && (x + y)[|x|..] == y;
    assert s[..end] == s[..|x|] + s[|x|..end];
  }

  predicate AllPassed(side: Side, fs: seq<Frame>, fine: nat -> bool, k: nat) {
    forall i: nat {:trigger fs[i]} :: i < |fs| ==> !Refuses(side, fs[i].header) && fine(k + i)
  }

  lemma OneMorePassed(side: Side, f: Frame, fs: seq<Frame>, fine: nat -> bool, k: nat)
    requires !Refuses(side, f.header) && fine(k) && AllPassed(side, fs, fine, k + 1)
    ensures AllPassed(side, [f] + fs, fine, k)
  {
    hide Refuses;
    var all := [f] + fs;
    forall i: nat {:trigger all[i]} | i < |all| ensures !Refuses(side, all[i].header) && fine(k + i) {
      if i > 0 {
        assert all[i] == fs[i - 1];
        assert fine(k + 1 + (i - 1));
      }
    }
  }

  /** No frame that is handled is one that the reader refuses, and every handler accepted its frame. */
  lemma {:induction false} HandledArePassed(side: Side, s: Bytes, fine: nat -> bool, k: nat)
    ensures AllPassed(side, ReadAll(side, s, fine, k).frames, fine, k)
    decreases |s|
  {
    hide Refuses, Next;
    if Next(side, s).Got? && fine(k) {
      var n := Next(side, s).size;
      NextFits(side, s);
      GotIsNotRefused(side, s);
      HandledArePassed(side, s[n..], fine, k + 1);
      OneMorePassed(side, Next(side, s).frame, ReadAll(side, s[n..], fine, k + 1).frames, fine, k);
    }
  }

  lemma GotIsNotRefused(side: Side, s: Bytes)
    requires Next(side, s).Got?
    ensures !Refuses(side, Next(side, s).frame.header)
  {
    hide DecodeHeader;
  }
}
