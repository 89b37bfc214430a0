/** Proofs about every run of the observation protocol. */
module ObGetProofs {
  import opened Types
  import opened AppRpc
  import opened ObGet

  // ----- the invariant of one observation and of the messages about it -----

  predicate Attending(c: Caller) {
    c.Created? || c.Establishing? || c.Serving?
  }

  function HeldByLoop(l: Loop): seq<Notice> {
    if l.Holding? then [l.n] else []
  }

  /** The notifications between the handler and the user, nearest to the user first. */
  function Path(chan: seq<Notice>, v: View, l: Loop): seq<Notice> {
    chan + v.held + v.notes + HeldByLoop(l)
  }

  /** Requests and confirmations that are still under way. */
  function Flight(v: View): nat {
    |v.notes| + |v.held| + |v.replying| + |v.acks|
  }

  function Yes(codes: seq<uint8>): nat {
    if codes == [STATUS_CONTINUE] then 1 else 0
  }

  /** CONTINUE confirmations that the loop has not received yet. */
  function Unseen(d: DevSide, v: View): nat {
    if d.loop.Waiting? then Yes(v.replying) + Yes(v.acks) + (if d.slot == [Ack(STATUS_CONTINUE)] then 1 else 0) else 0
  }

  predicate EstabCode(code: uint8) {
    code == STATUS_CONTINUE || code == STATUS_NOT_FOUND
  }

  predicate EstabCodesOk(codes: seq<uint8>) {
    forall i :: 0 <= i < |codes| ==> EstabCode(codes[i])
  }

  /** The notifications are the emitted data in order, then at most one terminating one. */
  predicate ProducedOk(produced: seq<Notice>, emitted: seq<Bytes>, finished: bool) {
    && |produced| <= |emitted| + 1
    && (forall i :: 0 <= i < |produced| && i < |emitted| ==> produced[i] == Notice(STATUS_CONTINUE, emitted[i]))
    && (|produced| == |emitted| + 1 ==> finished && produced[|emitted|] == Notice(STATUS_TERMINATE, []))
  }

  predicate DevOk(d: DevSide, flight: nat) {
    && ProducedOk(d.produced, d.emitted, d.finished)
    && d.sent + |HeldByLoop(d.loop)| == |d.produced|
    && flight <= 1 && |d.slot| <= 1
    && match d.loop
       case Unborn =>
         d.produced == [] && d.emitted == [] && !d.finished && flight == 0 && d.slot == [] && d.confirmed == d.sent
       case Idle => |d.produced| <= |d.emitted| && flight == 0 && d.slot == [] && d.confirmed == d.sent
       case Holding(n) =>
         d.produced != [] && n == d.produced[|d.produced| - 1] && flight == 0 && d.slot == [] && d.confirmed == d.sent
       case Waiting(n) =>
         d.produced != [] && n == d.produced[|d.produced| - 1] && d.confirmed + 1 == d.sent
         && (d.slot != [] && d.slot[0].Ack? ==> flight == 0)
       case Exited => d.confirmed <= d.sent <= d.confirmed + 1
  }

  predicate SrvOk(o: SrvSide, told: bool) {
    && Tidy(o)
    && (!told ==> o.tokens == 0)
    && o.enqueued == o.consumed + |o.chan|
    && |o.answer| <= 1
    && (o.answer != [] && o.answer[0].Ack? ==> EstabCode(o.answer[0].code))
  }

  predicate EstabOk(c: Caller, answer: seq<Reply>, l: Loop, v: View) {
    && (c.Created? ==> l.Unborn? && v.reqs == 0 && v.resps == [] && v.answering == [] && answer == [])
    && v.reqs <= 1
    && (v.reqs == 1 ==> l.Unborn?)
    && EstabCodesOk(v.resps)
    && EstabCodesOk(v.answering)
  }

  predicate CountsOk(sent: nat, confirmed: nat, unseen: nat, enqueued: nat, below: nat) {
    confirmed + unseen <= enqueued <= enqueued + below <= sent
  }

  /** While the call attends to the observation, nothing is lost: what the user has seen and what is on the
      way together are exactly what the loop took from the handler. */
  predicate Lossless(fid: uint32, frames: seq<Frame>, produced: seq<Notice>, path: seq<Notice>, serving: bool) {
    && fid == Fid(|frames|)
    && |frames| <= |produced|
    && path == produced[|frames|..]
    && (forall i :: 0 <= i < |frames| ==>
          produced[i].code == STATUS_CONTINUE && frames[i] == Frame(Fid(i), Continue, produced[i].data))
    && (!serving ==> frames == [])
  }

  predicate StreamOk(d: DevSide, o: SrvSide, v: View) {
    if Attending(o.caller) then Lossless(o.fid, o.frames, d.produced, Path(o.chan, v, d.loop), o.caller.Serving?)
    else Faithful(o.frames, d.emitted, d.finished)
  }

  predicate ObInv(o: Ob, v: View) {
    && DevOk(o.dev, Flight(v))
    && SrvOk(o.srv, v.told)
    && EstabOk(o.srv.caller, o.srv.answer, o.dev.loop, v)
    && CountsOk(o.dev.sent, o.dev.confirmed, Unseen(o.dev, v), o.srv.enqueued, |v.notes| + |v.held|)
    && StreamOk(o.dev, o.srv, v)
  }

  ghost predicate Inv(s: State) {
    forall k :: k in s.obs ==> ObInv(s.obs[k], ViewOf(s, k))
  }

  /** Observation k of a state that satisfies the invariant, and the messages about it. */
  ghost predicate At(s: State, k: uint16, o: Ob, v: View) {
    Inv(s) && k in s.obs && o == s.obs[k] && v == ViewOf(s, k)
  }

  // ----- messages about one observation, under the pipes' operations -----

  lemma {:induction false} NotesAppend(up: seq<Up>, m: Up, k: uint16)
    ensures Notes(up + [m], k) == Notes(up, k) + Notes([m], k)
  {
    if up == [] {
      assert up + [m] == [m];
    } else {
      assert (up + [m])[1..] == up[1..] + [m];
      NotesAppend(up[1..], m, k);
    }
  }

  lemma {:induction false} EstabCodesAppend(up: seq<Up>, m: Up, k: uint16)
    ensures EstabCodes(up + [m], k) == EstabCodes(up, k) + EstabCodes([m], k)
  {
    if up == [] {
      assert up + [m] == [m];
    } else {
      assert (up + [m])[1..] == up[1..] + [m];
      EstabCodesAppend(up[1..], m, k);
    }
  }

  lemma {:induction false} AcksAppend(down: seq<Down>, m: Down, k: uint16)
    ensures Acks(down + [m], k) == Acks(down, k) + Acks([m], k)
    ensures EstabReqs(down + [m], k) == EstabReqs(down, k) + EstabReqs([m], k)
  {
    if down == [] {
      assert down + [m] == [m];
    } else {
      assert (down + [m])[1..] == down[1..] + [m];
      AcksAppend(down[1..], m, k);
    }
  }

  lemma UpAppend(up: seq<Up>, m: Up)
    ensures forall k :: Notes(up + [m], k) == if m.NotifyReq? && m.ob == k then Notes(up, k) + [m.n] else Notes(up, k)
    ensures forall k ::
      EstabCodes(up + [m], k)
      == if m.EstabResp? && m.ob == k then EstabCodes(up, k) + [m.code] else EstabCodes(up, k)
  {
    forall k: uint16
      ensures Notes(up + [m], k) == if m.NotifyReq? && m.ob == k then Notes(up, k) + [m.n] else Notes(up, k)
      ensures EstabCodes(up + [m], k)
          == if m.EstabResp? && m.ob == k then EstabCodes(up, k) + [m.code] else EstabCodes(up, k)
    {
      NotesAppend(up, m, k);
      EstabCodesAppend(up, m, k);
    }
  }

  lemma DownAppend(down: seq<Down>, m: Down)
    ensures forall k ::
      Acks(down + [m], k)
      == if m.NotifyResp? && m.ob == k then Acks(down, k) + [m.code] else Acks(down, k)
    ensures forall k :: EstabReqs(down + [m], k) == EstabReqs(down, k) + if m == EstabReq(k) then 1 else 0
  {
    forall k: uint16
      ensures Acks(down + [m], k) == if m.NotifyResp? && m.ob == k then Acks(down, k) + [m.code] else Acks(down, k)
      ensures EstabReqs(down + [m], k) == EstabReqs(down, k) + if m == EstabReq(k) then 1 else 0
    {
      AcksAppend(down, m, k);
    }
  }

  // ----- one step, seen from one observation -----

  lemma LosslessIsFaithful(o: Ob, v: View)
    requires ObInv(o, v) && Attending(o.srv.caller)
    ensures Conts(o.srv.frames) == |o.srv.frames| <= |o.dev.emitted|
    ensures Faithful(o.srv.frames, o.dev.emitted, o.dev.finished)
  {
  }

  /** The last frame of a stream that so far showed data only. */
  lemma LastFrame(o: Ob, v: View, f: Frame)
    requires ObInv(o, v) && Attending(o.srv.caller)
    requires f.fid == o.srv.fid && f.code != Continue
    requires f.code == Terminate ==> o.dev.finished && |o.srv.frames| == |o.dev.emitted|
    ensures Faithful(o.srv.frames + [f], o.dev.emitted, o.dev.finished)
  {
    LosslessIsFaithful(o, v);
    assert Conts(o.srv.frames + [f]) == |o.srv.frames|;
  }

  lemma LocalFresh(v: View)
    requires v == View([], [], [], [], 0, [], [], v.told)
    ensures ObInv(FRESH, v)
  {
  }

  lemma LocalEstabTimeout(o: Ob, v: View)
    requires ObInv(o, v) && UserCan(o.srv, EstabTimeout)
    ensures ObInv(o.(srv := UserStep(o.srv, EstabTimeout)), v)
  {
    LastFrame(o, v, Frame(0, DeviceTimeout, []));
  }

  lemma LocalEstabDone(o: Ob, v: View)
    requires ObInv(o, v) && UserCan(o.srv, EstabDone)
    ensures ObInv(o.(srv := UserStep(o.srv, EstabDone)), v)
  {
    if o.srv.answer[0] != Ack(STATUS_CONTINUE) {
      LastFrame(o, v, EstabFrame(o.srv.answer[0]));
    }
  }

  lemma LocalSendEstab(o: Ob, v: View)
    requires ObInv(o, v) && UserCan(o.srv, SendEstab)
    ensures ObInv(o.(srv := UserStep(o.srv, SendEstab)), v.(reqs := v.reqs + 1))
  {
  }

  lemma LocalServe(o: Ob, v: View, e: Event)
    requires ObInv(o, v) && o.srv.caller.Serving? && Ready(o.srv, e)
    ensures ObInv(o.(srv := AfterServe(o.srv, e)), v)
  {
    match e
    case SessionDone => LastFrame(o, v, Frame(o.srv.fid, DeviceOffline, []));
    case StreamDone =>
      LosslessIsFaithful(o, v);
      assert o.srv.frames + [] == o.srv.frames;
    case ChanClosed => assert false;
    case Notified(n) =>
      if n.code == STATUS_CONTINUE { LocalData(o, v); } else { LocalLast(o, v); }
  }

  lemma NextOnPath(o: Ob, v: View)
    requires ObInv(o, v) && o.srv.caller.Serving? && o.srv.chan != []
    ensures o.srv.chan == [o.srv.chan[0]] && |o.srv.frames| < |o.dev.produced|
    ensures o.srv.chan[0] == o.dev.produced[|o.srv.frames|]
    ensures Path([], v, o.dev.loop) == o.dev.produced[|o.srv.frames| + 1..]
  {
    var path := Path(o.srv.chan, v, o.dev.loop);
    assert o.srv.chan[0] == path[0];
    assert Path([], v, o.dev.loop) == path[1..];
  }

  lemma LocalData(o: Ob, v: View)
    requires ObInv(o, v) && o.srv.caller.Serving? && o.srv.chan != [] && o.srv.chan[0].code == STATUS_CONTINUE
    ensures ObInv(o.(srv := AfterServe(o.srv, Notified(o.srv.chan[0]))), v)
  {
    NextOnPath(o, v);
    FidStep(|o.srv.frames|);
    assert o.srv.chan[1..] == [];
  }

  lemma LocalLast(o: Ob, v: View)
    requires ObInv(o, v) && o.srv.caller.Serving? && o.srv.chan != [] && o.srv.chan[0].code != STATUS_CONTINUE
    ensures ObInv(o.(srv := AfterServe(o.srv, Notified(o.srv.chan[0]))), v)
  {
    NextOnPath(o, v);
    LastFrame(o, v, Frame(o.srv.fid, Terminate, o.srv.chan[0].data));
  }

  lemma LocalDestroy(o: Ob, v: View, u: UserAct)
    requires ObInv(o, v) && UserCan(o.srv, u) && (u.Delete? || u.Close?)
    ensures ObInv(o.(srv := UserStep(o.srv, u)), v)
  {
  }

  lemma LocalTell(o: Ob, v: View)
    requires ObInv(o, v) && !v.told
    ensures ObInv(o.(srv := o.srv.(tokens := o.srv.tokens + 1)), v.(told := true))
  {
  }

  lemma LocalLoad(o: Ob, v: View)
    requires ObInv(o, v) && v.notes != []
    ensures ObInv(o, v.(notes := v.notes[1..], held := [v.notes[0]]))
  {
    assert v.held == [] && v.notes == [v.notes[0]];
    assert Path(o.srv.chan, v.(notes := v.notes[1..], held := [v.notes[0]]), o.dev.loop)
        == Path(o.srv.chan, v, o.dev.loop);
  }

  lemma LocalRefuse(o: Ob, v: View)
    requires ObInv(o, v) && v.notes != [] && !o.srv.live
    ensures ObInv(o, v.(notes := v.notes[1..], replying := [STATUS_TERMINATE]))
  {
  }

  lemma LocalEnqueue(o: Ob, v: View)
    requires ObInv(o, v) && v.held != [] && o.srv.chan == []
    ensures ObInv(o.(srv := o.srv.(chan := o.srv.chan + [v.held[0]], enqueued := o.srv.enqueued + 1)),
                  v.(held := [], replying := [STATUS_CONTINUE]))
  {
    assert v.held == [v.held[0]];
    assert Path(o.srv.chan + [v.held[0]], v.(held := [], replying := [STATUS_CONTINUE]), o.dev.loop)
        == Path(o.srv.chan, v, o.dev.loop);
  }

  lemma LocalSrvReply(o: Ob, v: View)
    requires ObInv(o, v) && v.replying != []
    ensures ObInv(o, v.(replying := [], acks := v.acks + [v.replying[0]]))
  {
    assert v.acks + [v.replying[0]] == v.replying;
  }

  /** A confirmation leaves the pipe and is handed to another loop. */
  lemma LocalLoseAck(o: Ob, v: View)
    requires ObInv(o, v) && v.acks != []
    ensures ObInv(o, v.(acks := v.acks[1..]))
  {
  }

  lemma LocalAck(o: Ob, v: View)
    requires ObInv(o, v) && v.acks != [] && o.dev.loop.Waiting? && o.dev.slot == []
    ensures ObInv(o.(dev := o.dev.(slot := [Ack(v.acks[0])])), v.(acks := v.acks[1..]))
  {
    assert v.acks == [v.acks[0]];
  }

  lemma LocalStrayReply(o: Ob, v: View)
    requires ObInv(o, v) && LoopCan(o.dev, Strayed)
    ensures ObInv(o.(dev := LoopStep(o.dev, Strayed)), v)
  {
  }

  lemma LocalStrayAnswer(o: Ob, v: View)
    requires ObInv(o, v) && UserCan(o.srv, Misdelivered)
    ensures ObInv(o.(srv := UserStep(o.srv, Misdelivered)), v)
  {
  }

  lemma LocalLoseResp(o: Ob, v: View)
    requires ObInv(o, v) && v.resps != []
    ensures ObInv(o, v.(resps := v.resps[1..]))
  {
    hide Lossless, ProducedOk, CountsOk, DevOk, SrvOk, Faithful;
    assert EstabCodesOk(v.resps[1..]);
  }

  lemma LocalResp(o: Ob, v: View)
    requires ObInv(o, v) && v.resps != [] && o.srv.caller.Establishing?
    ensures ObInv(o.(srv := o.srv.(answer := [Ack(v.resps[0])])), v.(resps := v.resps[1..]))
  {
  }

  lemma LocalDevEstab(o: Ob, v: View, code: uint8)
    requires ObInv(o, v) && v.reqs > 0 && EstabCode(code)
    ensures ObInv(o, v.(reqs := v.reqs - 1))
    ensures ObInv(o, v.(reqs := v.reqs - 1, answering := [code]))
  {
  }

  lemma LocalStart(o: Ob, v: View)
    requires ObInv(o, v) && v.reqs > 0
    ensures ObInv(o.(dev := o.dev.(loop := Idle)), v.(reqs := v.reqs - 1, answering := [STATUS_CONTINUE]))
  {
  }

  lemma LocalDevAnswer(o: Ob, v: View)
    requires ObInv(o, v) && v.answering != []
    ensures ObInv(o, v.(answering := [], resps := v.resps + [v.answering[0]]))
  {
  }

  lemma LocalEmit(o: Ob, v: View, d: Bytes)
    requires ObInv(o, v) && LoopCan(o.dev, Emit(d))
    ensures ObInv(o.(dev := LoopStep(o.dev, Emit(d))), v)
  {
  }

  lemma LocalFinish(o: Ob, v: View)
    requires ObInv(o, v) && LoopCan(o.dev, Finish)
    ensures ObInv(o.(dev := LoopStep(o.dev, Finish)), v)
  {
  }

  lemma LocalTake(o: Ob, v: View, l: LoopAct)
    requires ObInv(o, v) && LoopCan(o.dev, l) && (l.Take? || l.TakeEnd?)
    ensures ObInv(o.(dev := LoopStep(o.dev, l)), v)
  {
    hide Lossless, ProducedOk, CountsOk, EstabOk, SrvOk, Faithful;
    var n := NextNotice(o.dev);
    assert Path(o.srv.chan, v, Holding(n)) == Path(o.srv.chan, v, o.dev.loop) + [n];
    TakeProduces(o.dev, l);
    if Attending(o.srv.caller) {
      TakeLosesNothing(o.srv.fid, o.srv.frames, o.dev.produced, Path(o.srv.chan, v, o.dev.loop),
        o.srv.caller.Serving?, n);
    }
    assert EstabOk(o.srv.caller, o.srv.answer, Holding(n), v) by { TakeKeepsEstab(o, v, n); }
  }

  lemma TakeProduces(d: DevSide, l: LoopAct)
    requires ProducedOk(d.produced, d.emitted, d.finished) && LoopCan(d, l) && (l.Take? || l.TakeEnd?)
    ensures ProducedOk(d.produced + [NextNotice(d)], d.emitted, d.finished)
  {
  }

  lemma TakeLosesNothing(
      fid: uint32, frames: seq<Frame>, produced: seq<Notice>, path: seq<Notice>, serving: bool, n: Notice)
    requires Lossless(fid, frames, produced, path, serving)
    ensures Lossless(fid, frames, produced + [n], path + [n], serving)
  {
  }

  lemma TakeKeepsEstab(o: Ob, v: View, n: Notice)
    requires EstabOk(o.srv.caller, o.srv.answer, o.dev.loop, v) && o.dev.loop.Idle?
    ensures EstabOk(o.srv.caller, o.srv.answer, Holding(n), v)
  {
  }

  lemma LocalPush(o: Ob, v: View)
    requires ObInv(o, v) && LoopCan(o.dev, Push)
    ensures ObInv(o.(dev := LoopStep(o.dev, Push)), v.(notes := v.notes + [o.dev.loop.n]))
  {
    var n := o.dev.loop.n;
    assert Path(o.srv.chan, v.(notes := v.notes + [n]), Waiting(n)) == Path(o.srv.chan, v, Holding(n));
  }

  lemma LocalConfirmed(o: Ob, v: View)
    requires ObInv(o, v) && LoopCan(o.dev, Confirmed)
    ensures ObInv(o.(dev := LoopStep(o.dev, Confirmed)), v)
  {
    assert Path(o.srv.chan, v, AfterReply(o.dev).loop) == Path(o.srv.chan, v, o.dev.loop);
  }

  lemma LocalTimeout(o: Ob, v: View)
    requires ObInv(o, v) && LoopCan(o.dev, Timeout)
    ensures ObInv(o.(dev := LoopStep(o.dev, Timeout)), v)
  {
    assert Path(o.srv.chan, v, Exited) == Path(o.srv.chan, v, o.dev.loop);
  }

  // ----- one step of the whole system -----

  ghost predicate SameBut(s: State, s': State, k: uint16) {
    forall j :: j != k && j in s'.obs ==> j in s.obs && s'.obs[j] == s.obs[j] && ViewOf(s', j) == ViewOf(s, j)
  }

  lemma Lift(s: State, s': State, k: uint16)
    requires Inv(s) && SameBut(s, s', k)
    requires forall j :: j == k && j in s'.obs ==> ObInv(s'.obs[j], ViewOf(s', j))
    ensures Inv(s')
  {
  }

  lemma UpPop(up: seq<Up>)
    requires up != []
    ensures forall k ::
      Notes(up[1..], k)
      == if up[0].NotifyReq? && up[0].ob == k then Notes(up, k)[1..] else Notes(up, k)
    ensures forall k ::
      EstabCodes(up[1..], k)
      == if up[0].EstabResp? && up[0].ob == k then EstabCodes(up, k)[1..] else EstabCodes(up, k)
    ensures up[0].NotifyReq? ==> Notes(up, up[0].ob) != [] && Notes(up, up[0].ob)[0] == up[0].n
    ensures up[0].EstabResp? ==> EstabCodes(up, up[0].ob) != [] && EstabCodes(up, up[0].ob)[0] == up[0].code
  {
  }

  lemma DownPop(down: seq<Down>)
    requires down != []
    ensures forall k ::
      Acks(down[1..], k)
      == if down[0].NotifyResp? && down[0].ob == k then Acks(down, k)[1..] else Acks(down, k)
    ensures forall k :: EstabReqs(down[1..], k) == EstabReqs(down, k) - if down[0] == EstabReq(k) then 1 else 0
    ensures down[0].NotifyResp? ==> Acks(down, down[0].ob) != [] && Acks(down, down[0].ob)[0] == down[0].code
    ensures down[0].EstabReq? ==> EstabReqs(down, down[0].ob) > 0
  {
  }

  lemma StepCreate(s: State, k: uint16)
    requires Inv(s) && Enabled(s, Create(k))
    ensures Inv(Apply(s, Create(k)))
  {
    hide ObInv, Notes, EstabCodes, Acks, EstabReqs;
    LocalFresh(ViewOf(s, k));
    Lift(s, Apply(s, Create(k)), k);
  }

  lemma StepUser(s: State, k: uint16, u: UserAct)
    requires Inv(s) && Enabled(s, User(k, u))
    ensures Inv(Apply(s, User(k, u)))
  {
    hide ObInv, Notes, EstabCodes, Acks, EstabReqs;
    var s', o, v := Apply(s, User(k, u)), s.obs[k], ViewOf(s, k);
    match u {
      case SendEstab => DownAppend(s.down, EstabReq(k)); LocalSendEstab(o, v);
      case EstabDone => LocalEstabDone(o, v);
      case EstabTimeout => LocalEstabTimeout(o, v);
      case Serve(e) => LocalServe(o, v, e);
      case Delete => LocalDestroy(o, v, u);
      case Close => LocalDestroy(o, v, u);
      case Misdelivered => LocalStrayAnswer(o, v);
    }
    Lift(s, s', k);
  }

  lemma StepPush(s: State, k: uint16)
    requires Inv(s) && Enabled(s, Loop(k, Push))
    ensures Inv(Apply(s, Loop(k, Push)))
  {
    hide ObInv, Notes, EstabCodes, Acks, EstabReqs;
    UpAppend(s.up, NotifyReq(k, s.obs[k].dev.loop.n));
    LocalPush(s.obs[k], ViewOf(s, k));
    Lift(s, Apply(s, Loop(k, Push)), k);
  }

  lemma StepLoop(s: State, k: uint16, l: LoopAct)
    requires Inv(s) && Enabled(s, Loop(k, l)) && !l.Push?
    ensures Inv(Apply(s, Loop(k, l)))
  {
    hide ObInv, Notes, EstabCodes, Acks, EstabReqs;
    var s', o, v := Apply(s, Loop(k, l)), s.obs[k], ViewOf(s, k);
    match l {
      case Emit(d) => LocalEmit(o, v, d);
      case Finish => LocalFinish(o, v);
      case Take => LocalTake(o, v, l);
      case TakeEnd => LocalTake(o, v, l);
      case Confirmed => LocalConfirmed(o, v);
      case Timeout => LocalTimeout(o, v);
      case Strayed => LocalStrayReply(o, v);
    }
    Lift(s, s', k);
  }

  lemma StepLoad(s: State)
    requires Inv(s) && ServerCan(s, TakeNotify) && ServerStep(s, TakeNotify).srv.Loaded?
    ensures Inv(ServerStep(s, TakeNotify))
  {
    hide ObInv, Notes, EstabCodes, Acks, EstabReqs;
    var k := s.up[0].ob;
    UpPop(s.up);
    LocalLoad(s.obs[k], ViewOf(s, k));
    Lift(s, ServerStep(s, TakeNotify), k);
  }

  lemma StepRefuse(s: State)
    requires Inv(s) && ServerCan(s, TakeNotify) && ServerStep(s, TakeNotify).srv.Replying?
    ensures Inv(ServerStep(s, TakeNotify))
  {
    hide ObInv, Notes, EstabCodes, Acks, EstabReqs;
    var k := s.up[0].ob;
    UpPop(s.up);
    if k in s.obs { LocalRefuse(s.obs[k], ViewOf(s, k)); }
    Lift(s, ServerStep(s, TakeNotify), k);
  }

  lemma StepEnqueue(s: State)
    requires Inv(s) && ServerCan(s, Enqueue)
    ensures Inv(ServerStep(s, Enqueue))
  {
    hide ObInv, Notes, EstabCodes, Acks, EstabReqs;
    var k := s.srv.ob;
    LocalEnqueue(s.obs[k], ViewOf(s, k));
    Lift(s, ServerStep(s, Enqueue), k);
  }

  lemma StepConfirm(s: State)
    requires Inv(s) && ServerCan(s, Confirm)
    ensures Inv(ServerStep(s, Confirm))
  {
    hide ObInv, Notes, EstabCodes, Acks, EstabReqs;
    var k := s.srv.ob;
    DownAppend(s.down, NotifyResp(k, s.srv.code));
    if k in s.obs { LocalSrvReply(s.obs[k], ViewOf(s, k)); }
    Lift(s, ServerStep(s, Confirm), k);
  }

  /** The establish response at the head of the pipe is handed to a call that it does not name,
      or to another request. */
  lemma DropEstab(s: State)
    requires Inv(s) && s.up != [] && s.up[0].EstabResp?
    ensures Inv(s.(up := s.up[1..]))
  {
    hide ObInv, Notes, EstabCodes, Acks, EstabReqs;
    var k := s.up[0].ob;
    UpPop(s.up);
    if k in s.obs { LocalLoseResp(s.obs[k], ViewOf(s, k)); }
    Lift(s, s.(up := s.up[1..]), k);
  }

  lemma StepDeliverEstab(s: State, j: uint16)
    requires Inv(s) && ServerCan(s, DeliverEstab(j))
    ensures Inv(ServerStep(s, DeliverEstab(j)))
  {
    hide ObInv, Notes, EstabCodes, Acks, EstabReqs;
    var s' := ServerStep(s, DeliverEstab(j));
    if s.up[0].ob == j {
      UpPop(s.up);
      LocalResp(s.obs[j], ViewOf(s, j));
      Lift(s, s', j);
    } else {
      var mid := s.(up := s.up[1..]);
      DropEstab(s);
      LocalStrayAnswer(mid.obs[j], ViewOf(mid, j));
      Lift(mid, s', j);
    }
  }

  lemma StepTell(s: State, k: uint16)
    requires Inv(s) && ServerCan(s, Tell(k))
    ensures Inv(ServerStep(s, Tell(k)))
  {
    hide ObInv, Notes, EstabCodes, Acks, EstabReqs;
    LocalTell(s.obs[k], ViewOf(s, k));
    Lift(s, ServerStep(s, Tell(k)), k);
  }

  lemma StepServer(s: State, a: SrvAct)
    requires Inv(s) && ServerCan(s, a)
    ensures Inv(ServerStep(s, a))
  {
    hide ObInv, Notes, EstabCodes, Acks, EstabReqs;
    match a
    case TakeNotify =>
      if ServerStep(s, a).srv.Loaded? { StepLoad(s); }
      else if ServerStep(s, a).srv.Replying? { StepRefuse(s); }
      else { Same(s, ServerStep(s, a)); }
    case Enqueue => StepEnqueue(s);
    case Confirm => StepConfirm(s);
    case DeliverEstab(j) => StepDeliverEstab(s, j);
    case DivertEstab => DropEstab(s);
    case Tell(k) => StepTell(s, k);
    case Panic => Same(s, ServerStep(s, a));
    case StopReading => Same(s, ServerStep(s, a));
    case BeginExit => Same(s, ServerStep(s, a));
  }

  /** A reader stops, the session starts to exit, or the server crashes: no observation is touched. */
  lemma Same(s: State, s': State)
    requires Inv(s) && s'.obs == s.obs
    requires forall k :: k in s.obs ==> ViewOf(s', k) == ViewOf(s, k)
    ensures Inv(s')
  {
  }

  lemma StepEstablish(s: State, outcome: Outcome)
    requires Inv(s) && DeviceCan(s, Establish(outcome))
    ensures Inv(DeviceStep(s, Establish(outcome)))
  {
    hide ObInv, Notes, EstabCodes, Acks, EstabReqs;
    var s', k := DeviceStep(s, Establish(outcome)), s.down[0].ob;
    DownPop(s.down);
    if outcome.Started? {
      LocalStart(s.obs[k], ViewOf(s, k));
    } else {
      LocalDevEstab(s.obs[k], ViewOf(s, k), STATUS_NOT_FOUND);
    }
    Lift(s, s', k);
  }

  lemma StepAnswerEstab(s: State)
    requires Inv(s) && DeviceCan(s, AnswerEstab)
    ensures Inv(DeviceStep(s, AnswerEstab))
  {
    hide ObInv, Notes, EstabCodes, Acks, EstabReqs;
    var k := s.dev.ob;
    UpAppend(s.up, EstabResp(k, s.dev.code));
    if k in s.obs { LocalDevAnswer(s.obs[k], ViewOf(s, k)); }
    Lift(s, DeviceStep(s, AnswerEstab), k);
  }

  /** The confirmation at the head of the pipe is handed to a loop that it does not name, or to another request. */
  lemma DropConfirm(s: State)
    requires Inv(s) && s.down != [] && s.down[0].NotifyResp?
    ensures Inv(s.(down := s.down[1..]))
  {
    hide ObInv, Notes, EstabCodes, Acks, EstabReqs;
    var k := s.down[0].ob;
    DownPop(s.down);
    if k in s.obs { LocalLoseAck(s.obs[k], ViewOf(s, k)); }
    Lift(s, s.(down := s.down[1..]), k);
  }

  lemma StepDeliverConfirm(s: State, j: uint16)
    requires Inv(s) && DeviceCan(s, DeliverConfirm(j))
    ensures Inv(DeviceStep(s, DeliverConfirm(j)))
  {
    hide ObInv, Notes, EstabCodes, Acks, EstabReqs;
    var s' := DeviceStep(s, DeliverConfirm(j));
    if s.down[0].ob == j {
      DownPop(s.down);
      LocalAck(s.obs[j], ViewOf(s, j));
      Lift(s, s', j);
    } else {
      var mid := s.(down := s.down[1..]);
      DropConfirm(s);
      LocalStrayReply(mid.obs[j], ViewOf(mid, j));
      Lift(mid, s', j);
    }
  }

  lemma StepDevice(s: State, d: DevAct)
    requires Inv(s) && DeviceCan(s, d)
    ensures Inv(DeviceStep(s, d))
  {
    hide ObInv, Notes, EstabCodes, Acks, EstabReqs;
    match d
    case Establish(outcome) => StepEstablish(s, outcome);
    case AnswerEstab => StepAnswerEstab(s);
    case DeliverConfirm(j) => StepDeliverConfirm(s, j);
    case DivertConfirm => DropConfirm(s);
    case StopListening => Same(s, DeviceStep(s, d));
  }

  lemma StepKeepsInv(s: State, a: Action)
    requires Inv(s) && Enabled(s, a)
    ensures Inv(Apply(s, a))
  {
    hide ObInv, Notes, EstabCodes, Acks, EstabReqs;
    match a
    case Create(k) => StepCreate(s, k);
    case User(k, u) => StepUser(s, k, u);
    case Server(x) => StepServer(s, x);
    case Device(d) => StepDevice(s, d);
    case Loop(k, l) =>
      if l.Push? { StepPush(s, k); } else { StepLoop(s, k, l); }
  }

  // ----- every run -----

  lemma {:induction false} RunKeepsInv(s: State, acts: seq<Action>)
    requires Inv(s) && Runs(s, acts)
    ensures Inv(Final(s, acts))
    decreases |acts|
  {
    if acts != [] {
      StepKeepsInv(s, acts[0]);
      RunKeepsInv(Apply(s, acts[0]), acts[1..]);
    }
  }

  lemma InvFaithful(o: Ob, v: View)
    requires ObInv(o, v)
    ensures Faithful(o.srv.frames, o.dev.emitted, o.dev.finished)
  {
    if Attending(o.srv.caller) { LosslessIsFaithful(o, v); }
  }

  /** Whatever run led to the present state, for every observation the user's stream is faithful to the
      handler, the device is at most two notifications ahead, and the server's bookkeeping is tidy. */
  lemma EveryStreamFaithful(acts: seq<Action>, k: uint16)
    requires Runs(INIT, acts) && k in Final(INIT, acts).obs
    ensures var o := Final(INIT, acts).obs[k];
      Faithful(o.srv.frames, o.dev.emitted, o.dev.finished) && FlowBound(o) && Tidy(o.srv)
  {
    RunKeepsInv(INIT, acts);
    var s := Final(INIT, acts);
    assert ObInv(s.obs[k], ViewOf(s, k));
    InvFaithful(s.obs[k], ViewOf(s, k));
  }

  lemma InvTeardown(o: Ob, v: View)
    requires ObInv(o, v)
    ensures o.srv.caller.Closing? ==> !o.srv.closed && !o.srv.live
    ensures o.srv.caller.Leaving? ==> o.srv.live
    ensures o.srv.caller.Serving? ==> !o.srv.closed
    ensures o.srv.live ==> !o.srv.closed
    ensures !v.told ==> o.srv.tokens == 0
  {
  }

  /** Teardown: a channel that gets closed was open and its observation out of the store, a delete finds its
      own entry, a session that ends never blocks on SessionDoneChan, and no call that still serves sees its
      NotifyChan closed. */
  lemma TeardownOnce(acts: seq<Action>, k: uint16)
    requires Runs(INIT, acts) && k in Final(INIT, acts).obs
    ensures var s := Final(INIT, acts); var o := s.obs[k].srv;
      && (Enabled(s, User(k, Close)) ==> !o.closed && !o.live)
      && (Enabled(s, User(k, Delete)) ==> o.live)
      && (Enabled(s, Server(Tell(k))) ==> o.tokens == 0)
      && !Enabled(s, User(k, Serve(ChanClosed)))
  {
    hide ObInv;
    RunKeepsInv(INIT, acts);
    var s := Final(INIT, acts);
    InvTeardown(s.obs[k], ViewOf(s, k));
  }

  // ----- the send on a closed channel -----

  /** The reader is not about to send on a closed channel. */
  predicate Unharmed(s: State) {
    && !s.crashed
    && (s.srv.Loaded? ==> s.srv.ob in s.obs && !s.obs[s.srv.ob].srv.closed)
  }

  /** The call closes the channel on which the reader is about to send. */
  predicate ClosesUnderReader(s: State, a: Action) {
    a.User? && a.u.Close? && s.srv.Loaded? && s.srv.ob == a.k
  }

  predicate RaceFree(s: State, acts: seq<Action>)
    requires Runs(s, acts)
    decreases |acts|
  {
    acts == [] || (!ClosesUnderReader(s, acts[0]) && RaceFree(Apply(s, acts[0]), acts[1..]))
  }

  lemma ServerUnharmed(s: State, a: SrvAct)
    requires Inv(s) && ServerCan(s, a) && Unharmed(s)
    ensures Unharmed(ServerStep(s, a))
  {
    hide ObInv;
    if a.TakeNotify? {
      var k := s.up[0].ob;
      if k in s.obs && s.obs[k].srv.live {
        InvTeardown(s.obs[k], ViewOf(s, k));
      }
    }
  }

  lemma UserUnharmed(s: State, k: uint16, u: UserAct)
    requires Enabled(s, User(k, u)) && Unharmed(s) && !ClosesUnderReader(s, User(k, u))
    ensures Unharmed(Apply(s, User(k, u)))
  {
    assert !u.Close? ==> UserStep(s.obs[k].srv, u).closed == s.obs[k].srv.closed;
  }

  lemma StepUnharmed(s: State, a: Action)
    requires Inv(s) && Enabled(s, a) && Unharmed(s) && !ClosesUnderReader(s, a)
    ensures Unharmed(Apply(s, a))
  {
    hide ObInv;
    match a
    case Create(k) =>
    case User(k, u) => UserUnharmed(s, k, u);
    case Server(x) => ServerUnharmed(s, x);
    case Device(d) =>
    case Loop(k, l) =>
  }

  /** A run without the race ends without a panic, and without one to come. */
  lemma {:induction false} PanicNeedsRace(s: State, acts: seq<Action>)
    requires Inv(s) && Unharmed(s) && Runs(s, acts) && RaceFree(s, acts)
    ensures Unharmed(Final(s, acts))
    decreases |acts|
  {
    if acts != [] {
      StepKeepsInv(s, acts[0]);
      StepUnharmed(s, acts[0]);
      PanicNeedsRace(Apply(s, acts[0]), acts[1..]);
    }
  }

  /** The reader holds a notification for a channel that has been closed. */
  predicate Doomed(s: State) {
    s.srv.Loaded? && s.srv.ob in s.obs && s.obs[s.srv.ob].srv.closed
  }

  lemma StepDoomed(s: State, a: Action)
    requires Doomed(s) && Enabled(s, a)
    ensures Doomed(Apply(s, a))
  {
    assert ViewOf(s, s.srv.ob).held == [s.srv.n];
    match a
    case User(k, u) => assert UserStep(s.obs[k].srv, u).closed || !s.obs[k].srv.closed;
    case _ =>
  }

  lemma {:induction false} StaysDoomed(s: State, acts: seq<Action>)
    requires Doomed(s) && Runs(s, acts)
    ensures Doomed(Final(s, acts))
    decreases |acts|
  {
    if acts != [] {
      StepDoomed(s, acts[0]);
      StaysDoomed(Apply(s, acts[0]), acts[1..]);
    }
  }

  lemma RaceDooms(s: State, a: Action)
    requires Enabled(s, a) && ClosesUnderReader(s, a)
    ensures Doomed(Apply(s, a))
  {
  }

  /** Once a race has happened, nothing in the rest of the run opens the channel again. */
  lemma {:induction false} RaceIsFatal(s: State, acts: seq<Action>)
    requires Runs(s, acts) && !RaceFree(s, acts)
    ensures Doomed(Final(s, acts))
    decreases |acts|
  {
    if ClosesUnderReader(s, acts[0]) {
      RaceDooms(s, acts[0]);
      StaysDoomed(Apply(s, acts[0]), acts[1..]);
    } else {
      RaceIsFatal(Apply(s, acts[0]), acts[1..]);
    }
  }

  /** A run has panicked, or the panic is a step away, if and only if some call closed its channel between the
      reader's lookup and its send; and then the panic is the only step the reader can take. */
  lemma PanicIffRace(acts: seq<Action>)
    requires Runs(INIT, acts)
    ensures var s := Final(INIT, acts);
      && (s.crashed || Enabled(s, Server(Panic)) <==> !RaceFree(INIT, acts))
      && (!RaceFree(INIT, acts) ==> forall x :: Enabled(s, Server(x)) ==> x.Panic? || x.BeginExit? || x.Tell?)
      && (Enabled(s, Server(Panic)) ==> Apply(s, Server(Panic)).crashed)
  {
    if RaceFree(INIT, acts) {
      PanicNeedsRace(INIT, acts);
    } else {
      RaceIsFatal(INIT, acts);
    }
  }

  const FIRST := Notice(STATUS_CONTINUE, [])

  const RACE := [Create(1), User(1, SendEstab), Device(Establish(Started)), Loop(1, Emit([])), Loop(1, Take),
                 Loop(1, Push), Server(TakeNotify), User(1, EstabTimeout), User(1, Delete),
                 User(1, Close), Server(Panic)]

  /** The state before the i-th action of RACE: a late establish response lets the call give up and close its
      channel while the reader holds the first notification, which overtook that response. */
  function Moment(i: nat): State
    requires i <= 11
  {
    if i == 0 then INIT
    else
      var loop := if i < 3 then Unborn else if i < 5 then Idle else if i == 5 then Holding(FIRST) else Waiting(FIRST);
      var dev := DevSide(if i < 4 then [] else [[]], false, if i < 5 then [] else [FIRST], loop, [],
          if i < 6 then 0 else 1, 0);
      var caller := if i == 1 then Created else if i < 8 then Establishing else if i == 8 then Leaving
                    else if i == 9 then Closing else Gone;
      var srv := SrvSide(i < 9, [], i >= 10, 0, caller, [], 0,
          if i < 8 then [] else [Frame(0, DeviceTimeout, [])], 0, 0);
      State(map[1 := Ob(dev, srv)], if i == 6 then [NotifyReq(1, FIRST)] else [], if i == 2 then [EstabReq(1)] else [],
            if i < 7 then Reading else Loaded(1, FIRST), if i < 3 then Listening else Answering(1, STATUS_CONTINUE),
            false, {}, i == 11)
  }

  lemma MomentLoop(i: nat)
    requires 3 <= i < 6
    ensures Enabled(Moment(i), RACE[i]) && Apply(Moment(i), RACE[i]) == Moment(i + 1)
  {
    assert [] + [FIRST] == [FIRST];
    var none: seq<Bytes> := [];
    assert none + [[]] == [[]];
    assert Apply(Moment(i), RACE[i]).obs[1].dev == Moment(i + 1).obs[1].dev;
    assert Apply(Moment(i), RACE[i]).obs == Moment(i + 1).obs;
  }

  lemma MomentUser(i: nat)
    requires i == 1 || 7 <= i < 10
    ensures Enabled(Moment(i), RACE[i]) && Apply(Moment(i), RACE[i]) == Moment(i + 1)
  {
    assert [] + [Frame(0, DeviceTimeout, [])] == [Frame(0, DeviceTimeout, [])];
    assert Apply(Moment(i), RACE[i]).obs[1].srv == Moment(i + 1).obs[1].srv;
    assert Apply(Moment(i), RACE[i]).obs == Moment(i + 1).obs;
  }

  lemma MomentStep(i: nat)
    requires i < 11
    ensures Enabled(Moment(i), RACE[i]) && Apply(Moment(i), RACE[i]) == Moment(i + 1)
  {
    if i == 1 || 7 <= i < 10 {
      MomentUser(i);
    } else if 3 <= i < 6 {
      MomentLoop(i);
    } else {
      assert Apply(Moment(i), RACE[i]).obs == Moment(i + 1).obs;
    }
  }

  lemma {:induction false} PanicFollows(i: nat)
    requires i <= 11
    ensures Runs(Moment(i), RACE[i..]) && Final(Moment(i), RACE[i..]).crashed
    decreases 11 - i
  {
    if i < 11 {
      MomentStep(i);
      PanicFollows(i + 1);
      assert RACE[i..][1..] == RACE[i + 1..];
    }
  }

  /** The race exists, so the server can panic. */
  lemma PanicHappens()
    ensures exists acts :: Runs(INIT, acts) && Final(INIT, acts).crashed
  {
    PanicFollows(0);
    assert RACE[0..] == RACE;
  }
}
