/** Streams that get through: whatever a handler emits, some run shows all of it and closes. */
module ObGetStreams {
  import opened Types
  import opened AppRpc
  import opened ObGet

  // ----- runs that lead somewhere -----

  ghost predicate Leads(acts: seq<Action>, s: State, s': State) {
    Runs(s, acts) && Final(s, acts) == s'
  }

  ghost predicate Reaches(s: State, s': State) {
    exists acts :: Leads(acts, s, s')
  }

  lemma {:induction false} LeadsOn(acts: seq<Action>, s: State, s': State, a: Action)
    requires Leads(acts, s, s') && Enabled(s', a)
    ensures Leads(acts + [a], s, Apply(s', a))
    decreases |acts|
  {
    hide Enabled, Apply;
    if acts == [] {
      assert acts + [a] == [a] && [a][1..] == [];
      assert Leads([], Apply(s, a), Apply(s, a));
    } else {
      LeadsOn(acts[1..], Apply(s, acts[0]), s', a);
      assert (acts + [a])[1..] == acts[1..] + [a];
    }
  }

  lemma On(s: State, s': State, a: Action, next: State)
    requires Reaches(s, s') && Enabled(s', a)
    requires Apply(s', a).obs == next.obs && next == Apply(s', a).(obs := next.obs)
    ensures Reaches(s, next)
  {
    hide Enabled, Apply;
    var acts :| Leads(acts, s, s');
    LeadsOn(acts, s, s', a);
  }

  lemma Here(s: State)
    ensures Reaches(s, s)
  {
    assert Leads([], s, s);
  }

  // ----- one observation in the middle of anything -----

  /** Nothing is on the wire, both readers are free, and id k is free. */
  predicate AtRest(s: State, k: uint16) {
    !s.crashed && s.srv.Reading? && s.dev.Listening? && s.up == [] && s.down == [] && Quiet(s, k)
  }

  /** The state s with observation k as given. */
  function Mid(
      s: State, k: uint16, d: DevSide, o: SrvSide, up: seq<Up>, down: seq<Down>, r: SrvReader, e: DevReader): State {
    s.(obs := s.obs[k := Ob(d, o)], up := up, down := down, srv := r, dev := e)
  }

  // ----- single steps of observation k -----

  lemma LoopOn(
      s: State, k: uint16, d: DevSide, o: SrvSide, up: seq<Up>, down: seq<Down>, r: SrvReader, e: DevReader, l: LoopAct)
    requires !s.crashed && Reaches(s, Mid(s, k, d, o, up, down, r, e)) && LoopCan(d, l) && !l.Push?
    ensures Reaches(s, Mid(s, k, LoopStep(d, l), o, up, down, r, e))
  {
    hide Reaches, LoopCan, LoopStep;
    On(s, Mid(s, k, d, o, up, down, r, e), Action.Loop(k, l), Mid(s, k, LoopStep(d, l), o, up, down, r, e));
  }

  lemma UserOn(
      s: State, k: uint16, d: DevSide, o: SrvSide, up: seq<Up>, down: seq<Down>, r: SrvReader, e: DevReader, u: UserAct)
    requires !s.crashed && Reaches(s, Mid(s, k, d, o, up, down, r, e)) && UserCan(o, u) && !u.SendEstab?
    ensures Reaches(s, Mid(s, k, d, UserStep(o, u), up, down, r, e))
  {
    hide Reaches, UserCan, UserStep;
    On(s, Mid(s, k, d, o, up, down, r, e), User(k, u), Mid(s, k, d, UserStep(o, u), up, down, r, e));
  }

  /** The device queues what its loop holds, and the server reads it. */
  lemma NotifyOn(s: State, k: uint16, d: DevSide, o: SrvSide)
    requires !s.crashed && d.loop.Holding? && |d.loop.n.data| <= 4093 && o.live
    requires Reaches(s, Mid(s, k, d, o, [], [], Reading, Listening))
    ensures Reaches(s, Mid(s, k, LoopStep(d, Push), o, [], [], Loaded(k, d.loop.n), Listening))
  {
    hide Reaches, LoopStep;
    var n, d1 := d.loop.n, LoopStep(d, Push);
    On(s, Mid(s, k, d, o, [], [], Reading, Listening), Action.Loop(k, Push),
       Mid(s, k, d1, o, [NotifyReq(k, n)], [], Reading, Listening));
    On(s, Mid(s, k, d1, o, [NotifyReq(k, n)], [], Reading, Listening), Server(TakeNotify),
       Mid(s, k, d1, o, [], [], Loaded(k, n), Listening));
  }

  /** The server puts it into the channel of the call and confirms it. */
  lemma EnqueueOn(s: State, k: uint16, d: DevSide, o: SrvSide, n: Notice)
    requires !s.crashed && !o.closed && o.chan == []
    requires Reaches(s, Mid(s, k, d, o, [], [], Loaded(k, n), Listening))
    ensures Reaches(s, Mid(s, k, d, o.(chan := [n], enqueued := o.enqueued + 1), [], [NotifyResp(k, STATUS_CONTINUE)],
                           Reading, Listening))
  {
    hide Reaches;
    var o1 := o.(chan := [n], enqueued := o.enqueued + 1);
    assert o.chan + [n] == [n];
    On(s, Mid(s, k, d, o, [], [], Loaded(k, n), Listening), Server(Enqueue),
       Mid(s, k, d, o1, [], [], Replying(k, STATUS_CONTINUE), Listening));
    On(s, Mid(s, k, d, o1, [], [], Replying(k, STATUS_CONTINUE), Listening), Server(Confirm),
       Mid(s, k, d, o1, [], [NotifyResp(k, STATUS_CONTINUE)], Reading, Listening));
  }

  /** The loop gets its confirmation. */
  lemma ConfirmOn(s: State, k: uint16, d: DevSide, o: SrvSide)
    requires !s.crashed && d.loop.Waiting? && d.slot == []
    requires Reaches(s, Mid(s, k, d, o, [], [NotifyResp(k, STATUS_CONTINUE)], Reading, Listening))
    ensures Reaches(s, Mid(s, k, AfterReply(d.(slot := [Ack(STATUS_CONTINUE)])), o, [], [], Reading, Listening))
  {
    hide Reaches;
    var d1 := d.(slot := [Ack(STATUS_CONTINUE)]);
    On(s, Mid(s, k, d, o, [], [NotifyResp(k, STATUS_CONTINUE)], Reading, Listening), Device(DeliverConfirm(k)),
       Mid(s, k, d1, o, [], [], Reading, Listening));
    LoopOn(s, k, d1, o, [], [], Reading, Listening, Confirmed);
  }

  lemma CreateOn(s: State, k: uint16)
    requires AtRest(s, k)
    ensures Reaches(s, Mid(s, k, FRESH.dev, FRESH.srv, [], [], Reading, Listening))
  {
    hide Reaches, Quiet;
    Here(s);
    On(s, s, Create(k), Mid(s, k, FRESH.dev, FRESH.srv, [], [], Reading, Listening));
  }

  /** The request reaches the device, which starts a loop. */
  lemma RequestOn(s: State, k: uint16, d: DevSide, o: SrvSide)
    requires !s.crashed && o.caller.Created?
    requires Reaches(s, Mid(s, k, d, o, [], [], Reading, Listening))
    ensures Reaches(s, Mid(s, k, d.(loop := Idle), o.(caller := Establishing), [], [], Reading,
                           Answering(k, STATUS_CONTINUE)))
  {
    hide Reaches;
    var o1 := o.(caller := Establishing);
    On(s, Mid(s, k, d, o, [], [], Reading, Listening), User(k, SendEstab),
       Mid(s, k, d, o1, [], [EstabReq(k)], Reading, Listening));
    On(s, Mid(s, k, d, o1, [], [EstabReq(k)], Reading, Listening), Device(Establish(Started)),
       Mid(s, k, d.(loop := Idle), o1, [], [], Reading, Answering(k, STATUS_CONTINUE)));
  }

  /** The answer reaches the call. */
  lemma AnswerOn(s: State, k: uint16, d: DevSide, o: SrvSide)
    requires !s.crashed && o.caller.Establishing? && o.answer == []
    requires Reaches(s, Mid(s, k, d, o, [], [], Reading, Answering(k, STATUS_CONTINUE)))
    ensures Reaches(s, Mid(s, k, d, o.(answer := [Ack(STATUS_CONTINUE)]), [], [], Reading, Listening))
  {
    hide Reaches;
    var up := [EstabResp(k, STATUS_CONTINUE)];
    On(s, Mid(s, k, d, o, [], [], Reading, Answering(k, STATUS_CONTINUE)), Device(AnswerEstab),
       Mid(s, k, d, o, up, [], Reading, Listening));
    On(s, Mid(s, k, d, o, up, [], Reading, Listening), Server(DeliverEstab(k)),
       Mid(s, k, d, o.(answer := [Ack(STATUS_CONTINUE)]), [], [], Reading, Listening));
  }

  // ----- a whole stream -----

  /** The device's side with nothing under way, after it has sent n notices. */
  function Rest(ds: seq<Bytes>, finished: bool, ns: seq<Notice>, loop: Loop, sent: nat, confirmed: nat): DevSide {
    DevSide(ds, finished, ns, loop, [], sent, confirmed)
  }

  /** The server's side of a call that serves and has shown n frames. */
  function Shown(frames: seq<Frame>, chan: seq<Notice>): SrvSide {
    SrvSide(true, chan, false, 0, Serving, [], Fid(|frames|), frames, |frames| + |chan|, |frames|)
  }

  function Notices(ds: seq<Bytes>): (ns: seq<Notice>)
    ensures |ns| == |ds|
  {
    if ds == [] then [] else Notices(ds[..|ds| - 1]) + [Notice(STATUS_CONTINUE, ds[|ds| - 1])]
  }

  /** The frames of a stream that shows ds, numbered from 0. */
  function Numbered(ds: seq<Bytes>): (fs: seq<Frame>)
    ensures |fs| == |ds| && forall i :: 0 <= i < |ds| ==> fs[i] == Frame(i % 0x1_0000_0000, Continue, ds[i])
  {
    if ds == [] then []
    else Numbered(ds[..|ds| - 1]) + [Frame((|ds| - 1) % 0x1_0000_0000, Continue, ds[|ds| - 1])]
  }

  /** The observation serves, has shown ds, and nothing about it is under way. */
  function Between(s: State, k: uint16, ds: seq<Bytes>): State {
    Mid(s, k, Rest(ds, false, Notices(ds), Idle, |ds|, |ds|), Shown(Numbered(ds), []), [], [], Reading, Listening)
  }

  lemma Established(s: State, k: uint16)
    requires AtRest(s, k)
    ensures Reaches(s, Between(s, k, []))
  {
    CreateOn(s, k);
    hide Reaches, AtRest;
    assert !s.crashed by { NotCrashed(s, k); }
    RequestOn(s, k, FRESH.dev, FRESH.srv);
    AnswerOn(s, k, FRESH.dev.(loop := Idle), FRESH.srv.(caller := Establishing));
    var o := FRESH.srv.(caller := Establishing, answer := [Ack(STATUS_CONTINUE)]);
    UserOn(s, k, FRESH.dev.(loop := Idle), o, [], [], Reading, Listening, EstabDone);
    assert UserStep(o, EstabDone) == Shown(Numbered([]), []);
    assert FRESH.dev.(loop := Idle) == Rest([], false, Notices([]), Idle, 0, 0);
  }

  /** A notice that the loop holds is shown and confirmed. */
  lemma Carried(s: State, k: uint16, d: DevSide, o: SrvSide)
    requires !s.crashed && d.loop.Holding? && |d.loop.n.data| <= 4093
    requires o.caller.Serving? && o.live && !o.closed && o.chan == []
    requires Reaches(s, Mid(s, k, d, o, [], [], Reading, Listening))
    ensures var o1 := o.(chan := [d.loop.n], enqueued := o.enqueued + 1);
      var d1 := AfterReply(d.(loop := Waiting(d.loop.n), slot := [Ack(STATUS_CONTINUE)], sent := d.sent + 1));
      Reaches(s, Mid(s, k, d1, AfterServe(o1, Notified(d.loop.n)), [], [], Reading, Listening))
  {
    hide Reaches, AfterServe;
    var n := d.loop.n;
    var d1 := d.(loop := Waiting(n), slot := [], sent := d.sent + 1);
    var o1 := o.(chan := [n], enqueued := o.enqueued + 1);
    NotifyOn(s, k, d, o);
    EnqueueOn(s, k, d1, o, n);
    UserOn(s, k, d1, o1, [], [NotifyResp(k, STATUS_CONTINUE)], Reading, Listening, Serve(Notified(n)));
    ConfirmOn(s, k, d1, AfterServe(o1, Notified(n)));
  }

  lemma ShowsData(frames: seq<Frame>, data: Bytes)
    ensures var n := Notice(STATUS_CONTINUE, data); var o := Shown(frames, []).(chan := [n], enqueued := |frames| + 1);
      AfterServe(o, Notified(n)) == Shown(frames + [Frame(|frames| % 0x1_0000_0000, Continue, data)], [])
  {
    FidStep(|frames|);
  }

  /** The user sees the next piece of data, and the loop is free again. */
  lemma OneMore(s: State, k: uint16, ds: seq<Bytes>, data: Bytes)
    requires !s.crashed && |data| <= 4093 && Reaches(s, Between(s, k, ds))
    ensures Reaches(s, Between(s, k, ds + [data]))
  {
    hide Reaches, AfterServe;
    var all, n, m := ds + [data], Notice(STATUS_CONTINUE, data), |ds|;
    assert all[..m] == ds;
    var d, o := Rest(ds, false, Notices(ds), Idle, m, m), Shown(Numbered(ds), []);
    var d1, d2 := d.(emitted := all), d.(emitted := all, produced := Notices(all), loop := Holding(n));
    LoopOn(s, k, d, o, [], [], Reading, Listening, Emit(data));
    LoopOn(s, k, d1, o, [], [], Reading, Listening, Take);
    assert LoopStep(d1, Take) == d2;
    Carried(s, k, d2, o);
    ShowsData(Numbered(ds), data);
    assert AfterReply(d2.(loop := Waiting(n), slot := [Ack(STATUS_CONTINUE)], sent := m + 1))
        == Rest(all, false, Notices(all), Idle, m + 1, m + 1);
  }

  lemma {:induction false} AllSeen(s: State, k: uint16, ds: seq<Bytes>)
    requires AtRest(s, k) && forall i :: 0 <= i < |ds| ==> |ds[i]| <= 4093
    ensures Reaches(s, Between(s, k, ds))
  {
    hide Reaches, AtRest;
    if ds == [] {
      Established(s, k);
    } else {
      var n := |ds| - 1;
      AllSeen(s, k, ds[..n]);
      assert !s.crashed by { NotCrashed(s, k); }
      OneMore(s, k, ds[..n], ds[n]);
      assert ds == ds[..n] + [ds[n]];
    }
  }

  lemma NotCrashed(s: State, k: uint16)
    requires AtRest(s, k)
    ensures !s.crashed
  {
  }

  /** The whole stream: numbered data, then TERMINATE. */
  function Complete(ds: seq<Bytes>): seq<Frame> {
    Numbered(ds) + [Frame(|ds| % 0x1_0000_0000, Terminate, [])]
  }

  /** The handler has closed its channel, the user has seen everything, and both ends are done with observation k. */
  function Done(s: State, k: uint16, ds: seq<Bytes>): State {
    var n := |ds|;
    Mid(s, k, DevSide(ds, true, Notices(ds) + [Notice(STATUS_TERMINATE, [])], Exited, [], n + 1, n + 1),
        SrvSide(false, [], true, 0, Gone, [], Fid(n), Complete(ds), n + 1, n + 1), [], [], Reading, Listening)
  }

  /** The server's side of a call that has shown these frames and then TERMINATE, and leaves. */
  function Ending(frames: seq<Frame>): SrvSide {
    var n := |frames|;
    SrvSide(true, [], false, 0, Leaving, [], Fid(n), frames + [Frame(n % 0x1_0000_0000, Terminate, [])], n + 1, n + 1)
  }

  lemma ShowsEnd(frames: seq<Frame>)
    ensures var n := Notice(STATUS_TERMINATE, []); var o := Shown(frames, []).(chan := [n], enqueued := |frames| + 1);
      AfterServe(o, Notified(n))
      == Ending(frames)
  {
  }

  lemma Closes(s: State, k: uint16, ds: seq<Bytes>)
    requires !s.crashed && Reaches(s, Between(s, k, ds))
    ensures Reaches(s, Mid(s, k, Done(s, k, ds).obs[k].dev, Ending(Numbered(ds)), [], [], Reading, Listening))
  {
    hide Reaches, AfterServe;
    var t, n, o := Notice(STATUS_TERMINATE, []), |ds|, Shown(Numbered(ds), []);
    var d := Rest(ds, false, Notices(ds), Idle, n, n);
    var d1 := d.(finished := true);
    var d2 := d1.(produced := Notices(ds) + [t], loop := Holding(t));
    LoopOn(s, k, d, o, [], [], Reading, Listening, Finish);
    LoopOn(s, k, d1, o, [], [], Reading, Listening, TakeEnd);
    assert LoopStep(d1, TakeEnd) == d2;
    Carried(s, k, d2, o);
    ShowsEnd(Numbered(ds));
    assert AfterReply(d2.(loop := Waiting(t), slot := [Ack(STATUS_CONTINUE)], sent := n + 1))
        == Done(s, k, ds).obs[k].dev;
  }

  lemma CallEnds(s: State, k: uint16, d: DevSide, o: SrvSide)
    requires !s.crashed && o.caller.Leaving? && o.live
    requires Reaches(s, Mid(s, k, d, o, [], [], Reading, Listening))
    ensures Reaches(s, Mid(s, k, d, o.(caller := Gone, live := false, closed := true), [], [], Reading, Listening))
  {
    hide Reaches;
    UserOn(s, k, d, o, [], [], Reading, Listening, Delete);
    UserOn(s, k, d, o.(caller := Closing, live := false), [], [], Reading, Listening, Close);
  }

  /** Whatever a handler emits, in pieces of at most 4093 bytes, and whatever other observations there are: some run
      shows the user all of it, numbered from 0 modulo 2^32, then TERMINATE, and leaves nothing behind. */
  lemma EverythingCanBeShown(s: State, k: uint16, ds: seq<Bytes>)
    requires AtRest(s, k) && forall i :: 0 <= i < |ds| ==> |ds[i]| <= 4093
    ensures Reaches(s, Done(s, k, ds)) && Done(s, k, ds).obs[k].srv.frames == Complete(ds)
  {
    hide Reaches, AtRest;
    AllSeen(s, k, ds);
    assert !s.crashed by { NotCrashed(s, k); }
    Closes(s, k, ds);
    CallEnds(s, k, Done(s, k, ds).obs[k].dev, Ending(Numbered(ds)));
  }

  /** In particular from the start. */
  lemma StreamFromStart(k: uint16, ds: seq<Bytes>)
    requires forall i :: 0 <= i < |ds| ==> |ds[i]| <= 4093
    ensures exists acts :: Runs(INIT, acts) && k in Final(INIT, acts).obs
                           && Final(INIT, acts).obs[k].srv.frames == Complete(ds)
  {
    assert AtRest(INIT, k);
    EverythingCanBeShown(INIT, k, ds);
    var acts :| Leads(acts, INIT, Done(INIT, k, ds));
  }

  // ----- streams that end otherwise, in any state -----

  /** s with the server's side of observation k as given. */
  function Side(s: State, k: uint16, o: SrvSide): State
    requires k in s.obs
  {
    PutSrv(s, k, o)
  }

  lemma Did(s: State, k: uint16, o: SrvSide, u: UserAct)
    requires !s.crashed && k in s.obs && Reaches(s, Side(s, k, o)) && UserCan(o, u) && !u.SendEstab?
    ensures Reaches(s, Side(s, k, UserStep(o, u)))
  {
    hide Reaches, UserCan, UserStep;
    On(s, Side(s, k, o), User(k, u), Side(s, k, UserStep(o, u)));
  }

  /** A call that leaves removes its observation and closes its channel. */
  function Left(o: SrvSide): SrvSide {
    o.(caller := Gone, live := false, closed := true)
  }

  lemma Leaves(s: State, k: uint16, o: SrvSide)
    requires !s.crashed && k in s.obs && o.caller.Leaving? && o.live && Reaches(s, Side(s, k, o))
    ensures Reaches(s, Side(s, k, Left(o)))
  {
    hide Reaches;
    Did(s, k, o, Delete);
    Did(s, k, o.(caller := Closing, live := false), Close);
  }

  /** Whatever the device does, a call can always end by its own steps: an establishment times out, a user leaves;
      and a call that has been told so shows that the session is over. */
  lemma CallCanEnd(s: State, k: uint16)
    requires !s.crashed && k in s.obs && s.obs[k].srv.live
    ensures var o := s.obs[k].srv;
      && (o.caller.Establishing? ==>
            Reaches(s, Side(s, k, Left(o.(frames := o.frames + [Frame(0, DeviceTimeout, [])])))))
      && (o.caller.Serving? ==> Reaches(s, Side(s, k, Left(o))))
      && (o.caller.Serving? && o.tokens > 0 ==>
            var o1 := o.(frames := o.frames + [Frame(o.fid, DeviceOffline, [])], tokens := o.tokens - 1);
            Reaches(s, Side(s, k, Left(o1))))
  {
    hide Reaches;
    var o := s.obs[k].srv;
    Here(s);
    assert Side(s, k, o) == s by { assert s.obs[k := s.obs[k]] == s.obs; }
    if o.caller.Establishing? {
      Did(s, k, o, EstabTimeout);
      Leaves(s, k, UserStep(o, EstabTimeout));
    }
    if o.caller.Serving? {
      Did(s, k, o, Serve(StreamDone));
      assert o.frames + [] == o.frames;
      Leaves(s, k, o.(caller := Leaving));
      if o.tokens > 0 {
        Did(s, k, o, Serve(SessionDone));
        Leaves(s, k, UserStep(o, Serve(SessionDone)));
      }
    }
  }

  /** A session that exits tells every stored observation once. */
  lemma ExitTells(s: State, k: uint16)
    requires !s.crashed && k in s.obs && s.obs[k].srv.live && k !in s.told
    ensures var o := s.obs[k].srv;
      Reaches(s, Side(s, k, o.(tokens := o.tokens + 1)).(exiting := true, told := s.told + {k}))
  {
    hide Reaches;
    var o := s.obs[k].srv;
    Here(s);
    if !s.exiting { On(s, s, Server(BeginExit), s.(exiting := true)); }
    On(s, s.(exiting := true), Server(Tell(k)),
       Side(s, k, o.(tokens := o.tokens + 1)).(exiting := true, told := s.told + {k}));
  }

  /** A notification for an observation that is gone is answered TERMINATE, and then its loop ends. */
  lemma GoneIsTerminated(s: State, k: uint16, n: Notice)
    requires !s.crashed && k in s.obs && !s.obs[k].srv.live && s.srv.Reading? && s.dev.Listening?
    requires s.up == [NotifyReq(k, n)] && s.down == [] && |n.data| <= 4093
    requires s.obs[k].dev.loop.Waiting? && s.obs[k].dev.slot == []
    ensures Reaches(s, PutDev(s, k, s.obs[k].dev.(loop := Exited)).(up := []))
  {
    hide Reaches;
    var d := s.obs[k].dev;
    Here(s);
    On(s, s, Server(TakeNotify), s.(up := [], srv := Replying(k, 4)));
    On(s, s.(up := [], srv := Replying(k, 4)), Server(Confirm), s.(up := [], down := [NotifyResp(k, 4)]));
    On(s, s.(up := [], down := [NotifyResp(k, 4)]), Device(DeliverConfirm(k)),
       PutDev(s, k, d.(slot := [Ack(4)])).(up := []));
    assert AfterReply(d.(slot := [Ack(4)])) == d.(loop := Exited);
    On(s, PutDev(s, k, d.(slot := [Ack(4)])).(up := []), Action.Loop(k, Confirmed),
       PutDev(s, k, d.(loop := Exited)).(up := []));
  }

  /** A loop that waits for a confirmation can always give up. */
  lemma LoopCanGiveUp(s: State, k: uint16)
    requires !s.crashed && k in s.obs && s.obs[k].dev.loop.Waiting?
    ensures Reaches(s, PutDev(s, k, s.obs[k].dev.(loop := Exited)))
  {
    Here(s);
    On(s, s, Action.Loop(k, Timeout), PutDev(s, k, s.obs[k].dev.(loop := Exited)));
  }

  /** A notification of more than 4093 bytes ends the server's reader, and nothing else happens. */
  lemma TooLongStopsReader(s: State)
    requires !s.crashed && s.srv.Reading? && s.up != [] && s.up[0].NotifyReq?
    ensures Enabled(s, Server(TakeNotify))
    ensures Apply(s, Server(TakeNotify)) == s.(srv := Stopped) <==> |s.up[0].n.data| > 4093
  {
  }

  /** A device without a handler answers so, and the user sees NOT_FOUND. */
  lemma NoHandlerIsShown(s: State, k: uint16)
    requires AtRest(s, k)
    ensures Reaches(s, Mid(s, k, FRESH.dev, Left(FRESH.srv).(frames := [Frame(0, NotFound, [])]), [], [], Reading,
                           Listening))
  {
    CreateOn(s, k);
    hide Reaches, AtRest;
    assert !s.crashed by { NotCrashed(s, k); }
    var d, o := FRESH.dev, FRESH.srv.(caller := Establishing);
    var up := [EstabResp(k, 5)];
    On(s, Mid(s, k, d, FRESH.srv, [], [], Reading, Listening), User(k, SendEstab),
       Mid(s, k, d, o, [], [EstabReq(k)], Reading, Listening));
    On(s, Mid(s, k, d, o, [], [EstabReq(k)], Reading, Listening), Device(Establish(NoHandler)),
       Mid(s, k, d, o, [], [], Reading, Answering(k, 5)));
    On(s, Mid(s, k, d, o, [], [], Reading, Answering(k, 5)), Device(AnswerEstab),
       Mid(s, k, d, o, up, [], Reading, Listening));
    NotFoundArrives(s, k, d, o);
  }

  lemma NotFoundArrives(s: State, k: uint16, d: DevSide, o: SrvSide)
    requires !s.crashed && o == FRESH.srv.(caller := Establishing)
    requires Reaches(s, Mid(s, k, d, o, [EstabResp(k, 5)], [], Reading, Listening))
    ensures Reaches(s, Mid(s, k, d, Left(FRESH.srv).(frames := [Frame(0, NotFound, [])]), [], [], Reading, Listening))
  {
    hide Reaches;
    var o1 := o.(answer := [Ack(5)]);
    var o2 := o.(caller := Leaving, frames := [Frame(0, NotFound, [])]);
    On(s, Mid(s, k, d, o, [EstabResp(k, 5)], [], Reading, Listening), Server(DeliverEstab(k)),
       Mid(s, k, d, o1, [], [], Reading, Listening));
    UserOn(s, k, d, o1, [], [], Reading, Listening, EstabDone);
    assert UserStep(o1, EstabDone) == o2;
    CallEnds(s, k, d, o2);
  }

  /** A handler that returns an error ends the device's reader: the request is taken and nobody answers. */
  lemma HandlerErrorEndsReader(s: State, k: uint16)
    requires !s.crashed && s.dev.Listening? && s.down != [] && s.down[0] == EstabReq(k) && k in s.obs
    ensures Enabled(s, Device(Establish(HandlerError)))
    ensures Apply(s, Device(Establish(HandlerError))) == s.(down := s.down[1..], dev := Halted)
  {
  }

  /** Whatever else is on the wire, the server's reader takes the messages in order: a notification of an observation
      that is stored goes to its channel, if that is empty, and is confirmed with CONTINUE; one of an observation that
      is not stored is answered TERMINATE. */
  lemma ReaderTakesInOrder(s: State, k: uint16, n: Notice)
    requires !s.crashed && s.srv.Reading? && s.up != [] && s.up[0] == NotifyReq(k, n) && |n.data| <= 4093
    requires k in s.obs && s.obs[k].srv.live ==> s.obs[k].srv.chan == [] && !s.obs[k].srv.closed
    ensures var up := s.up[1..];
      if k in s.obs && s.obs[k].srv.live
      then var o := s.obs[k].srv.(chan := [n], enqueued := s.obs[k].srv.enqueued + 1);
        Reaches(s, Side(s, k, o).(up := up, down := s.down + [NotifyResp(k, 3)]))
      else Reaches(s, s.(up := up, down := s.down + [NotifyResp(k, 4)]))
  {
    hide Reaches;
    var up := s.up[1..];
    Here(s);
    if k in s.obs && s.obs[k].srv.live {
      var o := s.obs[k].srv;
      var o1 := o.(chan := [n], enqueued := o.enqueued + 1);
      assert o.chan + [n] == [n];
      On(s, s, Server(TakeNotify), s.(up := up, srv := Loaded(k, n)));
      On(s, s.(up := up, srv := Loaded(k, n)), Server(Enqueue), Side(s, k, o1).(up := up, srv := Replying(k, 3)));
      On(s, Side(s, k, o1).(up := up, srv := Replying(k, 3)), Server(Confirm),
         Side(s, k, o1).(up := up, down := s.down + [NotifyResp(k, 3)]));
    } else {
      On(s, s, Server(TakeNotify), s.(up := up, srv := Replying(k, 4)));
      On(s, s.(up := up, srv := Replying(k, 4)), Server(Confirm), s.(up := up, down := s.down + [NotifyResp(k, 4)]));
    }
  }

  /** Whatever else is on the wire, the device's reader starts a loop for an establish request before it queues the
      answer behind everything else. */
  lemma DeviceAnswersInOrder(s: State, k: uint16)
    requires !s.crashed && s.dev.Listening? && s.down != [] && s.down[0] == EstabReq(k) && k in s.obs
    ensures Reaches(s, PutDev(s, k, s.obs[k].dev.(loop := Idle)).(down := s.down[1..], up := s.up + [EstabResp(k, 3)]))
    ensures Reaches(s, s.(down := s.down[1..], up := s.up + [EstabResp(k, 5)]))
  {
    hide Reaches;
    var down, s1 := s.down[1..], PutDev(s, k, s.obs[k].dev.(loop := Idle));
    Here(s);
    On(s, s, Device(Establish(Started)), s1.(down := down, dev := Answering(k, 3)));
    On(s, s1.(down := down, dev := Answering(k, 3)), Device(AnswerEstab),
       s1.(down := down, up := s.up + [EstabResp(k, 3)]));
    On(s, s, Device(Establish(NoHandler)), s.(down := down, dev := Answering(k, 5)));
    On(s, s.(down := down, dev := Answering(k, 5)), Device(AnswerEstab),
       s.(down := down, up := s.up + [EstabResp(k, 5)]));
  }

  predicate AwaitsAnswer(s: State, k: uint16, code: uint8) {
    && s.srv.Reading? && s.up != [] && s.up[0] == EstabResp(k, code)
    && k in s.obs && s.obs[k].srv.caller.Establishing? && s.obs[k].srv.answer == []
  }

  predicate AwaitsConfirmation(s: State, k: uint16, code: uint8) {
    && s.dev.Listening? && s.down != [] && s.down[0] == NotifyResp(k, code)
    && k in s.obs && s.obs[k].dev.loop.Waiting? && s.obs[k].dev.slot == []
  }

  /** Whatever else is under way, replies reach the one that waits for them: an establish response its call, a
      confirmation its loop. */
  lemma RepliesArrive(s: State, k: uint16, code: uint8)
    requires !s.crashed
    ensures AwaitsAnswer(s, k, code) ==>
      Reaches(s, Side(s, k, s.obs[k].srv.(answer := [Ack(code)])).(up := s.up[1..]))
    ensures AwaitsConfirmation(s, k, code) ==>
      Reaches(s, PutDev(s, k, s.obs[k].dev.(slot := [Ack(code)])).(down := s.down[1..]))
  {
    hide Reaches;
    Here(s);
    if AwaitsAnswer(s, k, code) {
      On(s, s, Server(DeliverEstab(k)), Side(s, k, s.obs[k].srv.(answer := [Ack(code)])).(up := s.up[1..]));
    }
    if AwaitsConfirmation(s, k, code) {
      On(s, s, Device(DeliverConfirm(k)), PutDev(s, k, s.obs[k].dev.(slot := [Ack(code)])).(down := s.down[1..]));
    }
  }

  /** A reply can also be lost to a call that waits for something else, and then it is off the wire; and a reader can
      stop at any time between messages, when its connection fails. */
  lemma RepliesCanBeLost(s: State)
    requires !s.crashed
    ensures s.srv.Reading? && s.up != [] && s.up[0].EstabResp? ==> Reaches(s, s.(up := s.up[1..]))
    ensures s.dev.Listening? && s.down != [] && s.down[0].NotifyResp? ==> Reaches(s, s.(down := s.down[1..]))
    ensures s.srv.Reading? ==> Reaches(s, s.(srv := Stopped))
    ensures s.dev.Listening? ==> Reaches(s, s.(dev := Halted))
  {
    hide Reaches;
    Here(s);
    if s.srv.Reading? {
      On(s, s, Server(StopReading), s.(srv := Stopped));
      if s.up != [] && s.up[0].EstabResp? { On(s, s, Server(DivertEstab), s.(up := s.up[1..])); }
    }
    if s.dev.Listening? {
      On(s, s, Device(StopListening), s.(dev := Halted));
      if s.down != [] && s.down[0].NotifyResp? { On(s, s, Device(DivertConfirm), s.(down := s.down[1..])); }
    }
  }

  /** And a waiting loop or call can get a reply that is meant for something else. */
  lemma StrayReplies(s: State, k: uint16)
    requires !s.crashed && k in s.obs
    ensures s.obs[k].dev.loop.Waiting? && s.obs[k].dev.slot == [] ==>
      Reaches(s, PutDev(s, k, s.obs[k].dev.(slot := [Stray])))
    ensures s.obs[k].srv.caller.Establishing? && s.obs[k].srv.answer == [] ==>
      Reaches(s, Side(s, k, s.obs[k].srv.(answer := [Stray])))
  {
    hide Reaches;
    Here(s);
    if s.obs[k].dev.loop.Waiting? && s.obs[k].dev.slot == [] {
      On(s, s, Action.Loop(k, Strayed), PutDev(s, k, s.obs[k].dev.(slot := [Stray])));
    }
    if s.obs[k].srv.caller.Establishing? && s.obs[k].srv.answer == [] {
      On(s, s, User(k, Misdelivered), Side(s, k, s.obs[k].srv.(answer := [Stray])));
    }
  }
}
