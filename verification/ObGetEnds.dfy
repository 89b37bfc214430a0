/** Why a loop and a stream end, read off the history of a run. */
module ObGetEnds {
  import opened Types
  import opened AppRpc
  import opened ObGet
  import opened ObGetProofs
  import opened ObGetPrompt

  // ----- why a loop ends -----

  /** What makes the loop of observation k end: a timeout, or a reply that is not a CONTINUE for data. */
  predicate EndsLoop(s: State, k: uint16, a: Action) {
    && k in s.obs
    && (a == Action.Loop(k, Timeout)
        || (a == Action.Loop(k, Confirmed) && s.obs[k].dev.loop.Waiting? && s.obs[k].dev.slot != []
            && (s.obs[k].dev.slot[0] != Ack(3) || s.obs[k].dev.loop.n.code != 3)))
  }

  predicate Ended(s: State, k: uint16) {
    k in s.obs && s.obs[k].dev.loop.Exited?
  }

  lemma StepEndsLoop(s: State, a: Action, k: uint16)
    requires Inv(s) && Enabled(s, a) && a != Create(k)
    ensures Ended(Apply(s, a), k) <==> EndsLoop(s, k, a) || Ended(s, k)
  {
    hide Inv, ViewOf;
    if a.Device? && a.d.Establish? && s.down[0].ob == k { EstablishStarts(s, k); }
  }

  /** An establish request finds a loop that was never started. */
  lemma EstablishStarts(s: State, k: uint16)
    requires Inv(s) && k in s.obs && s.down != [] && s.down[0] == EstabReq(k)
    ensures s.obs[k].dev.loop.Unborn?
  {
    hide ObInv;
    assert ViewOf(s, k).reqs > 0;
    ReqIsUnborn(s.obs[k], ViewOf(s, k));
  }

  /** Some step of the run ends the loop of observation k. */
  predicate SomeEndsLoop(s: State, acts: seq<Action>, k: uint16)
    requires Runs(s, acts)
    decreases |acts|
  {
    acts != [] && (EndsLoop(s, k, acts[0]) || SomeEndsLoop(Apply(s, acts[0]), acts[1..], k))
  }

  /** In every run, while its id is not taken again, a loop has ended if and only if it timed out waiting for a
      confirmation, or got a reply that was stray or not CONTINUE, or an answer to its terminating notice.  A data
      notice that is confirmed leaves it free for the next one. */
  lemma {:induction false} LoopEndsBecause(s: State, acts: seq<Action>, k: uint16)
    requires Inv(s) && Runs(s, acts) && Create(k) !in acts
    ensures Ended(Final(s, acts), k) <==> Ended(s, k) || SomeEndsLoop(s, acts, k)
    decreases |acts|
  {
    hide Inv, Enabled, Apply, EndsLoop, Ended;
    if acts != [] {
      assert acts[0] in acts && forall a :: a in acts[1..] ==> a in acts;
      StepEndsLoop(s, acts[0], k);
      StepKeepsInv(s, acts[0]);
      LoopEndsBecause(Apply(s, acts[0]), acts[1..], k);
    }
  }

  /** A free loop takes whatever its handler has put on its channel, and the terminating notice once it is closed. */
  lemma FreeLoopTakes(s: State, k: uint16)
    requires !s.crashed && k in s.obs && s.obs[k].dev.loop.Idle?
    ensures var d := s.obs[k].dev; var m := |d.produced|; var take := Action.Loop(k, Take);
      m < |d.emitted| ==> Enabled(s, take) && Apply(s, take).obs[k].dev.loop == Holding(Notice(3, d.emitted[m]))
    ensures var d := s.obs[k].dev; var take := Action.Loop(k, TakeEnd);
      d.finished && |d.produced| == |d.emitted| ==>
        Enabled(s, take) && Apply(s, take).obs[k].dev.loop == Holding(Notice(4, []))
  {
  }

  // ----- what the last frame tells -----

  /** Why the stream of a call ended. */
  datatype Why = TimedOut | Offline | UserLeft | Answered(r: Reply) | Closed(n: Notice) | Shut

  /** The reason for which a step of the call ends its attention, if it does. */
  function WhyOf(o: SrvSide, u: UserAct): Option<Why> {
    match u
    case EstabTimeout => Some(TimedOut)
    case EstabDone => if o.answer == [] || o.answer[0] == Ack(3) then None else Some(Answered(o.answer[0]))
    case Serve(SessionDone) => Some(Offline)
    case Serve(StreamDone) => Some(UserLeft)
    case Serve(ChanClosed) => Some(Shut)
    case Serve(Notified(n)) => if n.code == 3 then None else Some(Closed(n))
    case _ => None
  }

  /** What the user sees last. */
  function Tells(why: Why, n: nat): seq<Frame> {
    match why
    case TimedOut => [Frame(0, DeviceTimeout, [])]
    case Offline => [Frame(n % 0x1_0000_0000, DeviceOffline, [])]
    case UserLeft => []
    case Shut => [Frame(n % 0x1_0000_0000, Terminate, [])]
    case Answered(Ack(5)) => [Frame(0, NotFound, [])]
    case Answered(Ack(code)) => [Frame(0, ToRpcCode(code), [])]
    case Answered(Stray) => [Frame(0, InternalServerError, [])]
    case Closed(m) => [Frame(n % 0x1_0000_0000, if m.code == 4 then Terminate else ToRpcCode(m.code), m.data)]
  }

  predicate Attends(s: State, k: uint16) {
    k in s.obs && Attending(s.obs[k].srv.caller)
  }

  /** The frames of a call that attends are numbered on. */
  predicate Counts(s: State, k: uint16) {
    Attends(s, k) ==> s.obs[k].srv.fid == Fid(|s.obs[k].srv.frames|)
  }

  lemma StepTells(s: State, a: Action, k: uint16, why: Why)
    requires Enabled(s, a) && Counts(s, k) && Attends(s, k) && StepReason(s, k, a) == Some(why)
    ensures k in Apply(s, a).obs && !Attends(Apply(s, a), k)
    ensures Apply(s, a).obs[k].srv.frames == s.obs[k].srv.frames + Tells(why, |s.obs[k].srv.frames|)
  {
  }

  /** A call that attends goes on attending unless it ends for one of the reasons. */
  lemma UserGoesOn(o: SrvSide, u: UserAct)
    requires UserCan(o, u) && WhyOf(o, u).None? && Attending(o.caller) && o.fid == Fid(|o.frames|)
    ensures var o' := UserStep(o, u); Attending(o'.caller) && o'.fid == Fid(|o'.frames|)
  {
    FidStep(|o.frames|);
  }

  lemma StepGoesOn(s: State, a: Action, k: uint16)
    requires Enabled(s, a) && Counts(s, k) && Attends(s, k) && a != Create(k) && StepReason(s, k, a).None?
    ensures k in Apply(s, a).obs && Attends(Apply(s, a), k) && Counts(Apply(s, a), k)
  {
    hide UserStep, UserCan, LoopStep, LoopCan, WhyOf;
    if a.User? && a.k == k { UserGoesOn(s.obs[k].srv, a.u); }
  }

  lemma UserIsOver(o: SrvSide, u: UserAct)
    requires UserCan(o, u) && !Attending(o.caller)
    ensures !Attending(UserStep(o, u).caller) && UserStep(o, u).frames == o.frames
  {
  }

  lemma StepIsOver(s: State, a: Action, k: uint16)
    requires Enabled(s, a) && k in s.obs && !Attends(s, k) && a != Create(k)
    ensures k in Apply(s, a).obs && !Attends(Apply(s, a), k) && Apply(s, a).obs[k].srv.frames == s.obs[k].srv.frames
  {
    hide UserStep, UserCan, LoopStep, LoopCan;
    if a.User? && a.k == k { UserIsOver(s.obs[k].srv, a.u); }
  }

  /** Once a call has stopped attending, its stream does not change. */
  lemma {:induction false} StaysOver(s: State, acts: seq<Action>, k: uint16)
    requires Runs(s, acts) && k in s.obs && !Attends(s, k) && Create(k) !in acts
    ensures k in Final(s, acts).obs && !Attends(Final(s, acts), k)
    ensures Final(s, acts).obs[k].srv.frames == s.obs[k].srv.frames
    decreases |acts|
  {
    hide Enabled, Apply, Attends;
    if acts != [] {
      assert acts[0] in acts && forall a :: a in acts[1..] ==> a in acts;
      StepIsOver(s, acts[0], k);
      StaysOver(Apply(s, acts[0]), acts[1..], k);
    }
  }

  /** The reason for which a step ends the attention of the call, if it does. */
  function StepReason(s: State, k: uint16, a: Action): Option<Why> {
    if k in s.obs && a.User? && a.k == k then WhyOf(s.obs[k].srv, a.u) else None
  }

  /** The first reason in the run. */
  function EndReason(s: State, acts: seq<Action>, k: uint16): Option<Why>
    requires Runs(s, acts)
    decreases |acts|
  {
    if acts == [] then None
    else if StepReason(s, k, acts[0]).Some? then StepReason(s, k, acts[0])
    else EndReason(Apply(s, acts[0]), acts[1..], k)
  }

  /** A stream without its last frame. */
  predicate TellsTruth(frames: seq<Frame>, why: Why) {
    var m := |frames| - |Tells(why, 0)|;
    m >= 0 && frames[m..] == Tells(why, m)
  }

  /** In every run, while its id is not taken again: a call has stopped attending if and only if one of its steps
      ended its attention, and then its stream ends with the frame that the reason calls for: DEVICEID_TIMEOUT for
      an establishment that timed out, DEVICEID_OFFLINE for a session that ended, NOT_FOUND for a device without a
      handler, TERMINATE for a handler that closed its channel, and none for a user who left. */
  lemma {:induction false} LastFrameTells(s: State, acts: seq<Action>, k: uint16)
    requires k in s.obs && Runs(s, acts) && Attends(s, k) && Counts(s, k) && Create(k) !in acts
    ensures k in Final(s, acts).obs
    ensures Attends(Final(s, acts), k) <==> EndReason(s, acts, k).None?
    ensures EndReason(s, acts, k).Some? ==>
      TellsTruth(Final(s, acts).obs[k].srv.frames, EndReason(s, acts, k).value)
    decreases |acts|
  {
    hide Enabled, Apply, Attends, StepReason, Counts;
    if acts != [] {
      assert acts[0] in acts && forall a :: a in acts[1..] ==> a in acts;
      if StepReason(s, k, acts[0]).None? {
        StepGoesOn(s, acts[0], k);
        LastFrameTells(Apply(s, acts[0]), acts[1..], k);
      } else {
        var why := StepReason(s, k, acts[0]).value;
        StepTells(s, acts[0], k, why);
        StaysOver(Apply(s, acts[0]), acts[1..], k);
        TellsLength(why, |s.obs[k].srv.frames|);
      }
    }
  }

  lemma TellsLength(why: Why, n: nat)
    ensures |Tells(why, n)| == |Tells(why, 0)|
  {
  }
}
