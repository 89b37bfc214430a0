/** Why a call that still waits for its establish answer cannot block the server's reader.

    The reader blocks when it sends on a NotifyChan that is full, and while a call establishes nobody empties its
    channel.  The device starts its loop before it queues the answer, so one notification may overtake the answer;
    a second one cannot, because the device's reader queues the answer before it can hand the first confirmation
    to the loop. */
module ObGetPrompt {
  import opened Counting
  import opened Types
  import opened AppRpc
  import opened ObGet
  import opened ObGetProofs

  /** The notifications of observation k that are ahead of its establish response. */
  function Early(up: seq<Up>, k: uint16): nat {
    if up == [] || (up[0].EstabResp? && up[0].ob == k) then 0
    else (if up[0].NotifyReq? && up[0].ob == k then 1 else 0) + Early(up[1..], k)
  }

  lemma {:induction false} EarlyIsSome(up: seq<Up>, k: uint16)
    ensures Early(up, k) <= |Notes(up, k)|
  {
    if up != [] { EarlyIsSome(up[1..], k); }
  }

  lemma {:induction false} EarlyAppend(up: seq<Up>, m: Up, k: uint16)
    ensures Early(up + [m], k)
         == Early(up, k) + if EstabCodes(up, k) == [] && m.NotifyReq? && m.ob == k then 1 else 0
  {
    if up != [] {
      assert (up + [m])[1..] == up[1..] + [m];
      EarlyAppend(up[1..], m, k);
    } else {
      assert up + [m] == [m] && [m][1..] == [];
    }
  }

  predicate Held(srv: SrvReader, k: uint16) {
    srv.Loaded? && srv.ob == k
  }

  predicate Answers(dev: DevReader, k: uint16) {
    dev.Answering? && dev.ob == k
  }

  /** The call waits for its establish answer. */
  predicate Awaits(o: SrvSide) {
    o.caller.Establishing? && o.answer == []
  }

  /** No confirmation has reached the loop. */
  predicate Unconfirmed(d: DevSide) {
    d.confirmed == 0 && (d.slot == [] || d.slot == [Stray])
  }

  /** At most one notification is ahead of the answer, and until the answer is queued the loop has not been
      confirmed. */
  predicate PromptOk(s: State, k: uint16) {
    k in s.obs && Awaits(s.obs[k].srv) ==>
      && s.obs[k].srv.enqueued + Bit(Held(s.srv, k)) + Early(s.up, k) <= 1
      && (!s.obs[k].dev.loop.Unborn? && EstabCodes(s.up, k) == [] ==>
            Answers(s.dev, k) && Unconfirmed(s.obs[k].dev))
  }

  /** The step hands on the establish response at the head of the pipe. */
  predicate HandsOn(s: State, a: Action) {
    a.Server? && (a.a.DeliverEstab? || a.a.DivertEstab?) && s.up != []
  }

  /** An establish response that its own call awaits is handed to that call, as it is when header ids do not
      collide; one that comes too late may go anywhere. */
  predicate Addressed(s: State, a: Action) {
    HandsOn(s, a) && s.up[0].ob in s.obs && Awaits(s.obs[s.up[0].ob].srv) ==> a.a == DeliverEstab(s.up[0].ob)
  }

  predicate AddressedRun(s: State, acts: seq<Action>)
    requires Runs(s, acts)
    decreases |acts|
  {
    acts == [] || (Addressed(s, acts[0]) && AddressedRun(Apply(s, acts[0]), acts[1..]))
  }

  /** What the invariant of the protocol says about a loop that has sent nothing yet. */
  lemma NothingSent(o: Ob, v: View)
    requires ObInv(o, v)
    requires o.dev.loop.Unborn? || (o.dev.confirmed == 0 && (o.dev.loop.Holding? || o.dev.loop.Idle?))
    ensures o.srv.enqueued + |v.held| + |v.notes| == 0
    ensures o.dev.loop.Unborn? ==> o.dev.confirmed == 0 && o.dev.slot == []
  {
  }

  lemma CreatedIsUnborn(o: Ob, v: View)
    requires ObInv(o, v) && o.srv.caller.Created?
    ensures o.dev.loop.Unborn?
  {
  }

  lemma ReqIsUnborn(o: Ob, v: View)
    requires ObInv(o, v) && v.reqs > 0
    ensures o.dev.loop.Unborn?
  {
  }

  lemma PromptUser(s: State, j: uint16, u: UserAct, k: uint16)
    requires Inv(s) && Enabled(s, User(j, u)) && PromptOk(s, k)
    ensures PromptOk(Apply(s, User(j, u)), k)
  {
    hide ObInv, Early, EstabCodes, Notes;
    if j == k && u.SendEstab? {
      CreatedIsUnborn(s.obs[k], ViewOf(s, k));
      NothingSent(s.obs[k], ViewOf(s, k));
      EarlyIsSome(s.up, k);
    }
  }

  lemma PromptLoop(s: State, j: uint16, l: LoopAct, k: uint16)
    requires Inv(s) && Enabled(s, Loop(j, l)) && PromptOk(s, k)
    ensures PromptOk(Apply(s, Loop(j, l)), k)
  {
    hide ObInv, Early, EstabCodes, Notes;
    if l.Push? {
      var m := NotifyReq(j, s.obs[j].dev.loop.n);
      EarlyAppend(s.up, m, k);
      EstabCodesAppend(s.up, m, k);
      assert EstabCodes([m], k) == [] by { NoCode(m, k); }
      if j == k && Awaits(s.obs[k].srv) && EstabCodes(s.up, k) == [] {
        NothingSent(s.obs[k], ViewOf(s, k));
        EarlyIsSome(s.up, k);
      }
    }
  }

  lemma NoCode(m: Up, k: uint16)
    requires m.NotifyReq?
    ensures EstabCodes([m], k) == []
  {
  }

  lemma PromptServer(s: State, a: SrvAct, k: uint16)
    requires Inv(s) && Enabled(s, Server(a)) && Addressed(s, Server(a)) && PromptOk(s, k)
    ensures PromptOk(Apply(s, Server(a)), k)
  {
    hide Inv, Early, EstabCodes, Unconfirmed;
    if s.up != [] && !(s.up[0].EstabResp? && s.up[0].ob == k) { EarlyPop(s.up, k); }
  }

  lemma EarlyPop(up: seq<Up>, k: uint16)
    requires up != [] && !(up[0].EstabResp? && up[0].ob == k)
    ensures Early(up, k) == Bit(up[0].NotifyReq? && up[0].ob == k) + Early(up[1..], k)
    ensures EstabCodes(up, k) == EstabCodes(up[1..], k)
  {
  }

  lemma PromptEstablish(s: State, outcome: Outcome, k: uint16)
    requires Inv(s) && Enabled(s, Device(Establish(outcome))) && PromptOk(s, k)
    ensures PromptOk(Apply(s, Device(Establish(outcome))), k)
  {
    hide ObInv, Early, EstabCodes, Notes, Acks;
    if s.down[0].ob == k {
      assert ViewOf(s, k).reqs > 0;
      ReqIsUnborn(s.obs[k], ViewOf(s, k));
      NothingSent(s.obs[k], ViewOf(s, k));
      EarlyIsSome(s.up, k);
    }
  }

  lemma PromptAnswer(s: State, k: uint16)
    requires Enabled(s, Device(AnswerEstab)) && PromptOk(s, k)
    ensures PromptOk(Apply(s, Device(AnswerEstab)), k)
  {
    hide Early, EstabCodes;
    var m := EstabResp(s.dev.ob, s.dev.code);
    EarlyAppend(s.up, m, k);
    EstabCodesAppend(s.up, m, k);
    assert EstabCodes([m], k) == if m.ob == k then [m.code] else [] by { OneCode(m, k); }
  }

  /** While the device's reader listens, every awaited answer is queued already. */
  lemma PromptListening(s: State, d: DevAct, k: uint16)
    requires Enabled(s, Device(d)) && PromptOk(s, k) && !d.Establish? && !d.AnswerEstab?
    ensures PromptOk(Apply(s, Device(d)), k)
  {
    hide Early, EstabCodes;
  }

  lemma PromptDevice(s: State, d: DevAct, k: uint16)
    requires Inv(s) && Enabled(s, Device(d)) && PromptOk(s, k)
    ensures PromptOk(Apply(s, Device(d)), k)
  {
    hide Inv, PromptOk;
    match d
    case Establish(outcome) => PromptEstablish(s, outcome, k);
    case AnswerEstab => PromptAnswer(s, k);
    case _ => PromptListening(s, d, k);
  }

  lemma OneCode(m: Up, k: uint16)
    requires m.EstabResp?
    ensures EstabCodes([m], k) == if m.ob == k then [m.code] else []
  {
  }

  lemma StepPrompt(s: State, a: Action, k: uint16)
    requires Inv(s) && Enabled(s, a) && Addressed(s, a) && PromptOk(s, k)
    ensures PromptOk(Apply(s, a), k)
  {
    hide Inv, Early, EstabCodes, Addressed;
    match a
    case Create(_) =>
    case User(j, u) => PromptUser(s, j, u, k);
    case Server(x) => PromptServer(s, x, k);
    case Device(d) => PromptDevice(s, d, k);
    case Loop(j, l) => PromptLoop(s, j, l, k);
  }

  lemma {:induction false} RunPrompt(s: State, acts: seq<Action>, k: uint16)
    requires Inv(s) && PromptOk(s, k) && Runs(s, acts) && AddressedRun(s, acts)
    ensures PromptOk(Final(s, acts), k)
    decreases |acts|
  {
    hide Inv, PromptOk, Addressed;
    if acts != [] {
      StepKeepsInv(s, acts[0]);
      StepPrompt(s, acts[0], k);
      RunPrompt(Apply(s, acts[0]), acts[1..], k);
    }
  }

  lemma RoomInChan(o: Ob, v: View)
    requires ObInv(o, v) && o.srv.caller.Establishing? && o.srv.enqueued == 0
    ensures o.srv.chan == [] && !o.srv.closed
  {
  }

  /** In every run in which establish responses reach the calls that await them, the reader that holds a
      notification for a call which still waits for its answer can deliver it. */
  lemma WaitingCallNeverBlocksReader(acts: seq<Action>, k: uint16)
    requires Runs(INIT, acts) && AddressedRun(INIT, acts)
    requires k in Final(INIT, acts).obs && Held(Final(INIT, acts).srv, k) && !Final(INIT, acts).crashed
    ensures var s := Final(INIT, acts); Awaits(s.obs[k].srv) ==> Enabled(s, Server(Enqueue))
  {
    hide ObInv;
    RunKeepsInv(INIT, acts);
    RunPrompt(INIT, acts, k);
    var s := Final(INIT, acts);
    if Awaits(s.obs[k].srv) { RoomInChan(s.obs[k], ViewOf(s, k)); }
  }
}
