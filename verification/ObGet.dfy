/** The observation protocol on one connection, as a state machine.

    A user's `ObGet` call creates an observation on the server, asks the device to establish it and then
    shows the notifications that the device's `observe` loop sends one at a time.  Every action below is one
    atomic step of one goroutine: a channel operation, a map operation or the arrival of one message.  Any
    number of observations share the two message pipes and the two reader goroutines.

    Header ids are not modelled here: the channel that a reply is handed to is an arbitrary waiting one, of an
    observation or of some other request, so the results hold whatever the two id stores answer, including after
    ids were reused. */
module ObGet {
  import opened Types
  import opened AppRpc

  const MAX_BODY := 4096
  const NOTIFY_HEADER := 3

  /** What a waiting goroutine finds in its response channel: an answer that names its own observation, or
      anything else (another observation, another method, too short to decode). */
  datatype Reply = Ack(code: uint8) | Stray

  /** The device's `observe` goroutine. */
  datatype Loop = Unborn | Idle | Holding(n: Notice) | Waiting(n: Notice) | Exited

  /** The server goroutine that runs `ObGet`; Leaving and Closing are its deferred `DestroyObserva`. */
  datatype Caller = Created | Establishing | Serving | Leaving | Closing | Gone

  /** The device's side: what the handler put on its channel, what the loop took from it, where the loop is
      and what waits in its response channel; then how many notifications were queued for the wire and how
      many CONTINUE confirmations came back. */
  datatype DevSide = DevSide(
    emitted: seq<Bytes>, finished: bool, produced: seq<Notice>, loop: Loop, slot: seq<Reply>,
    sent: nat, confirmed: nat)

  /** The server's side: the entry in observaStore, NotifyChan, SessionDoneChan, the ObGet call with its
      response channel, and the user's stream; then how many notifications entered and left NotifyChan. */
  datatype SrvSide = SrvSide(
    live: bool, chan: seq<Notice>, closed: bool, tokens: nat,
    caller: Caller, answer: seq<Reply>, fid: uint32, frames: seq<Frame>,
    enqueued: nat, consumed: nat)

  datatype Ob = Ob(dev: DevSide, srv: SrvSide)

  const FRESH := Ob(DevSide([], false, [], Unborn, [], 0, 0), SrvSide(true, [], false, 0, Created, [], 0, [], 0, 0))

  datatype Up = NotifyReq(ob: uint16, n: Notice) | EstabResp(ob: uint16, code: uint8)
  datatype Down = EstabReq(ob: uint16) | NotifyResp(ob: uint16, code: uint8)

  /** The server's reader goroutine; between Loaded and Replying it sends on the observation's NotifyChan. */
  datatype SrvReader = Reading | Loaded(ob: uint16, n: Notice) | Replying(ob: uint16, code: uint8) | Stopped
  /** The device's reader goroutine; Answering is after `go observe` and before the response is queued. */
  datatype DevReader = Listening | Answering(ob: uint16, code: uint8) | Halted

  datatype State = State(
    obs: map<uint16, Ob>, up: seq<Up>, down: seq<Down>, srv: SrvReader, dev: DevReader,
    exiting: bool, told: set<uint16>, crashed: bool)

  const INIT := State(map[], [], [], Reading, Listening, false, {}, false)

  /** Steps of the goroutine that runs one `ObGet` call; Misdelivered is an answer to something else that the
      id store put into its response channel. */
  datatype UserAct = SendEstab | EstabDone | EstabTimeout | Serve(e: Event) | Delete | Close | Misdelivered
  /** Steps of the server's reader, of its exit (BeginExit, Tell) and the panic of a send on a closed channel;
      DivertEstab hands an establish response to a call that waits for something else. */
  datatype SrvAct =
    | TakeNotify | Enqueue | Panic | Confirm | DeliverEstab(j: uint16) | DivertEstab | StopReading
    | BeginExit | Tell(k: uint16)
  /** What the device's handler table answers to an establish request. */
  datatype Outcome = NoHandler | HandlerError | Started
  /** Steps of the device's reader; DivertConfirm hands a confirmation to a call that waits for something else. */
  datatype DevAct =
    Establish(outcome: Outcome) | AnswerEstab | DeliverConfirm(j: uint16) | DivertConfirm | StopListening
  /** Steps of one observation's handler (Emit, Finish) and of its `observe` loop. */
  datatype LoopAct = Emit(d: Bytes) | Finish | Take | TakeEnd | Push | Confirmed | Timeout | Strayed

  datatype Action =
    Create(k: uint16) | User(k: uint16, u: UserAct) | Server(a: SrvAct)
    | Device(d: DevAct) | Loop(k: uint16, l: LoopAct)

  // ----- messages about one observation -----

  function Notes(up: seq<Up>, k: uint16): seq<Notice> {
    if up == [] then []
    else (if up[0].NotifyReq? && up[0].ob == k then [up[0].n] else []) + Notes(up[1..], k)
  }

  function EstabCodes(up: seq<Up>, k: uint16): seq<uint8> {
    if up == [] then []
    else (if up[0].EstabResp? && up[0].ob == k then [up[0].code] else []) + EstabCodes(up[1..], k)
  }

  function Acks(down: seq<Down>, k: uint16): seq<uint8> {
    if down == [] then []
    else (if down[0].NotifyResp? && down[0].ob == k then [down[0].code] else []) + Acks(down[1..], k)
  }

  function EstabReqs(down: seq<Down>, k: uint16): nat {
    if down == [] then 0
    else (if down[0] == EstabReq(k) then 1 else 0) + EstabReqs(down[1..], k)
  }

  /** Everything outside `obs[k]` that is about observation k. */
  datatype View = View(
    notes: seq<Notice>, held: seq<Notice>, replying: seq<uint8>, acks: seq<uint8>,
    reqs: nat, resps: seq<uint8>, answering: seq<uint8>, told: bool)

  function ViewOf(s: State, k: uint16): View {
    View(Notes(s.up, k),
         if s.srv.Loaded? && s.srv.ob == k then [s.srv.n] else [],
         if s.srv.Replying? && s.srv.ob == k then [s.srv.code] else [],
         Acks(s.down, k), EstabReqs(s.down, k), EstabCodes(s.up, k),
         if s.dev.Answering? && s.dev.ob == k then [s.dev.code] else [],
         k in s.told)
  }

  /** Observation id k is free for a new observation: no call, loop or message still uses it. */
  predicate Quiet(s: State, k: uint16) {
    && (k in s.obs ==>
          s.obs[k].srv.caller.Gone? && (s.obs[k].dev.loop.Unborn? || s.obs[k].dev.loop.Exited?))
    && ViewOf(s, k) == View([], [], [], [], 0, [], [], k in s.told)
  }

  // ----- the step relation -----

  /** The event a `select` of the serving loop may pick. */
  predicate Ready(o: SrvSide, e: Event) {
    match e
    case SessionDone => o.tokens > 0
    case StreamDone => true
    case ChanClosed => o.closed && o.chan == []
    case Notified(n) => o.chan != [] && o.chan[0] == n
  }

  predicate UserCan(o: SrvSide, u: UserAct) {
    match u
    case SendEstab => o.caller.Created?
    case EstabDone => o.caller.Establishing? && o.answer != []
    case EstabTimeout => o.caller.Establishing?
    case Serve(e) => o.caller.Serving? && Ready(o, e)
    case Delete => o.caller.Leaving?
    case Close => o.caller.Closing?
    case Misdelivered => o.caller.Establishing? && o.answer == []
  }

  /** The frame of a call whose establish answer is not CONTINUE. */
  function EstabFrame(r: Reply): Frame {
    Frame(0, if r.Ack? then ToRpcCode(r.code) else InternalServerError, [])
  }

  function AfterServe(o: SrvSide, e: Event): SrvSide
    requires Ready(o, e)
  {
    var o := o.(frames := o.frames + Show(o.fid, e));
    var o := if e.Notified? then o.(chan := o.chan[1..], consumed := o.consumed + 1) else o;
    var o := if e.SessionDone? then o.(tokens := o.tokens - 1) else o;
    if GoesOn(e) then o.(fid := NextFid(o.fid)) else o.(caller := Leaving)
  }

  function UserStep(o: SrvSide, u: UserAct): SrvSide
    requires UserCan(o, u)
  {
    match u
    case SendEstab => o.(caller := Establishing)
    case EstabDone =>
      if o.answer[0] == Ack(STATUS_CONTINUE) then o.(answer := o.answer[1..], caller := Serving)
      else o.(answer := o.answer[1..], caller := Leaving, frames := o.frames + [EstabFrame(o.answer[0])])
    case EstabTimeout => o.(caller := Leaving, frames := o.frames + [Frame(0, DeviceTimeout, [])])
    case Serve(e) => AfterServe(o, e)
    case Delete => o.(caller := if o.live then Closing else Gone, live := false)
    case Close => o.(caller := Gone, closed := true)
    case Misdelivered => o.(answer := [Stray])
  }

  predicate LoopCan(d: DevSide, l: LoopAct) {
    match l
    case Emit(data) => !d.loop.Unborn? && !d.finished && NOTIFY_HEADER + |data| < 0x1_0000
    case Finish => !d.loop.Unborn?
    case Take => d.loop.Idle? && |d.produced| < |d.emitted|
    case TakeEnd => d.loop.Idle? && d.finished && |d.produced| == |d.emitted|
    case Push => d.loop.Holding?
    case Confirmed => d.loop.Waiting? && d.slot != []
    case Timeout => d.loop.Waiting?
    case Strayed => d.loop.Waiting? && d.slot == []
  }

  /** What the loop reads off its channel: the next data, or the terminating notice once it is closed. */
  function NextNotice(d: DevSide): Notice {
    if |d.produced| < |d.emitted| then Notice(STATUS_CONTINUE, d.emitted[|d.produced|])
    else Notice(STATUS_TERMINATE, [])
  }

  /** The loop goes on only when a data notification was confirmed with CONTINUE. */
  function AfterReply(d: DevSide): DevSide
    requires d.loop.Waiting? && d.slot != []
  {
    var confirmed := if d.slot[0] == Ack(STATUS_CONTINUE) then d.confirmed + 1 else d.confirmed;
    var next := if d.slot[0] == Ack(STATUS_CONTINUE) && d.loop.n.code == STATUS_CONTINUE then Idle else Exited;
    d.(slot := d.slot[1..], confirmed := confirmed, loop := next)
  }

  function LoopStep(d: DevSide, l: LoopAct): DevSide
    requires LoopCan(d, l)
  {
    match l
    case Emit(data) => d.(emitted := d.emitted + [data])
    case Finish => d.(finished := true)
    case Take => d.(loop := Holding(NextNotice(d)), produced := d.produced + [NextNotice(d)])
    case TakeEnd => d.(loop := Holding(NextNotice(d)), produced := d.produced + [NextNotice(d)])
    case Push => d.(loop := Waiting(d.loop.n), slot := [], sent := d.sent + 1)
    case Confirmed => AfterReply(d)
    case Timeout => d.(loop := Exited)
    case Strayed => d.(slot := [Stray])
  }

  function PutDev(s: State, k: uint16, d: DevSide): State
    requires k in s.obs
  {
    s.(obs := s.obs[k := s.obs[k].(dev := d)])
  }

  function PutSrv(s: State, k: uint16, o: SrvSide): State
    requires k in s.obs
  {
    s.(obs := s.obs[k := s.obs[k].(srv := o)])
  }

  predicate ServerCan(s: State, a: SrvAct) {
    match a
    case TakeNotify => s.srv.Reading? && s.up != [] && s.up[0].NotifyReq?
    case Enqueue =>
      s.srv.Loaded? && s.srv.ob in s.obs && !s.obs[s.srv.ob].srv.closed && s.obs[s.srv.ob].srv.chan == []
    case Panic => s.srv.Loaded? && s.srv.ob in s.obs && s.obs[s.srv.ob].srv.closed
    case Confirm => s.srv.Replying?
    case DeliverEstab(j) =>
      && s.srv.Reading? && s.up != [] && s.up[0].EstabResp?
      && j in s.obs && s.obs[j].srv.caller.Establishing? && s.obs[j].srv.answer == []
    case DivertEstab => s.srv.Reading? && s.up != [] && s.up[0].EstabResp?
    case StopReading => s.srv.Reading?
    case BeginExit => !s.exiting
    case Tell(k) => s.exiting && k in s.obs && s.obs[k].srv.live && k !in s.told
  }

  function ServerStep(s: State, a: SrvAct): State
    requires ServerCan(s, a)
  {
    match a
    case TakeNotify =>
      var m := s.up[0];
      if NOTIFY_HEADER + |m.n.data| > MAX_BODY then s.(srv := Stopped)
      else if m.ob in s.obs && s.obs[m.ob].srv.live then s.(up := s.up[1..], srv := Loaded(m.ob, m.n))
      else s.(up := s.up[1..], srv := Replying(m.ob, STATUS_TERMINATE))
    case Enqueue =>
      var o := s.obs[s.srv.ob].srv;
      PutSrv(s, s.srv.ob, o.(chan := o.chan + [s.srv.n], enqueued := o.enqueued + 1))
        .(srv := Replying(s.srv.ob, STATUS_CONTINUE))
    case Panic => s.(crashed := true)
    case Confirm => s.(down := s.down + [NotifyResp(s.srv.ob, s.srv.code)], srv := Reading)
    case DeliverEstab(j) =>
      var r := if s.up[0].ob == j then Ack(s.up[0].code) else Stray;
      PutSrv(s, j, s.obs[j].srv.(answer := [r])).(up := s.up[1..])
    case DivertEstab => s.(up := s.up[1..])
    case StopReading => s.(srv := Stopped)
    case BeginExit => s.(exiting := true)
    case Tell(k) => PutSrv(s, k, s.obs[k].srv.(tokens := s.obs[k].srv.tokens + 1)).(told := s.told + {k})
  }

  predicate DeviceCan(s: State, d: DevAct) {
    match d
    case Establish(_) => s.dev.Listening? && s.down != [] && s.down[0].EstabReq? && s.down[0].ob in s.obs
    case AnswerEstab => s.dev.Answering?
    case DeliverConfirm(j) =>
      && s.dev.Listening? && s.down != [] && s.down[0].NotifyResp?
      && j in s.obs && s.obs[j].dev.loop.Waiting? && s.obs[j].dev.slot == []
    case DivertConfirm => s.dev.Listening? && s.down != [] && s.down[0].NotifyResp?
    case StopListening => s.dev.Listening?
  }

  function DeviceStep(s: State, d: DevAct): State
    requires DeviceCan(s, d)
  {
    match d
    case Establish(outcome) =>
      var k := s.down[0].ob;
      var s' := s.(down := s.down[1..]);
      if outcome.NoHandler? then s'.(dev := Answering(k, STATUS_NOT_FOUND))
      else if outcome.HandlerError? then s'.(dev := Halted)
      else PutDev(s', k, s.obs[k].dev.(loop := Idle)).(dev := Answering(k, STATUS_CONTINUE))
    case AnswerEstab => s.(up := s.up + [EstabResp(s.dev.ob, s.dev.code)], dev := Listening)
    case DeliverConfirm(j) =>
      var r := if s.down[0].ob == j then Ack(s.down[0].code) else Stray;
      PutDev(s, j, s.obs[j].dev.(slot := [r])).(down := s.down[1..])
    case DivertConfirm => s.(down := s.down[1..])
    case StopListening => s.(dev := Halted)
  }

  predicate Enabled(s: State, a: Action) {
    match a
    case Create(k) => !s.crashed && Quiet(s, k)
    case User(k, u) => !s.crashed && k in s.obs && UserCan(s.obs[k].srv, u)
    case Server(x) => !s.crashed && ServerCan(s, x)
    case Device(d) => !s.crashed && DeviceCan(s, d)
    case Loop(k, l) => !s.crashed && k in s.obs && LoopCan(s.obs[k].dev, l)
  }

  function Apply(s: State, a: Action): State
    requires Enabled(s, a)
  {
    match a
    case Create(k) => s.(obs := s.obs[k := FRESH])
    case User(k, u) =>
      PutSrv(s, k, UserStep(s.obs[k].srv, u)).(down := if u.SendEstab? then s.down + [EstabReq(k)] else s.down)
    case Server(x) => ServerStep(s, x)
    case Device(d) => DeviceStep(s, d)
    case Loop(k, l) =>
      var d := s.obs[k].dev;
      PutDev(s, k, LoopStep(d, l)).(up := if l.Push? then s.up + [NotifyReq(k, d.loop.n)] else s.up)
  }

  /** A run is a sequence of actions each of which is enabled when its turn comes. */
  predicate Runs(s: State, acts: seq<Action>)
    decreases |acts|
  {
    acts == [] || (Enabled(s, acts[0]) && Runs(Apply(s, acts[0]), acts[1..]))
  }

  /** The state a run ends in. */
  function Final(s: State, acts: seq<Action>): State
    requires Runs(s, acts)
    decreases |acts|
  {
    if acts == [] then s else Final(Apply(s, acts[0]), acts[1..])
  }

  // ----- what a user may rely on -----

  /** The number of CONTINUE frames, given that only the last frame can be another one. */
  function Conts(frames: seq<Frame>): nat {
    if frames != [] && frames[|frames| - 1].code != Continue then |frames| - 1 else |frames|
  }

  /** The CONTINUE frames are an in-order, gap-free, duplicate-free, consecutively numbered prefix of what the
      handler emitted; one other frame may follow, and only as the last.  If that frame says TERMINATE, the
      user has seen everything the handler emitted before it closed its channel. */
  predicate Faithful(frames: seq<Frame>, emitted: seq<Bytes>, finished: bool) {
    var c := Conts(frames);
    && c <= |emitted|
    && (forall i :: 0 <= i < c ==> frames[i] == Frame(Fid(i), Continue, emitted[i]))
    && (c < |frames| ==> frames[c].fid == Fid(c) && frames[c].code != Continue)
    && (c < |frames| && frames[c].code == Terminate ==> finished && c == |emitted|)
  }

  /** Stop and wait: the device is never more than two notifications ahead of the user's stream. */
  predicate FlowBound(o: Ob) {
    && o.dev.sent <= o.dev.confirmed + 1
    && o.dev.confirmed <= o.srv.enqueued <= o.dev.sent
    && o.srv.consumed <= o.srv.enqueued <= o.srv.consumed + 1
    && o.dev.sent <= o.srv.consumed + 2
  }

  /** An observation is registered exactly until its call has deleted it, its channel is closed exactly when
      the call is over, and it holds at most one notification and at most one session-done token. */
  predicate Tidy(o: SrvSide) {
    && (o.live <==> !o.caller.Closing? && !o.caller.Gone?)
    && (o.closed <==> o.caller.Gone?)
    && |o.chan| <= 1
    && o.tokens <= 1
  }
}
