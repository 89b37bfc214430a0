/** Request/response correlation of one session: concurrent `Send` calls, 16-bit header ids cut from a 32-bit
    counter, the timed table `sendIDStore` with a one-slot channel per entry, timeouts and deferred deletes.
    (internal/deviceaccess/access_server/devicetcp/session.go, devicesession.go on the device)

    Calls are named by the value of the counter that they drew.  The peer never sees that name: it sees and
    echoes the header id only.  The two message pipes may deliver in any order, which includes FIFO order.  A sweep
    looks at one key at a time, and other goroutines may replace the entry before it deletes the key. */
module Correlation {
  import opened Types
  import opened RollingIds
  import TimeKV

  /** Seconds after which a sweep evicts an entry. */
  const EXPIRE := 120

  datatype Outcome = Body(b: Bytes) | TimedOut
  datatype Phase = Drawn | Stored | Waiting | Leaving(r: Outcome) | Returned(r: Outcome)

  /** Where the request of a call, or the answer to it, is: not on the wire yet, on its way to the device or
      with it, on its way back, read by the server's reader, handed over. */
  datatype Message = Unsent | Request(id: uint16) | Answered(id: uint16, body: Bytes) | Read(body: Bytes) | HandedOver

  /** A `Send` call, its response channel, when it was put into the table, its message, and what the device
      produced for it. */
  datatype Call = Call(phase: Phase, inbox: seq<Bytes>, since: nat, message: Message, said: Option<Bytes>)

  /** The reader looked up the channel of call `target` and holds the answer to call `source`. */
  datatype Delivery = Delivery(target: nat, source: nat)

  datatype State = State(
    drawn: nat, calls: map<nat, Call>,
    table: map<uint16, TimeKV.Entry>,   // a response channel has the name of the call that waits on it
    reader: Option<Delivery>, broken: bool, now: nat,
    sweep: Option<uint16>)              // the key that the sweep has found too old and is about to delete

  const INIT := State(0, map[], map[], None, false, 0, None)

  datatype Action =
    | Draw | Store(t: nat) | Push(t: nat) | Receive(t: nat) | Expire(t: nat) | Return(t: nat)
    | Answer(t: nat, b: Bytes) | Arrive(t: nat) | Deliver
    | SweepRead(id: uint16) | SweepDelete | Tick

  predicate Enabled(s: State, a: Action) {
    match a
    case Draw => true
    case Store(t) => t in s.calls && s.calls[t].phase.Drawn?
    case Push(t) => t in s.calls && s.calls[t].phase.Stored?
    case Receive(t) => t in s.calls && s.calls[t].phase.Waiting? && s.calls[t].inbox != []
    case Expire(t) => t in s.calls && s.calls[t].phase.Waiting?
    case Return(t) => t in s.calls && s.calls[t].phase.Leaving?
    case Answer(t, _) => t in s.calls && s.calls[t].message.Request?
    case Arrive(t) => t in s.calls && s.calls[t].message.Answered? && s.reader.None? && !s.broken
    case Deliver =>
      s.reader.Some? && CanDeliver(s, s.reader.value)
    case SweepRead(id) => s.sweep.None? && id in s.table
    case SweepDelete => s.sweep.Some?
    case Tick => true
  }

  /** The one-slot channel that the reader sends on has room. */
  predicate CanDeliver(s: State, d: Delivery) {
    && d.target in s.calls && s.calls[d.target].inbox == []
    && d.source in s.calls && s.calls[d.source].message.Read?
  }

  function Put(s: State, t: nat, c: Call): State {
    s.(calls := s.calls[t := c])
  }

  function Apply(s: State, a: Action): State
    requires Enabled(s, a)
  {
    match a
    case Draw => Put(s, s.drawn + 1, Call(Drawn, [], 0, Unsent, None)).(drawn := s.drawn + 1)
    case Store(t) =>
      Put(s, t, s.calls[t].(phase := Stored, since := s.now)).(table := s.table[RollingId(t) := TimeKV.Entry(t, s.now)])
    case Push(t) => Put(s, t, s.calls[t].(phase := Waiting, message := Request(RollingId(t))))
    case Receive(t) => Put(s, t, s.calls[t].(phase := Leaving(Body(s.calls[t].inbox[0])), inbox := []))
    case Expire(t) => Put(s, t, s.calls[t].(phase := Leaving(TimedOut)))
    case Return(t) =>
      Put(s, t, s.calls[t].(phase := Returned(s.calls[t].phase.r))).(table := s.table - {RollingId(t)})
    case Answer(t, b) => Put(s, t, s.calls[t].(message := Answered(s.calls[t].message.id, b), said := Some(b)))
    case Arrive(t) =>
      var m := s.calls[t].message;
      if m.id in s.table
      then Put(s, t, s.calls[t].(message := Read(m.body))).(reader := Some(Delivery(s.table[m.id].channel, t)))
      else Put(s, t, s.calls[t].(message := HandedOver)).(broken := true)
    case Deliver =>
      var d := s.reader.value;
      var body := s.calls[d.source].message.body;
      var s' := Put(s, d.source, s.calls[d.source].(message := HandedOver));
      Put(s', d.target, s'.calls[d.target].(inbox := [body])).(reader := None)
    case SweepRead(id) => if s.now - s.table[id].storeTime > EXPIRE then s.(sweep := Some(id)) else s
    case SweepDelete => s.(table := s.table - {s.sweep.value}, sweep := None)
    case Tick => s.(now := s.now + 1)
  }

  predicate Runs(s: State, acts: seq<Action>)
    decreases |acts|
  {
    acts == [] || (Enabled(s, acts[0]) && Runs(Apply(s, acts[0]), acts[1..]))
  }

  function Final(s: State, acts: seq<Action>): State
    requires Runs(s, acts)
    decreases |acts|
  {
    if acts == [] then s else Final(Apply(s, acts[0]), acts[1..])
  }

  // ----- what the results depend on -----

  /** The call has not returned, or its request or the answer to it is still under way. */
  predicate Outstanding(c: Call) {
    !c.phase.Returned? || c.message.Request? || c.message.Answered? || c.message.Read?
  }

  /** Fewer than 65536 ids, counting the next one, were drawn since any outstanding call drew its own. */
  ghost predicate WindowOpen(s: State) {
    forall t :: t in s.calls && Outstanding(s.calls[t]) ==> s.drawn + 1 < t + ID_SPACE
  }

  /** The call is between its entry into the table and its deferred delete. */
  predicate Pending(c: Call) {
    c.phase.Stored? || c.phase.Waiting? || c.phase.Leaving?
  }

  /** One more second still leaves every call within 120 seconds of its entry into the table. */
  ghost predicate Timely(s: State) {
    forall t :: t in s.calls && Pending(s.calls[t]) ==> s.now + 1 <= s.calls[t].since + EXPIRE
  }

  ghost predicate Windowed(s: State, acts: seq<Action>)
    requires Runs(s, acts)
    decreases |acts|
  {
    acts == [] || ((acts[0].Draw? ==> WindowOpen(s)) && Windowed(Apply(s, acts[0]), acts[1..]))
  }

  ghost predicate Punctual(s: State, acts: seq<Action>)
    requires Runs(s, acts)
    decreases |acts|
  {
    acts == [] || ((acts[0].Tick? ==> Timely(s)) && Punctual(Apply(s, acts[0]), acts[1..]))
  }

  // ----- the invariant -----

  predicate CallOk(t: nat, c: Call, drawn: nat) {
    && t <= drawn
    && (Outstanding(c) ==> drawn < t + ID_SPACE)
    && (c.phase.Drawn? || c.phase.Stored? ==> c.message.Unsent? && c.inbox == [])
    && (c.message.Unsent? ==> c.inbox == [] && (c.phase.Drawn? || c.phase.Stored?))
    && (c.message.Request? ==> c.message.id == RollingId(t))
    && (c.message.Answered? ==> c.message.id == RollingId(t) && c.said == Some(c.message.body))
    && (c.message.Read? ==> c.said == Some(c.message.body))
    && (c.inbox != [] ==> c.message.HandedOver? && c.said.Some? && c.inbox == [c.said.value])
    && ((c.phase.Leaving? || c.phase.Returned?) && c.phase.r.Body? ==>
          c.message.HandedOver? && c.said == Some(c.phase.r.b) && c.inbox == [])
  }

  ghost predicate CallsOk(s: State) {
    forall t :: t in s.calls ==> CallOk(t, s.calls[t], s.drawn)
  }

  ghost predicate TableOk(s: State) {
    forall id :: id in s.table ==>
      s.table[id].channel in s.calls && Pending(s.calls[s.table[id].channel]) && RollingId(s.table[id].channel) == id
  }

  /** The reader holds an answer for the very call that it is going to hand it to. */
  predicate ReaderOk(s: State) {
    s.reader.Some? ==>
      s.reader.value.target == s.reader.value.source && s.reader.value.source in s.calls
      && s.calls[s.reader.value.source].message.Read?
  }

  ghost predicate Inv(s: State) {
    CallsOk(s) && TableOk(s) && ReaderOk(s)
  }

  predicate OfCaller(a: Action) {
    a.Draw? || a.Store? || a.Push? || a.Receive? || a.Expire?
  }

  lemma CallerCalls(s: State, a: Action)
    requires Inv(s) && Enabled(s, a) && OfCaller(a) && (a.Draw? ==> WindowOpen(s))
    ensures CallsOk(Apply(s, a))
  {
    hide TableOk, ReaderOk;
  }

  lemma CallerTable(s: State, a: Action)
    requires Inv(s) && Enabled(s, a) && OfCaller(a)
    ensures TableOk(Apply(s, a)) && ReaderOk(Apply(s, a))
  {
  }

  /** A step of the goroutine that runs `Send`. */
  lemma StepCaller(s: State, a: Action)
    requires Inv(s) && Enabled(s, a) && OfCaller(a) && (a.Draw? ==> WindowOpen(s))
    ensures Inv(Apply(s, a))
  {
    hide CallsOk, TableOk, ReaderOk;
    CallerCalls(s, a);
    CallerTable(s, a);
  }

  lemma StepReturn(s: State, t: nat)
    requires Inv(s) && Enabled(s, Return(t))
    ensures Inv(Apply(s, Return(t)))
  {
  }

  /** The heart of the matter: the table can only hold the very call that the answer belongs to. */
  lemma OwnerIsSource(s: State, t: nat)
    requires Inv(s) && t in s.calls && s.calls[t].message.Answered? && s.calls[t].message.id in s.table
    ensures s.table[s.calls[t].message.id].channel == t
  {
    var u := s.table[s.calls[t].message.id].channel;
    if t < u { CloseIdsDiffer(t, u); }
    if u < t { CloseIdsDiffer(u, t); }
  }

  lemma StepArrive(s: State, t: nat)
    requires Inv(s) && Enabled(s, Arrive(t))
    ensures Inv(Apply(s, Arrive(t)))
  {
    if s.calls[t].message.id in s.table { OwnerIsSource(s, t); }
  }

  lemma StepKeepsInv(s: State, a: Action)
    requires Inv(s) && Enabled(s, a) && (a.Draw? ==> WindowOpen(s))
    ensures Inv(Apply(s, a))
  {
    if a.Return? {
      StepReturn(s, a.t);
    } else if a.Arrive? {
      StepArrive(s, a.t);
    } else if OfCaller(a) {
      StepCaller(s, a);
    }
  }

  lemma {:induction false} RunKeepsInv(s: State, acts: seq<Action>)
    requires Inv(s) && Runs(s, acts) && Windowed(s, acts)
    ensures Inv(Final(s, acts))
    decreases |acts|
  {
    if acts != [] {
      StepKeepsInv(s, acts[0]);
      RunKeepsInv(Apply(s, acts[0]), acts[1..]);
    }
  }

  // ----- no cross-talk -----

  /** In every run that respects the window, a body that `Send` returns is the one that the device produced
      for that very request, whatever the interleaving of callers, timeouts and late answers; and the reader
      never blocks on a response channel. */
  lemma NoCrossTalk(acts: seq<Action>, t: nat)
    requires Runs(INIT, acts) && Windowed(INIT, acts) && t in Final(INIT, acts).calls
    ensures var c := Final(INIT, acts).calls[t];
      (c.phase.Leaving? || c.phase.Returned?) && c.phase.r.Body? ==> c.said == Some(c.phase.r.b)
    ensures |Final(INIT, acts).calls[t].inbox| <= 1
    ensures Final(INIT, acts).reader.Some? ==> Enabled(Final(INIT, acts), Deliver)
  {
    RunKeepsInv(INIT, acts);
  }

  // ----- the pending table -----

  /** Every pending call has its own entry, and no entry is too old for a sweep. */
  ghost predicate TableFull(s: State) {
    s.sweep.None? &&
    forall t :: t in s.calls && Pending(s.calls[t]) ==>
      && RollingId(t) in s.table && s.table[RollingId(t)] == TimeKV.Entry(t, s.calls[t].since)
      && s.now <= s.calls[t].since + EXPIRE
  }

  lemma PendingIdsDiffer(s: State, t: nat, u: nat)
    requires Inv(s) && t in s.calls && u in s.calls && t != u
    requires Outstanding(s.calls[t]) && Outstanding(s.calls[u])
    ensures RollingId(t) != RollingId(u)
  {
    if t < u { CloseIdsDiffer(t, u); } else { CloseIdsDiffer(u, t); }
  }

  lemma StepStoreFull(s: State, t: nat)
    requires Inv(s) && TableFull(s) && Enabled(s, Store(t))
    ensures TableFull(Apply(s, Store(t)))
  {
    forall u | u in s.calls && u != t && Pending(s.calls[u])
      ensures RollingId(u) != RollingId(t)
    {
      PendingIdsDiffer(s, t, u);
    }
  }

  lemma StepReturnFull(s: State, t: nat)
    requires Inv(s) && TableFull(s) && Enabled(s, Return(t))
    ensures TableFull(Apply(s, Return(t)))
  {
    forall u | u in s.calls && u != t && Pending(s.calls[u])
      ensures RollingId(u) != RollingId(t)
    {
      PendingIdsDiffer(s, t, u);
    }
  }

  /** A sweep finds nothing to delete, so it never deletes an entry that has just replaced an old one. */
  lemma SweepFindsNothing(s: State, id: uint16)
    requires TableOk(s) && TableFull(s) && Enabled(s, SweepRead(id))
    ensures Apply(s, SweepRead(id)) == s
  {
    assert s.table[id] == TimeKV.Entry(s.table[id].channel, s.calls[s.table[id].channel].since);
  }

  lemma StepKeepsFull(s: State, a: Action)
    requires Inv(s) && TableFull(s) && Enabled(s, a)
    requires a.Tick? ==> Timely(s)
    ensures TableFull(Apply(s, a))
  {
    hide CallsOk, TableOk, ReaderOk, CallOk;
    if a.Store? {
      StepStoreFull(s, a.t);
    } else if a.Return? {
      StepReturnFull(s, a.t);
    } else if a.SweepRead? {
      SweepFindsNothing(s, a.id);
    }
  }

  lemma {:induction false} RunKeepsFull(s: State, acts: seq<Action>)
    requires Inv(s) && TableFull(s) && Runs(s, acts) && Windowed(s, acts) && Punctual(s, acts)
    ensures Inv(Final(s, acts)) && TableFull(Final(s, acts))
    decreases |acts|
  {
    if acts != [] {
      StepKeepsInv(s, acts[0]);
      StepKeepsFull(s, acts[0]);
      RunKeepsFull(Apply(s, acts[0]), acts[1..]);
    }
  }

  /** The table holds exactly the calls between Set and the deferred Del, each under its own id, although
      sweeps evict; so it is empty once every call has returned. */
  lemma TableIsPendingCalls(acts: seq<Action>, id: uint16)
    requires Runs(INIT, acts) && Windowed(INIT, acts) && Punctual(INIT, acts)
    ensures var s := Final(INIT, acts);
      id in s.table <==> exists t :: t in s.calls && Pending(s.calls[t]) && RollingId(t) == id
    ensures var s := Final(INIT, acts);
      forall t :: t in s.calls && Pending(s.calls[t]) && RollingId(t) == id ==> s.table[id].channel == t
  {
    RunKeepsFull(INIT, acts);
  }

  /** An answer that arrives after its caller has given up and returned ends the session, and no other does. */
  lemma LateAnswerBreaksSession(acts: seq<Action>, t: nat)
    requires Runs(INIT, acts) && Windowed(INIT, acts) && Punctual(INIT, acts)
    requires Enabled(Final(INIT, acts), Arrive(t))
    ensures var s := Final(INIT, acts); Apply(s, Arrive(t)).broken <==> s.calls[t].phase.Returned?
    ensures var s := Final(INIT, acts);
      s.calls[t].phase.Returned? ==> Apply(s, Arrive(t)).calls[t].message == HandedOver
  {
    RunKeepsFull(INIT, acts);
    var s := Final(INIT, acts);
    if s.calls[t].message.id in s.table { OwnerIsSource(s, t); }
  }

  // ----- the window is needed -----

  ghost predicate Reachable(s: State) {
    exists acts :: Runs(INIT, acts) && Final(INIT, acts) == s
  }

  lemma {:induction false} RunThenStep(s: State, acts: seq<Action>, a: Action)
    requires Runs(s, acts) && Enabled(Final(s, acts), a)
    ensures Runs(s, acts + [a]) && Final(s, acts + [a]) == Apply(Final(s, acts), a)
    decreases |acts|
  {
    if acts == [] {
      assert acts + [a] == [a] && [a][1..] == [];
    } else {
      RunThenStep(Apply(s, acts[0]), acts[1..], a);
      assert (acts + [a])[1..] == acts[1..] + [a];
    }
  }

  lemma Onward(s: State, a: Action)
    requires Reachable(s) && Enabled(s, a)
    ensures Reachable(Apply(s, a))
  {
    var acts :| Runs(INIT, acts) && Final(INIT, acts) == s;
    RunThenStep(INIT, acts, a);
  }

  function SpentCall(t: nat): Call {
    Call(Returned(TimedOut), [], 0, Request(RollingId(t)), None)
  }

  /** n calls have timed out while the device works on their requests. */
  function Spent(n: nat): State {
    State(n, map t: nat | 1 <= t <= n :: SpentCall(t), map[], None, false, 0, None)
  }

  /** One more call, in the given phase, its entry in the table and its request with the device. */
  function Trying(n: nat, p: Phase): State {
    var id := RollingId(n + 1);
    var m := if p.Drawn? || p.Stored? then Unsent else Request(id);
    Spent(n).(drawn := n + 1, calls := Spent(n).calls[n + 1 := Call(p, [], 0, m, None)],
              table := if p.Drawn? then map[] else map[id := TimeKV.Entry(n + 1, 0)])
  }

  lemma TryStore(n: nat)
    requires Reachable(Spent(n))
    ensures Reachable(Trying(n, Stored))
  {
    hide Reachable;
    Onward(Spent(n), Draw);
    assert Apply(Spent(n), Draw) == Trying(n, Drawn);
    Onward(Trying(n, Drawn), Store(n + 1));
    assert Apply(Trying(n, Drawn), Store(n + 1)).calls == Trying(n, Stored).calls;
  }

  lemma TryOne(n: nat)
    requires Reachable(Spent(n))
    ensures Reachable(Trying(n, Waiting))
  {
    hide Reachable;
    TryStore(n);
    Onward(Trying(n, Stored), Push(n + 1));
    assert Apply(Trying(n, Stored), Push(n + 1)).calls == Trying(n, Waiting).calls;
  }

  lemma GiveUp(n: nat)
    requires Reachable(Spent(n))
    ensures Reachable(Trying(n, Leaving(TimedOut)))
  {
    hide Reachable;
    TryOne(n);
    Onward(Trying(n, Waiting), Expire(n + 1));
    assert Apply(Trying(n, Waiting), Expire(n + 1)).calls == Trying(n, Leaving(TimedOut)).calls;
  }

  lemma SpendOne(n: nat)
    requires Reachable(Spent(n))
    ensures Reachable(Spent(n + 1))
  {
    hide Reachable;
    GiveUp(n);
    Onward(Trying(n, Leaving(TimedOut)), Return(n + 1));
    assert Apply(Trying(n, Leaving(TimedOut)), Return(n + 1)).calls == Spent(n + 1).calls;
    assert Apply(Trying(n, Leaving(TimedOut)), Return(n + 1)).table == Spent(n + 1).table;
  }

  lemma {:induction false} SpendAll(n: nat)
    ensures Reachable(Spent(n))
  {
    if n == 0 {
      assert Runs(INIT, []) && Final(INIT, []) == INIT;
      assert Spent(0).calls == map[];
    } else {
      SpendAll(n - 1);
      SpendOne(n - 1);
    }
  }

  /** The window cannot be one draw wider: when the 65537th id is drawn while the first request is still with the
      device, the answer to call 1 is returned to call 65537, for which the device has produced nothing. */
  lemma WindowNeeded()
    ensures exists s, b ::
      && Reachable(s) && s.drawn == ID_SPACE + 1 && 1 in s.calls && s.drawn in s.calls
      && s.calls[s.drawn].phase == Leaving(Body(b)) && s.calls[s.drawn].said.None? && s.calls[1].said == Some(b)
  {
    SpendAll(ID_SPACE);
    TryOne(ID_SPACE);
    var s1, t, b := Trying(ID_SPACE, Waiting), ID_SPACE + 1, [];
    SameId(1, t);
    Onward(s1, Answer(1, b));
    var s2 := Apply(s1, Answer(1, b));
    Onward(s2, Arrive(1));
    var s3 := Apply(s2, Arrive(1));
    assert s3.reader == Some(Delivery(t, 1));
    Onward(s3, Deliver);
    var s4 := Apply(s3, Deliver);
    Onward(s4, Receive(t));
    var s5 := Apply(s4, Receive(t));
    assert Reachable(s5) && s5.drawn == t && s5.calls[t].phase == Leaving(Body(b)) && s5.calls[1].said == Some(b);
  }

  // ----- a late answer -----

  /** A run within the window, of punctual calls, leads to s. */
  ghost predicate WellReached(s: State) {
    exists acts :: Runs(INIT, acts) && Windowed(INIT, acts) && Punctual(INIT, acts) && Final(INIT, acts) == s
  }

  lemma {:induction false} WellThenStep(s: State, acts: seq<Action>, a: Action)
    requires Runs(s, acts) && Windowed(s, acts) && Punctual(s, acts) && Enabled(Final(s, acts), a)
    requires !a.Tick? && (a.Draw? ==> WindowOpen(Final(s, acts)))
    ensures Runs(s, acts + [a]) && Windowed(s, acts + [a]) && Punctual(s, acts + [a])
    ensures Final(s, acts + [a]) == Apply(Final(s, acts), a)
    decreases |acts|
  {
    hide Enabled, Apply, WindowOpen, Timely;
    if acts == [] {
      assert acts + [a] == [a] && [a][1..] == [];
    } else {
      WellThenStep(Apply(s, acts[0]), acts[1..], a);
      assert (acts + [a])[1..] == acts[1..] + [a];
    }
  }

  lemma Well(s: State, a: Action, s': State)
    requires WellReached(s) && Enabled(s, a) && !a.Tick? && (a.Draw? ==> WindowOpen(s))
    requires s' == Apply(s, a).(calls := s'.calls, table := s'.table)
    requires Apply(s, a).calls == s'.calls && Apply(s, a).table == s'.table
    ensures WellReached(s')
  {
    hide Enabled, Apply, WindowOpen;
    var acts :| Runs(INIT, acts) && Windowed(INIT, acts) && Punctual(INIT, acts) && Final(INIT, acts) == s;
    WellThenStep(INIT, acts, a);
  }

  lemma WellTried()
    ensures WellReached(Trying(0, Waiting))
  {
    hide WellReached;
    assert WellReached(INIT) by { InitWell(); }
    assert Spent(0).calls == map[];
    Well(INIT, Draw, Trying(0, Drawn));
    Well(Trying(0, Drawn), Store(1), Trying(0, Stored));
    Well(Trying(0, Stored), Push(1), Trying(0, Waiting));
  }

  lemma InitWell()
    ensures WellReached(INIT)
  {
    assert Runs(INIT, []) && Windowed(INIT, []) && Punctual(INIT, []) && Final(INIT, []) == INIT;
  }

  lemma WellSpent()
    ensures WellReached(Spent(1))
  {
    hide WellReached;
    WellTried();
    Well(Trying(0, Waiting), Expire(1), Trying(0, Leaving(TimedOut)));
    Well(Trying(0, Leaving(TimedOut)), Return(1), Spent(1));
  }

  /** Even within the window and with punctual calls an answer can come late, and then the session is over. */
  lemma LateAnswerHappens()
    ensures exists s :: WellReached(s) && s.broken
  {
    WellSpent();
    var s1 := Apply(Spent(1), Answer(1, []));
    Well(Spent(1), Answer(1, []), s1);
    var s2 := Apply(s1, Arrive(1));
    Well(s1, Arrive(1), s2);
    assert s2.broken;
  }
}
