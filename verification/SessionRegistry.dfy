/** The map of registered sessions and its replacement protocol: when a device logs in again, `AddSession`
    cancels the old session, waits until it is done and then registers the new one, while every session's
    `serve` removes its registration on the way out.  Each action is one atomic step of one goroutine.
    (internal/deviceaccess/access_server/devicetcp/devicetcp.go, session.go) */
module SessionRegistry {
  import opened Counting

  /** The reader goroutine of a connection; from Verified to Counted it runs `AddSession`. */
  datatype Reader = Fresh | Verified | Found(prev: nat) | Awaiting(prev: nat) | Clear | Counted | Registered
  /** The serve goroutine; Leaving to Subtracted are its deferred calls. */
  datatype Serve = Running | Leaving | Deleted | Subtracted | Finished

  datatype Conn = Conn(device: string, reader: Reader, serve: Serve, cancelled: bool, done: nat)

  datatype State = State(sessions: map<string, nat>, num: int, conns: map<nat, Conn>)

  const INIT := State(map[], 0, map[])

  datatype Action =
    | Accept(c: nat) | Verify(c: nat, device: string)
    | Lookup(c: nat) | Cancel(c: nat) | AwaitDone(c: nat) | Increment(c: nat) | SetEntry(c: nat)
    | Exit(c: nat) | DelEntry(c: nat) | Decrement(c: nat) | SignalDone(c: nat)

  /** `verifyPass`: the device of the connection is known. */
  predicate Passed(x: Conn) {
    !x.reader.Fresh?
  }

  /** Between the start and the end of `AddSession`. */
  predicate Adding(x: Conn) {
    !x.reader.Fresh? && !x.reader.Registered?
  }

  predicate Enabled(s: State, a: Action) {
    match a
    case Accept(c) => c !in s.conns
    case Verify(c, _) => c in s.conns && (s.conns[c].reader.Fresh? || s.conns[c].reader.Registered?)
    case Lookup(c) => c in s.conns && s.conns[c].reader.Verified?
    case Cancel(c) => c in s.conns && s.conns[c].reader.Found? && s.conns[c].reader.prev in s.conns
    case AwaitDone(c) =>
      c in s.conns && s.conns[c].reader.Awaiting? && s.conns[c].reader.prev in s.conns
      && s.conns[s.conns[c].reader.prev].done > 0
    case Increment(c) => c in s.conns && s.conns[c].reader.Clear?
    case SetEntry(c) => c in s.conns && s.conns[c].reader.Counted?
    case Exit(c) => c in s.conns && s.conns[c].serve.Running?
    case DelEntry(c) => c in s.conns && s.conns[c].serve.Leaving? && Passed(s.conns[c])
    case Decrement(c) => c in s.conns && s.conns[c].serve.Deleted?
    case SignalDone(c) =>
      c in s.conns && (s.conns[c].serve.Subtracted? || (s.conns[c].serve.Leaving? && !Passed(s.conns[c])))
  }

  function Put(s: State, c: nat, x: Conn): State {
    s.(conns := s.conns[c := x])
  }

  function Apply(s: State, a: Action): State
    requires Enabled(s, a)
  {
    match a
    case Accept(c) => Put(s, c, Conn("", Fresh, Running, false, 0))
    case Verify(c, d) => Put(s, c, s.conns[c].(device := d, reader := Verified))
    case Lookup(c) =>
      var d := s.conns[c].device;
      Put(s, c, s.conns[c].(reader := if d in s.sessions then Found(s.sessions[d]) else Clear))
    case Cancel(c) =>
      var prev := s.conns[c].reader.prev;
      var s' := Put(s, prev, s.conns[prev].(cancelled := true));
      Put(s', c, s'.conns[c].(reader := Awaiting(prev)))
    case AwaitDone(c) =>
      var prev := s.conns[c].reader.prev;
      var s' := Put(s, prev, s.conns[prev].(done := s.conns[prev].done - 1));
      Put(s', c, s'.conns[c].(reader := Clear))
    case Increment(c) => Put(s, c, s.conns[c].(reader := Counted)).(num := s.num + 1)
    case SetEntry(c) =>
      Put(s, c, s.conns[c].(reader := Registered)).(sessions := s.sessions[s.conns[c].device := c])
    case Exit(c) => Put(s, c, s.conns[c].(serve := Leaving))
    case DelEntry(c) => Put(s, c, s.conns[c].(serve := Deleted)).(sessions := s.sessions - {s.conns[c].device})
    case Decrement(c) => Put(s, c, s.conns[c].(serve := Subtracted)).(num := s.num - 1)
    case SignalDone(c) => Put(s, c, s.conns[c].(serve := Finished, done := s.conns[c].done + 1))
  }

  predicate Runs(s: State, acts: seq<Action>)
    decreases |acts|
  {
    acts == [] || (Enabled(s, acts[0]) && Runs(Apply(s, acts[0]), acts[1..]))
  }

  function Final(s: State, acts: seq<Action>): State
    requires Runs(s, acts)
    decreases |acts|
  {
    if acts == [] then s else Final(Apply(s, acts[0]), acts[1..])
  }

  /** In any state a new connection can be accepted and verified for any device, and then its login starts. */
  lemma ConnectionLogsIn(s: State, c: nat, d: string)
    requires c !in s.conns
    ensures Enabled(s, Accept(c)) && Enabled(Apply(s, Accept(c)), Verify(c, d))
    ensures var s' := Apply(Apply(s, Accept(c)), Verify(c, d));
      && s' == s.(conns := s.conns[c := Conn(d, Verified, Running, false, 0)])
      && Enabled(s', Lookup(c)) && Enabled(s', Exit(c))
  {
  }

  // ----- what the results depend on -----

  /** No other connection is in the middle of `AddSession` for this device. */
  ghost predicate NoOtherAdder(s: State, c: nat, device: string) {
    forall b :: b in s.conns && b != c && Adding(s.conns[b]) ==> s.conns[b].device != device
  }

  /** A connection verifies once and while its session serves, `AddSession` calls for one device do not overlap,
      and a session does not exit in the middle of its own `AddSession`. */
  ghost predicate Orderly(s: State, a: Action)
    requires Enabled(s, a)
  {
    && (a.Verify? ==> s.conns[a.c].reader.Fresh? && s.conns[a.c].serve.Running? && NoOtherAdder(s, a.c, a.device))
    && (a.Exit? ==> !Adding(s.conns[a.c]))
  }

  ghost predicate OrderlyRun(s: State, acts: seq<Action>)
    requires Runs(s, acts)
    decreases |acts|
  {
    acts == [] || (Orderly(s, acts[0]) && OrderlyRun(Apply(s, acts[0]), acts[1..]))
  }

  // ----- the invariant -----

  /** Registered, and not yet removed by its own exit. */
  predicate Current(x: Conn) {
    x.reader.Registered? && (x.serve.Running? || x.serve.Leaving?)
  }

  predicate ConnOk(x: Conn) {
    && (Adding(x) ==> x.serve.Running?)
    && (x.done > 0 ==> x.serve.Finished?) && x.done <= 1
    && (x.serve.Deleted? || x.serve.Subtracted? ==> x.reader.Registered?)
    && (x.serve.Finished? ==> x.reader.Registered? || x.reader.Fresh?)
  }

  ghost predicate EntryOk(s: State) {
    forall d :: d in s.sessions ==>
      s.sessions[d] in s.conns && Current(s.conns[s.sessions[d]]) && s.conns[s.sessions[d]].device == d
  }

  ghost predicate CurrentOk(s: State) {
    forall c :: c in s.conns && Current(s.conns[c]) ==>
      s.conns[c].device in s.sessions && s.sessions[s.conns[c].device] == c
  }

  ghost predicate MapOk(s: State) {
    EntryOk(s) && CurrentOk(s)
  }

  ghost predicate AddersApart(s: State) {
    forall c, b :: c in s.conns && b in s.conns && c != b && Adding(s.conns[c]) && Adding(s.conns[b]) ==>
      s.conns[c].device != s.conns[b].device
  }

  ghost predicate ClearOk(s: State) {
    forall c :: c in s.conns && (s.conns[c].reader.Clear? || s.conns[c].reader.Counted?) ==>
      s.conns[c].device !in s.sessions
  }

  ghost predicate WaitersOk(s: State) {
    forall c :: c in s.conns && (s.conns[c].reader.Found? || s.conns[c].reader.Awaiting?) ==>
      PrevOk(s, s.conns[c].device, s.conns[c].reader.prev)
  }

  /** The session that is being replaced is the only one that the map can still hold for the device. */
  predicate PrevOk(s: State, device: string, prev: nat) {
    && prev in s.conns && s.conns[prev].reader.Registered? && s.conns[prev].device == device
    && (device in s.sessions ==> s.sessions[device] == prev)
  }

  /** The token that a replacement waits for is still to come or still there: nobody else takes it. */
  ghost predicate TokensOk(s: State) {
    forall c :: c in s.conns && (s.conns[c].reader.Found? || s.conns[c].reader.Awaiting?)
                && s.conns[c].reader.prev in s.conns ==>
      s.conns[s.conns[c].reader.prev].serve.Finished? ==> s.conns[s.conns[c].reader.prev].done == 1
  }

  ghost predicate Inv(s: State) {
    && (forall c :: c in s.conns ==> ConnOk(s.conns[c]))
    && MapOk(s) && AddersApart(s) && ClearOk(s) && WaitersOk(s) && TokensOk(s)
  }

  lemma StepConns(s: State, a: Action)
    requires Inv(s) && Enabled(s, a) && Orderly(s, a)
    ensures forall c :: c in Apply(s, a).conns ==> ConnOk(Apply(s, a).conns[c])
  {
  }

  lemma StepEntry(s: State, a: Action)
    requires Inv(s) && Enabled(s, a) && Orderly(s, a)
    ensures EntryOk(Apply(s, a))
  {
    hide AddersApart, WaitersOk, TokensOk;
  }

  lemma StepCurrent(s: State, a: Action)
    requires Inv(s) && Enabled(s, a) && Orderly(s, a)
    ensures CurrentOk(Apply(s, a))
  {
    hide AddersApart, WaitersOk, TokensOk;
  }

  lemma StepTokens(s: State, a: Action)
    requires Inv(s) && Enabled(s, a) && Orderly(s, a)
    ensures TokensOk(Apply(s, a))
  {
    hide ClearOk;
  }

  lemma StepApart(s: State, a: Action)
    requires Inv(s) && Enabled(s, a) && Orderly(s, a)
    ensures AddersApart(Apply(s, a))
  {
    hide MapOk, ClearOk, WaitersOk, TokensOk;
  }

  lemma StepClear(s: State, a: Action)
    requires Inv(s) && Enabled(s, a) && Orderly(s, a)
    ensures ClearOk(Apply(s, a))
  {
  }

  /** A lookup finds a session that is registered. */
  lemma LookupFinds(s: State, c: nat)
    requires Inv(s) && Enabled(s, Lookup(c))
    ensures var x := Apply(s, Lookup(c)).conns[c];
      x.reader.Found? ==> PrevOk(Apply(s, Lookup(c)), x.device, x.reader.prev)
  {
    hide AddersApart, WaitersOk, ClearOk, TokensOk;
  }

  /** What another connection, or a later step, leaves of the session that is being replaced. */
  lemma PrevStays(s: State, a: Action, c: nat)
    requires Inv(s) && Enabled(s, a) && Orderly(s, a) && c in s.conns && a != Lookup(c)
    ensures var x := Apply(s, a).conns[c];
      x.reader.Found? || x.reader.Awaiting? ==> PrevOk(Apply(s, a), x.device, x.reader.prev)
  {
    hide MapOk, ClearOk, TokensOk;
  }

  lemma StepWaiter(s: State, a: Action, c: nat)
    requires Inv(s) && Enabled(s, a) && Orderly(s, a) && c in Apply(s, a).conns
    ensures var x := Apply(s, a).conns[c];
      x.reader.Found? || x.reader.Awaiting? ==> PrevOk(Apply(s, a), x.device, x.reader.prev)
  {
    hide Inv, Orderly, PrevOk;
    if a == Lookup(c) {
      LookupFinds(s, c);
    } else if c in s.conns {
      PrevStays(s, a, c);
    }
  }

  lemma StepWaiters(s: State, a: Action)
    requires Inv(s) && Enabled(s, a) && Orderly(s, a)
    ensures WaitersOk(Apply(s, a))
  {
    hide Inv, Enabled, Apply, Orderly, PrevOk;
    forall c | c in Apply(s, a).conns && (Apply(s, a).conns[c].reader.Found? || Apply(s, a).conns[c].reader.Awaiting?)
      ensures PrevOk(Apply(s, a), Apply(s, a).conns[c].device, Apply(s, a).conns[c].reader.prev)
    {
      StepWaiter(s, a, c);
    }
  }

  lemma StepKeepsInv(s: State, a: Action)
    requires Inv(s) && Enabled(s, a) && Orderly(s, a)
    ensures Inv(Apply(s, a))
  {
    hide EntryOk, CurrentOk, AddersApart, ClearOk, WaitersOk, TokensOk;
    StepConns(s, a);
    StepEntry(s, a);
    StepCurrent(s, a);
    StepTokens(s, a);
    StepApart(s, a);
    StepClear(s, a);
    StepWaiters(s, a);
  }

  lemma {:induction false} RunKeepsInv(s: State, acts: seq<Action>)
    requires Inv(s) && Balanced(s) && Runs(s, acts) && OrderlyRun(s, acts)
    ensures Inv(Final(s, acts)) && Balanced(Final(s, acts))
    decreases |acts|
  {
    if acts != [] {
      StepKeepsInv(s, acts[0]);
      StepOrderlyIsGuarded(s, acts[0]);
      CountGuardIsExact(s, acts[0]);
      RunKeepsInv(Apply(s, acts[0]), acts[1..]);
    }
  }

  // ----- the session count -----

  function CountedOnly(conns: map<nat, Conn>): set<nat> {
    set c | c in conns && conns[c].reader.Counted?
  }

  function DeletedOnly(conns: map<nat, Conn>): set<nat> {
    set c | c in conns && conns[c].serve.Deleted?
  }

  /** `sessionNum` is the size of the map, corrected by the sessions between the two updates. */
  predicate Balanced(s: State) {
    s.num == |s.sessions| + |CountedOnly(s.conns)| + |DeletedOnly(s.conns)|
  }

  lemma OthersStay(conns: map<nat, Conn>, c: nat, x: Conn)
    ensures CountedOnly(conns[c := x]) - {c} == CountedOnly(conns) - {c}
    ensures DeletedOnly(conns[c := x]) - {c} == DeletedOnly(conns) - {c}
  {
  }

  lemma PutCounts(conns: map<nat, Conn>, c: nat, x: Conn)
    ensures |CountedOnly(conns[c := x])|
        == |CountedOnly(conns)| - Bit(c in conns && conns[c].reader.Counted?) + Bit(x.reader.Counted?)
    ensures |DeletedOnly(conns[c := x])|
        == |DeletedOnly(conns)| - Bit(c in conns && conns[c].serve.Deleted?) + Bit(x.serve.Deleted?)
  {
    hide CountedOnly, DeletedOnly;
    OthersStay(conns, c, x);
    CountedWithout(conns, c);
    CountedWithout(conns[c := x], c);
  }

  lemma CountedWithout(conns: map<nat, Conn>, c: nat)
    ensures |CountedOnly(conns)| == |CountedOnly(conns) - {c}| + Bit(c in conns && conns[c].reader.Counted?)
    ensures |DeletedOnly(conns)| == |DeletedOnly(conns) - {c}| + Bit(c in conns && conns[c].serve.Deleted?)
  {
    Without(CountedOnly(conns), c);
    Without(DeletedOnly(conns), c);
  }

  /** The steps that also touch the session that is being replaced. */
  lemma StepBalancedTwo(s: State, a: Action)
    requires Balanced(s) && Enabled(s, a) && (a.Cancel? || a.AwaitDone?)
    ensures Balanced(Apply(s, a))
  {
    var prev := s.conns[a.c].reader.prev;
    var x := if a.Cancel? then s.conns[prev].(cancelled := true) else s.conns[prev].(done := s.conns[prev].done - 1);
    PutCounts(s.conns, prev, x);
    PutCounts(s.conns[prev := x], a.c, Apply(s, a).conns[a.c]);
  }

  /** The steps that change one connection only. */
  lemma OneConn(s: State, a: Action)
    requires Enabled(s, a) && !a.Cancel? && !a.AwaitDone?
    ensures var x := Apply(s, a).conns[a.c];
      && |CountedOnly(Apply(s, a).conns)|
          == |CountedOnly(s.conns)| - Bit(a.c in s.conns && s.conns[a.c].reader.Counted?) + Bit(x.reader.Counted?)
      && |DeletedOnly(Apply(s, a).conns)|
          == |DeletedOnly(s.conns)| - Bit(a.c in s.conns && s.conns[a.c].serve.Deleted?) + Bit(x.serve.Deleted?)
  {
    var x := Apply(s, a).conns[a.c];
    assert Apply(s, a).conns == s.conns[a.c := x];
    PutCounts(s.conns, a.c, x);
  }

  // ----- exactly when the map and the count are right -----

  /** What a step has to find for the map to stay right: a session verifies while it is not registered, it is
      registered while it serves and after its predecessor is removed, and it removes its own entry. */
  predicate Guard(s: State, a: Action)
    requires Enabled(s, a)
  {
    match a
    case Verify(c, _) => !Current(s.conns[c])
    case SetEntry(c) => (s.conns[c].serve.Running? || s.conns[c].serve.Leaving?) && s.conns[c].device !in s.sessions
    case DelEntry(c) => s.conns[c].device in s.sessions ==> s.sessions[s.conns[c].device] == c
    case _ => true
  }

  lemma GuardSuffices(s: State, a: Action)
    requires MapOk(s) && Enabled(s, a) && Guard(s, a)
    ensures MapOk(Apply(s, a))
  {
  }

  /** The entry or the session on which a step that misses the guard goes wrong. */
  lemma GuardNeeded(s: State, a: Action)
    requires MapOk(s) && Enabled(s, a) && !Guard(s, a)
    ensures !MapOk(Apply(s, a))
  {
    var x, s' := s.conns[a.c], Apply(s, a);
    if a.Verify? {
      assert x.device in s'.sessions && s'.sessions[x.device] == a.c;
    } else if a.SetEntry? {
      assert s'.sessions[x.device] == a.c;
      if x.device in s.sessions {
        var b := s.sessions[x.device];
        assert b != a.c && s'.conns[b] == s.conns[b];
      }
    } else {
      var b := s.sessions[x.device];
      assert b != a.c && s'.conns[b] == s.conns[b] && x.device !in s'.sessions;
    }
  }

  /** The map holds exactly the current sessions, each under its device, at every moment of the run. */
  ghost predicate MapRight(s: State, acts: seq<Action>)
    requires Runs(s, acts)
    decreases |acts|
  {
    MapOk(s) && (acts == [] || MapRight(Apply(s, acts[0]), acts[1..]))
  }

  ghost predicate Guarded(s: State, acts: seq<Action>)
    requires Runs(s, acts)
    decreases |acts|
  {
    acts == [] || (Guard(s, acts[0]) && Guarded(Apply(s, acts[0]), acts[1..]))
  }

  /** Replacement is safe in exactly the runs whose every step meets the guard. */
  lemma {:induction false} MapRightIffGuarded(s: State, acts: seq<Action>)
    requires MapOk(s) && Runs(s, acts)
    ensures MapRight(s, acts) <==> Guarded(s, acts)
    decreases |acts|
  {
    hide MapOk, Guard;
    if acts != [] {
      if Guard(s, acts[0]) {
        GuardSuffices(s, acts[0]);
        MapRightIffGuarded(Apply(s, acts[0]), acts[1..]);
      } else {
        GuardNeeded(s, acts[0]);
      }
    }
  }

  /** What a step has to find for `sessionNum` to stay right: only new entries are counted and only entries that
      were there are discounted. */
  predicate CountGuard(s: State, a: Action)
    requires Enabled(s, a)
  {
    match a
    case SetEntry(c) => s.conns[c].device !in s.sessions
    case DelEntry(c) => s.conns[c].device in s.sessions
    case _ => true
  }

  lemma DelCount(s: State, c: nat)
    requires Balanced(s) && Enabled(s, DelEntry(c))
    ensures Balanced(Apply(s, DelEntry(c))) <==> CountGuard(s, DelEntry(c))
  {
    hide CountedOnly, DeletedOnly;
    OneConn(s, DelEntry(c));
    var d := s.conns[c].device;
    if d in s.sessions {
      assert s.sessions == (s.sessions - {d})[d := s.sessions[d]];
    } else {
      assert s.sessions - {d} == s.sessions;
    }
  }

  lemma SetCount(s: State, c: nat)
    requires Balanced(s) && Enabled(s, SetEntry(c))
    ensures Balanced(Apply(s, SetEntry(c))) <==> CountGuard(s, SetEntry(c))
  {
    hide CountedOnly, DeletedOnly;
    OneConn(s, SetEntry(c));
    var d := s.conns[c].device;
    assert d in s.sessions ==> s.sessions[d := c].Keys == s.sessions.Keys;
    assert |s.sessions[d := c].Keys| == |s.sessions[d := c]| && |s.sessions.Keys| == |s.sessions|;
  }

  lemma CountGuardIsExact(s: State, a: Action)
    requires Balanced(s) && Enabled(s, a)
    ensures Balanced(Apply(s, a)) <==> CountGuard(s, a)
  {
    hide CountedOnly, DeletedOnly;
    if a.Cancel? || a.AwaitDone? {
      StepBalancedTwo(s, a);
    } else if a.DelEntry? {
      DelCount(s, a.c);
    } else if a.SetEntry? {
      SetCount(s, a.c);
    } else {
      OneConn(s, a);
    }
  }

  /** The corrected count is right at every moment of the run. */
  predicate CountRight(s: State, acts: seq<Action>)
    requires Runs(s, acts)
    decreases |acts|
  {
    Balanced(s) && (acts == [] || CountRight(Apply(s, acts[0]), acts[1..]))
  }

  predicate CountGuarded(s: State, acts: seq<Action>)
    requires Runs(s, acts)
    decreases |acts|
  {
    acts == [] || (CountGuard(s, acts[0]) && CountGuarded(Apply(s, acts[0]), acts[1..]))
  }

  /** `sessionNum` agrees with the map throughout exactly the runs whose every step meets the count's guard. */
  lemma {:induction false} CountRightIffGuarded(s: State, acts: seq<Action>)
    requires Balanced(s) && Runs(s, acts)
    ensures CountRight(s, acts) <==> CountGuarded(s, acts)
    decreases |acts|
  {
    hide Balanced, CountGuard;
    if acts != [] {
      CountGuardIsExact(s, acts[0]);
      if CountGuard(s, acts[0]) {
        CountRightIffGuarded(Apply(s, acts[0]), acts[1..]);
      }
    }
  }

  // ----- exactly when no login waits in vain -----

  /** The session is over and its token was taken. */
  predicate Dead(s: State, c: nat) {
    c in s.conns && s.conns[c].serve.Finished? && s.conns[c].done == 0
  }

  /** A token is put once, by a session that is over, and a login waits for a session that exists. */
  ghost predicate DoneOk(s: State) {
    && (forall c :: c in s.conns ==> s.conns[c].done <= 1 && (s.conns[c].done > 0 ==> s.conns[c].serve.Finished?))
    && (forall c :: c in s.conns && s.conns[c].reader.Awaiting? ==> s.conns[c].reader.prev in s.conns)
  }

  lemma {:induction false} RunKeepsDone(s: State, acts: seq<Action>)
    requires DoneOk(s) && Runs(s, acts)
    ensures DoneOk(Final(s, acts))
    decreases |acts|
  {
    hide DoneOk;
    if acts != [] {
      DoneStep(s, acts[0]);
      RunKeepsDone(Apply(s, acts[0]), acts[1..]);
    }
  }

  /** In every run, orderly or not, a session that signals finds room in its done channel. */
  lemma SignalFindsRoom(acts: seq<Action>, c: nat)
    requires Runs(INIT, acts) && Enabled(Final(INIT, acts), SignalDone(c))
    ensures Final(INIT, acts).conns[c].done == 0
  {
    RunKeepsDone(INIT, acts);
  }

  /** No login waits for a session that is dead. */
  ghost predicate WaitOk(s: State) {
    forall c :: c in s.conns && s.conns[c].reader.Awaiting? ==> !Dead(s, s.conns[c].reader.prev)
  }

  /** What a step has to find: the session that a login starts to wait for is not dead, and nobody else waits for
      the token that a login takes. */
  ghost predicate WaitGuard(s: State, a: Action)
    requires Enabled(s, a)
  {
    match a
    case Cancel(c) => !Dead(s, s.conns[c].reader.prev)
    case AwaitDone(c) =>
      forall b :: b in s.conns && b != c ==> s.conns[b].reader != Awaiting(s.conns[c].reader.prev)
    case _ => true
  }

  lemma WaitGuardIsExact(s: State, a: Action)
    requires DoneOk(s) && WaitOk(s) && Enabled(s, a)
    ensures WaitOk(Apply(s, a)) <==> WaitGuard(s, a)
  {
    if a.AwaitDone? && !WaitGuard(s, a) {
      var b :| b in s.conns && b != a.c && s.conns[b].reader == Awaiting(s.conns[a.c].reader.prev);
      assert Apply(s, a).conns[b].reader == s.conns[b].reader && Dead(Apply(s, a), s.conns[b].reader.prev);
    } else if a.Cancel? && !WaitGuard(s, a) {
      assert Apply(s, a).conns[a.c].reader.Awaiting? && Dead(Apply(s, a), s.conns[a.c].reader.prev);
    }
  }

  /** At every moment of the run no login waits for a dead session. */
  ghost predicate WaitRight(s: State, acts: seq<Action>)
    requires Runs(s, acts)
    decreases |acts|
  {
    WaitOk(s) && (acts == [] || WaitRight(Apply(s, acts[0]), acts[1..]))
  }

  ghost predicate WaitGuarded(s: State, acts: seq<Action>)
    requires Runs(s, acts)
    decreases |acts|
  {
    acts == [] || (WaitGuard(s, acts[0]) && WaitGuarded(Apply(s, acts[0]), acts[1..]))
  }

  /** Nobody waits in vain in exactly the runs whose every step meets the guard of the wait. */
  lemma {:induction false} WaitRightIffGuarded(s: State, acts: seq<Action>)
    requires DoneOk(s) && WaitOk(s) && Runs(s, acts)
    ensures WaitRight(s, acts) <==> WaitGuarded(s, acts)
    decreases |acts|
  {
    hide WaitOk, WaitGuard;
    if acts != [] {
      WaitGuardIsExact(s, acts[0]);
      assert DoneOk(Apply(s, acts[0])) by { DoneStep(s, acts[0]); }
      if WaitGuard(s, acts[0]) {
        WaitRightIffGuarded(Apply(s, acts[0]), acts[1..]);
      }
    }
  }

  lemma DoneStepToken(s: State, a: Action, c: nat)
    requires DoneOk(s) && Enabled(s, a) && c in Apply(s, a).conns
    ensures var x := Apply(s, a).conns[c]; x.done <= 1 && (x.done > 0 ==> x.serve.Finished?)
  {
  }

  lemma DoneStepPrev(s: State, a: Action, c: nat)
    requires DoneOk(s) && Enabled(s, a) && c in Apply(s, a).conns && Apply(s, a).conns[c].reader.Awaiting?
    ensures Apply(s, a).conns[c].reader.prev in Apply(s, a).conns
  {
  }

  lemma DoneStep(s: State, a: Action)
    requires DoneOk(s) && Enabled(s, a)
    ensures DoneOk(Apply(s, a))
  {
    hide Enabled, Apply;
    var s' := Apply(s, a);
    forall c | c in s'.conns ensures s'.conns[c].done <= 1 && (s'.conns[c].done > 0 ==> s'.conns[c].serve.Finished?) {
      DoneStepToken(s, a, c);
    }
    forall c | c in s'.conns && s'.conns[c].reader.Awaiting? ensures s'.conns[c].reader.prev in s'.conns {
      DoneStepPrev(s, a, c);
    }
  }

  lemma {:induction false} WaitGuardedEndsRight(s: State, acts: seq<Action>)
    requires DoneOk(s) && WaitOk(s) && Runs(s, acts) && WaitGuarded(s, acts)
    ensures DoneOk(Final(s, acts)) && WaitOk(Final(s, acts))
    decreases |acts|
  {
    hide WaitOk, WaitGuard, DoneOk;
    if acts != [] {
      WaitGuardIsExact(s, acts[0]);
      DoneStep(s, acts[0]);
      WaitGuardedEndsRight(Apply(s, acts[0]), acts[1..]);
    }
  }

  // ----- orderly use -----

  lemma StepOrderlyIsGuarded(s: State, a: Action)
    requires Inv(s) && Enabled(s, a) && Orderly(s, a)
    ensures Guard(s, a) && CountGuard(s, a)
  {
    hide AddersApart, WaitersOk, TokensOk;
    if a.SetEntry? || a.DelEntry? { assert ConnOk(s.conns[a.c]); }
  }

  lemma StepOrderlyWaits(s: State, a: Action)
    requires Inv(s) && Enabled(s, a) && Orderly(s, a)
    ensures WaitGuard(s, a)
  {
    hide MapOk, ClearOk;
  }

  /** Orderly use is enough: one verification per connection, read while the session serves, logins of a device
      one after another, and no exit in the middle of a registration. */
  lemma {:induction false} OrderlyIsGuarded(s: State, acts: seq<Action>)
    requires Inv(s) && Runs(s, acts) && OrderlyRun(s, acts)
    ensures Guarded(s, acts) && CountGuarded(s, acts) && WaitGuarded(s, acts)
    decreases |acts|
  {
    if acts != [] {
      StepOrderlyIsGuarded(s, acts[0]);
      StepOrderlyWaits(s, acts[0]);
      StepKeepsInv(s, acts[0]);
      OrderlyIsGuarded(Apply(s, acts[0]), acts[1..]);
    }
  }

  lemma {:induction false} GuardedEndsRight(s: State, acts: seq<Action>)
    requires MapOk(s) && Runs(s, acts) && Guarded(s, acts)
    ensures MapOk(Final(s, acts))
    decreases |acts|
  {
    if acts != [] {
      GuardSuffices(s, acts[0]);
      GuardedEndsRight(Apply(s, acts[0]), acts[1..]);
    }
  }

  // ----- replacement is safe -----

  /** In every run that meets the guard a device has at most one session that is registered and not yet removed,
      and it is the one in the map. */
  lemma OneSessionPerDevice(acts: seq<Action>, c: nat, b: nat)
    requires Runs(INIT, acts) && Guarded(INIT, acts)
    requires c in Final(INIT, acts).conns && b in Final(INIT, acts).conns
    ensures var s := Final(INIT, acts);
      && (Current(s.conns[c]) ==> s.conns[c].device in s.sessions && s.sessions[s.conns[c].device] == c)
      && (Current(s.conns[c]) && Current(s.conns[b]) && s.conns[c].device == s.conns[b].device ==> c == b)
  {
    GuardedEndsRight(INIT, acts);
  }

  /** In every orderly run no session is registered before the removal of the one it replaces. */
  lemma RemovedBeforeReplaced(acts: seq<Action>, c: nat, b: nat)
    requires Runs(INIT, acts) && OrderlyRun(INIT, acts) && Enabled(Final(INIT, acts), SetEntry(c))
    requires b in Final(INIT, acts).conns
    ensures var s := Final(INIT, acts); s.conns[b].device == s.conns[c].device ==> !Current(s.conns[b])
  {
    RunKeepsInv(INIT, acts);
  }

  /** The entry that a departing session deletes is its own, never its successor's. */
  lemma DeletesOnlyItself(acts: seq<Action>, c: nat)
    requires Runs(INIT, acts) && OrderlyRun(INIT, acts) && Enabled(Final(INIT, acts), DelEntry(c))
    ensures var s := Final(INIT, acts); s.conns[c].device in s.sessions && s.sessions[s.conns[c].device] == c
  {
    RunKeepsInv(INIT, acts);
  }

  /** In every run that meets the count's guard, `sessionNum` equals the size of the map whenever no session is
      between the two updates. */
  lemma NumIsMapSize(acts: seq<Action>)
    requires Runs(INIT, acts) && CountGuarded(INIT, acts)
    requires CountedOnly(Final(INIT, acts).conns) == {} == DeletedOnly(Final(INIT, acts).conns)
    ensures Final(INIT, acts).num == |Final(INIT, acts).sessions|
  {
    assert CountedOnly(INIT.conns) == {} && DeletedOnly(INIT.conns) == {};
    CountGuardedEndsRight(INIT, acts);
  }

  lemma {:induction false} CountGuardedEndsRight(s: State, acts: seq<Action>)
    requires Balanced(s) && Runs(s, acts) && CountGuarded(s, acts)
    ensures Balanced(Final(s, acts))
    decreases |acts|
  {
    hide Balanced, CountGuard;
    if acts != [] {
      CountGuardIsExact(s, acts[0]);
      CountGuardedEndsRight(Apply(s, acts[0]), acts[1..]);
    }
  }

  /** In every run that meets the guard of the wait, a login that waits for a session can go on if and only if that
      session has finished: it finds the token or can still expect it. */
  lemma DoneIsNeverLost(acts: seq<Action>, c: nat)
    requires Runs(INIT, acts) && WaitGuarded(INIT, acts) && c in Final(INIT, acts).conns
    ensures var s := Final(INIT, acts);
      s.conns[c].reader.Awaiting? ==>
        && s.conns[c].reader.prev in s.conns
        && (Enabled(s, AwaitDone(c)) <==> s.conns[s.conns[c].reader.prev].serve.Finished?)
  {
    WaitGuardedEndsRight(INIT, acts);
  }

  // ----- overlapping logins -----

  ghost predicate Reachable(s: State) {
    exists acts :: Runs(INIT, acts) && Final(INIT, acts) == s
  }

  lemma {:induction false} RunThenStep(s: State, acts: seq<Action>, a: Action)
    requires Runs(s, acts) && Enabled(Final(s, acts), a)
    ensures Runs(s, acts + [a]) && Final(s, acts + [a]) == Apply(Final(s, acts), a)
    decreases |acts|
  {
    if acts == [] {
      assert acts + [a] == [a] && [a][1..] == [];
    } else {
      RunThenStep(Apply(s, acts[0]), acts[1..], a);
      assert (acts + [a])[1..] == acts[1..] + [a];
    }
  }

  lemma Onward(s: State, a: Action, s': State)
    requires Reachable(s) && Enabled(s, a)
    requires Apply(s, a).conns == s'.conns && Apply(s, a).sessions == s'.sessions && Apply(s, a).num == s'.num
    ensures Reachable(s')
  {
    var acts :| Runs(INIT, acts) && Final(INIT, acts) == s;
    RunThenStep(INIT, acts, a);
  }

  /** Connections 1 and 2 of one device. */
  function Pair(r1: Reader, e1: Serve, r2: Reader, sessions: map<string, nat>, num: int): State {
    var d1, d2 := if r1.Fresh? then "" else "d", if r2.Fresh? then "" else "d";
    State(sessions, num, map[1 := Conn(d1, r1, e1, false, 0), 2 := Conn(d2, r2, Running, false, 0)])
  }

  lemma BothAccepted()
    ensures Reachable(Pair(Fresh, Running, Fresh, map[], 0))
  {
    assert Runs(INIT, []) && Final(INIT, []) == INIT;
    var s1 := State(map[], 0, map[1 := Conn("", Fresh, Running, false, 0)]);
    Onward(INIT, Accept(1), s1);
    Onward(s1, Accept(2), Pair(Fresh, Running, Fresh, map[], 0));
  }

  lemma BothVerified()
    ensures Reachable(Pair(Verified, Running, Verified, map[], 0))
  {
    hide Reachable;
    BothAccepted();
    Onward(Pair(Fresh, Running, Fresh, map[], 0), Verify(1, "d"), Pair(Verified, Running, Fresh, map[], 0));
    Onward(Pair(Verified, Running, Fresh, map[], 0), Verify(2, "d"), Pair(Verified, Running, Verified, map[], 0));
  }

  /** Both logins look the device up before either registers. */
  lemma BothClear()
    ensures Reachable(Pair(Clear, Running, Clear, map[], 0))
  {
    hide Reachable;
    BothVerified();
    Onward(Pair(Verified, Running, Verified, map[], 0), Lookup(1), Pair(Clear, Running, Verified, map[], 0));
    Onward(Pair(Clear, Running, Verified, map[], 0), Lookup(2), Pair(Clear, Running, Clear, map[], 0));
  }

  lemma BothCounted()
    ensures Reachable(Pair(Counted, Running, Counted, map[], 2))
  {
    hide Reachable;
    BothClear();
    Onward(Pair(Clear, Running, Clear, map[], 0), Increment(1), Pair(Counted, Running, Clear, map[], 1));
    Onward(Pair(Counted, Running, Clear, map[], 1), Increment(2), Pair(Counted, Running, Counted, map[], 2));
  }

  lemma BothRegistered()
    ensures Reachable(Pair(Registered, Running, Registered, map["d" := 2], 2))
  {
    hide Reachable;
    BothCounted();
    Onward(Pair(Counted, Running, Counted, map[], 2), SetEntry(1),
           Pair(Registered, Running, Counted, map["d" := 1], 2));
    Onward(Pair(Registered, Running, Counted, map["d" := 1], 2), SetEntry(2),
           Pair(Registered, Running, Registered, map["d" := 2], 2));
  }

  /** When two logins of one device overlap, the first session's exit removes the registration of the second,
      which goes on serving unregistered. */
  lemma OverlapUnregisters()
    ensures exists s, c :: Reachable(s) && c in s.conns && Current(s.conns[c]) && s.conns[c].device !in s.sessions
  {
    BothRegistered();
    var s1 := Pair(Registered, Running, Registered, map["d" := 2], 2);
    var s2 := Pair(Registered, Leaving, Registered, map["d" := 2], 2);
    var s3 := Pair(Registered, Deleted, Registered, map[], 2);
    Onward(s1, Exit(1), s2);
    Onward(s2, DelEntry(1), s3);
    assert Current(s3.conns[2]) && s3.conns[2].device !in s3.sessions;
  }

  // ----- a second verification on one connection -----

  /** Connection 1 alone. */
  function Solo(r: Reader, e: Serve, cancelled: bool, done: nat, sessions: map<string, nat>, num: int): State {
    State(sessions, num, map[1 := Conn(if r.Fresh? then "" else "d", r, e, cancelled, done)])
  }

  lemma SoloRegistered()
    ensures Reachable(Solo(Registered, Running, false, 0, map["d" := 1], 1))
  {
    hide Reachable;
    SoloClear();
    Onward(Solo(Clear, Running, false, 0, map[], 0), Increment(1), Solo(Counted, Running, false, 0, map[], 1));
    Onward(Solo(Counted, Running, false, 0, map[], 1), SetEntry(1),
           Solo(Registered, Running, false, 0, map["d" := 1], 1));
  }

  lemma InitReachable()
    ensures Reachable(INIT)
  {
    assert Runs(INIT, []) && Final(INIT, []) == INIT;
  }

  /** The second login finds its own session and cancels it. */
  lemma SoloCancelled()
    ensures Reachable(Solo(Awaiting(1), Running, true, 0, map["d" := 1], 1))
  {
    hide Reachable;
    SoloRegistered();
    var m := map["d" := 1];
    Onward(Solo(Registered, Running, false, 0, m, 1), Verify(1, "d"), Solo(Verified, Running, false, 0, m, 1));
    Onward(Solo(Verified, Running, false, 0, m, 1), Lookup(1), Solo(Found(1), Running, false, 0, m, 1));
    Onward(Solo(Found(1), Running, false, 0, m, 1), Cancel(1), Solo(Awaiting(1), Running, true, 0, m, 1));
  }

  lemma SoloFinished()
    ensures Reachable(Solo(Awaiting(1), Finished, true, 1, map[], 0))
  {
    hide Reachable;
    SoloCancelled();
    var m := map["d" := 1];
    Onward(Solo(Awaiting(1), Running, true, 0, m, 1), Exit(1), Solo(Awaiting(1), Leaving, true, 0, m, 1));
    Onward(Solo(Awaiting(1), Leaving, true, 0, m, 1), DelEntry(1), Solo(Awaiting(1), Deleted, true, 0, map[], 1));
    Onward(Solo(Awaiting(1), Deleted, true, 0, map[], 1), Decrement(1),
           Solo(Awaiting(1), Subtracted, true, 0, map[], 0));
    Onward(Solo(Awaiting(1), Subtracted, true, 0, map[], 0), SignalDone(1),
           Solo(Awaiting(1), Finished, true, 1, map[], 0));
  }

  // ----- an exit in the middle of a registration, and a verification after the exit -----

  lemma SoloClear()
    ensures Reachable(Solo(Clear, Running, false, 0, map[], 0))
  {
    hide Reachable;
    assert Reachable(INIT) by { InitReachable(); }
    Onward(INIT, Accept(1), Solo(Fresh, Running, false, 0, map[], 0));
    Onward(Solo(Fresh, Running, false, 0, map[], 0), Verify(1, "d"), Solo(Verified, Running, false, 0, map[], 0));
    Onward(Solo(Verified, Running, false, 0, map[], 0), Lookup(1), Solo(Clear, Running, false, 0, map[], 0));
  }

  lemma SoloGone()
    ensures Reachable(Solo(Clear, Finished, false, 1, map[], -1))
  {
    hide Reachable;
    SoloClear();
    Onward(Solo(Clear, Running, false, 0, map[], 0), Exit(1), Solo(Clear, Leaving, false, 0, map[], 0));
    Onward(Solo(Clear, Leaving, false, 0, map[], 0), DelEntry(1), Solo(Clear, Deleted, false, 0, map[], 0));
    Onward(Solo(Clear, Deleted, false, 0, map[], 0), Decrement(1), Solo(Clear, Subtracted, false, 0, map[], -1));
    Onward(Solo(Clear, Subtracted, false, 0, map[], -1), SignalDone(1), Solo(Clear, Finished, false, 1, map[], -1));
  }

  /** A session whose `serve` exits during its own `AddSession` ends registered although it is over, and
      `sessionNum` is 0 while the map has one entry. */
  lemma ExitDuringAddSession()
    ensures exists s, c :: Reachable(s) && c in s.conns && s.conns[c].serve.Finished? && s.num == 0
                           && s.sessions == map[s.conns[c].device := c]
  {
    SoloGone();
    var m := map["d" := 1];
    Onward(Solo(Clear, Finished, false, 1, map[], -1), Increment(1), Solo(Counted, Finished, false, 1, map[], 0));
    Onward(Solo(Counted, Finished, false, 1, map[], 0), SetEntry(1), Solo(Registered, Finished, false, 1, m, 0));
    var s := Solo(Registered, Finished, false, 1, m, 0);
    assert Reachable(s) && s.conns[1].serve.Finished? && s.sessions == map[s.conns[1].device := 1];
  }

  lemma SoloLate()
    ensures Reachable(Solo(Fresh, Finished, false, 1, map[], 0))
  {
    hide Reachable;
    assert Reachable(INIT) by { InitReachable(); }
    Onward(INIT, Accept(1), Solo(Fresh, Running, false, 0, map[], 0));
    Onward(Solo(Fresh, Running, false, 0, map[], 0), Exit(1), Solo(Fresh, Leaving, false, 0, map[], 0));
    Onward(Solo(Fresh, Leaving, false, 0, map[], 0), SignalDone(1), Solo(Fresh, Finished, false, 1, map[], 0));
  }

  lemma LateClear()
    ensures Reachable(Solo(Clear, Finished, false, 1, map[], 0))
  {
    hide Reachable;
    SoloLate();
    Onward(Solo(Fresh, Finished, false, 1, map[], 0), Verify(1, "d"), Solo(Verified, Finished, false, 1, map[], 0));
    Onward(Solo(Verified, Finished, false, 1, map[], 0), Lookup(1), Solo(Clear, Finished, false, 1, map[], 0));
  }

  /** A verification that passes after `serve` has ended, as when the backend takes longer than the 15 seconds
      of the verification timer, registers a session that is over and counts it. */
  lemma VerifiedTooLate()
    ensures exists s, c :: Reachable(s) && c in s.conns && s.conns[c].serve.Finished? && !s.conns[c].cancelled
                           && s.num == 1 && s.sessions == map[s.conns[c].device := c]
  {
    LateClear();
    var m := map["d" := 1];
    Onward(Solo(Clear, Finished, false, 1, map[], 0), Increment(1), Solo(Counted, Finished, false, 1, map[], 1));
    Onward(Solo(Counted, Finished, false, 1, map[], 1), SetEntry(1), Solo(Registered, Finished, false, 1, m, 1));
    var s := Solo(Registered, Finished, false, 1, m, 1);
    assert Reachable(s) && s.conns[1].serve.Finished? && s.sessions == map[s.conns[1].device := 1];
  }

  // ----- a session that is over for ever -----

  /** A session whose token was taken never signals again, in any run: a login that finds it registered waits
      for ever. */
  lemma {:induction false} DeadForever(s: State, acts: seq<Action>, c: nat)
    requires Dead(s, c) && Runs(s, acts)
    ensures Dead(Final(s, acts), c)
    decreases |acts|
  {
    if acts != [] { DeadForever(Apply(s, acts[0]), acts[1..], c); }
  }

  /** A device that verifies a second time on one connection ends up registered with a session that is over. */
  lemma SecondVerificationLeavesDeadSession()
    ensures exists s, c :: Reachable(s) && Dead(s, c)
                           && s.conns[c].device in s.sessions && s.sessions[s.conns[c].device] == c
  {
    SoloFinished();
    var m := map["d" := 1];
    Onward(Solo(Awaiting(1), Finished, true, 1, map[], 0), AwaitDone(1), Solo(Clear, Finished, true, 0, map[], 0));
    Onward(Solo(Clear, Finished, true, 0, map[], 0), Increment(1), Solo(Counted, Finished, true, 0, map[], 1));
    Onward(Solo(Counted, Finished, true, 0, map[], 1), SetEntry(1), Solo(Registered, Finished, true, 0, m, 1));
    var s := Solo(Registered, Finished, true, 0, m, 1);
    assert Reachable(s) && Dead(s, 1) && s.sessions[s.conns[1].device] == 1;
  }

  // ----- two logins that wait for one token -----

  /** A run that keeps map and count right leads to s. */
  ghost predicate SafelyReached(s: State) {
    exists acts :: Runs(INIT, acts) && Guarded(INIT, acts) && CountGuarded(INIT, acts) && Final(INIT, acts) == s
  }

  lemma {:induction false} GuardedThenStep(s: State, acts: seq<Action>, a: Action)
    requires Runs(s, acts) && Guarded(s, acts) && CountGuarded(s, acts)
    requires Enabled(Final(s, acts), a) && Guard(Final(s, acts), a) && CountGuard(Final(s, acts), a)
    ensures Runs(s, acts + [a]) && Guarded(s, acts + [a]) && CountGuarded(s, acts + [a])
    ensures Final(s, acts + [a]) == Apply(Final(s, acts), a)
    decreases |acts|
  {
    hide Enabled, Apply, Guard, CountGuard;
    if acts == [] {
      assert acts + [a] == [a] && [a][1..] == [];
    } else {
      GuardedThenStep(Apply(s, acts[0]), acts[1..], a);
      assert (acts + [a])[1..] == acts[1..] + [a];
    }
  }

  lemma Safely(s: State, a: Action, s': State)
    requires SafelyReached(s) && Enabled(s, a) && Guard(s, a) && CountGuard(s, a)
    requires Apply(s, a).conns == s'.conns && Apply(s, a).sessions == s'.sessions && Apply(s, a).num == s'.num
    ensures SafelyReached(s')
  {
    hide Enabled, Apply, Guard, CountGuard;
    var acts :| Runs(INIT, acts) && Guarded(INIT, acts) && CountGuarded(INIT, acts) && Final(INIT, acts) == s;
    GuardedThenStep(INIT, acts, a);
  }

  /** Connections 1, 2 and 3 of one device; the last two serve. */
  function Trio(x: Conn, r2: Reader, r3: Reader, sessions: map<string, nat>, num: int): State {
    var d2, d3 := if r2.Fresh? then "" else "d", if r3.Fresh? then "" else "d";
    State(sessions, num, map[1 := x, 2 := Conn(d2, r2, Running, false, 0), 3 := Conn(d3, r3, Running, false, 0)])
  }

  function First(r: Reader, e: Serve, cancelled: bool, done: nat): Conn {
    Conn(if r.Fresh? then "" else "d", r, e, cancelled, done)
  }

  lemma TrioAccepted()
    ensures SafelyReached(Trio(First(Fresh, Running, false, 0), Fresh, Fresh, map[], 0))
  {
    hide SafelyReached;
    assert SafelyReached(INIT) by { InitSafely(); }
    var x := First(Fresh, Running, false, 0);
    Safely(INIT, Accept(1), State(map[], 0, map[1 := x]));
    Safely(State(map[], 0, map[1 := x]), Accept(2), State(map[], 0, map[1 := x, 2 := x]));
    Safely(State(map[], 0, map[1 := x, 2 := x]), Accept(3), Trio(x, Fresh, Fresh, map[], 0));
  }

  lemma InitSafely()
    ensures SafelyReached(INIT)
  {
    assert Runs(INIT, []) && Guarded(INIT, []) && CountGuarded(INIT, []) && Final(INIT, []) == INIT;
  }

  lemma TrioRegistered()
    ensures SafelyReached(Trio(First(Registered, Running, false, 0), Fresh, Fresh, map["d" := 1], 1))
  {
    hide SafelyReached;
    TrioAccepted();
    var x0, x1 := First(Fresh, Running, false, 0), First(Verified, Running, false, 0);
    var x2, x3 := First(Clear, Running, false, 0), First(Counted, Running, false, 0);
    Safely(Trio(x0, Fresh, Fresh, map[], 0), Verify(1, "d"), Trio(x1, Fresh, Fresh, map[], 0));
    Safely(Trio(x1, Fresh, Fresh, map[], 0), Lookup(1), Trio(x2, Fresh, Fresh, map[], 0));
    Safely(Trio(x2, Fresh, Fresh, map[], 0), Increment(1), Trio(x3, Fresh, Fresh, map[], 1));
    Safely(Trio(x3, Fresh, Fresh, map[], 1), SetEntry(1),
           Trio(First(Registered, Running, false, 0), Fresh, Fresh, map["d" := 1], 1));
  }

  lemma TrioFound()
    ensures SafelyReached(Trio(First(Registered, Running, false, 0), Found(1), Found(1), map["d" := 1], 1))
  {
    hide SafelyReached;
    TrioRegistered();
    var x, m := First(Registered, Running, false, 0), map["d" := 1];
    Safely(Trio(x, Fresh, Fresh, m, 1), Verify(2, "d"), Trio(x, Verified, Fresh, m, 1));
    Safely(Trio(x, Verified, Fresh, m, 1), Verify(3, "d"), Trio(x, Verified, Verified, m, 1));
    Safely(Trio(x, Verified, Verified, m, 1), Lookup(2), Trio(x, Found(1), Verified, m, 1));
    Safely(Trio(x, Found(1), Verified, m, 1), Lookup(3), Trio(x, Found(1), Found(1), m, 1));
  }

  lemma TrioWaits()
    ensures SafelyReached(Trio(First(Registered, Running, true, 0), Awaiting(1), Awaiting(1), map["d" := 1], 1))
  {
    hide SafelyReached;
    TrioFound();
    var x, y, m := First(Registered, Running, false, 0), First(Registered, Running, true, 0), map["d" := 1];
    Safely(Trio(x, Found(1), Found(1), m, 1), Cancel(2), Trio(y, Awaiting(1), Found(1), m, 1));
    Safely(Trio(y, Awaiting(1), Found(1), m, 1), Cancel(3), Trio(y, Awaiting(1), Awaiting(1), m, 1));
  }

  lemma TrioRemoved()
    ensures SafelyReached(Trio(First(Registered, Deleted, true, 0), Awaiting(1), Awaiting(1), map[], 1))
  {
    hide SafelyReached;
    TrioWaits();
    var w, m := Awaiting(1), map["d" := 1];
    var x1, x2 := First(Registered, Running, true, 0), First(Registered, Leaving, true, 0);
    Safely(Trio(x1, w, w, m, 1), Exit(1), Trio(x2, w, w, m, 1));
    Safely(Trio(x2, w, w, m, 1), DelEntry(1), Trio(First(Registered, Deleted, true, 0), w, w, map[], 1));
  }

  lemma TrioFinished()
    ensures SafelyReached(Trio(First(Registered, Finished, true, 1), Awaiting(1), Awaiting(1), map[], 0))
  {
    hide SafelyReached;
    TrioRemoved();
    var w := Awaiting(1);
    var x3, x4 := First(Registered, Deleted, true, 0), First(Registered, Subtracted, true, 0);
    Safely(Trio(x3, w, w, map[], 1), Decrement(1), Trio(x4, w, w, map[], 0));
    Safely(Trio(x4, w, w, map[], 0), SignalDone(1), Trio(First(Registered, Finished, true, 1), w, w, map[], 0));
  }

  /** Keeping map and count right is not enough for the wait: when two logins wait for one session, the first takes
      its only token, and the second waits for a dead session. */
  lemma TwoWaitersOneToken()
    ensures exists s :: SafelyReached(s) && 3 in s.conns && s.conns[3].reader == Awaiting(1) && Dead(s, 1)
  {
    TrioFinished();
    var s := Trio(First(Registered, Finished, true, 0), Clear, Awaiting(1), map[], 0);
    Safely(Trio(First(Registered, Finished, true, 1), Awaiting(1), Awaiting(1), map[], 0), AwaitDone(2), s);
    assert s.conns[3].reader == Awaiting(1) && Dead(s, 1);
  }
}
