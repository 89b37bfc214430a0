/** The session map and the TCP server that keeps it, as objects that are updated in place.  Their methods are the
    sequential instance of the interleaved protocol in `SessionRegistry`: each performs a run of its atomic steps.
    (internal/deviceaccess/access_server/devicetcp/sessionmap.go, devicetcp.go) */
module ServerTcp {
  import opened Types
  import opened Counting
  import opened SessionRegistry

  /** The part of a session that replacement reads and writes; `c` names its connection. */
  class Session {
    const c: nat
    var conn: Conn

    constructor (c: nat)
      ensures this.c == c && conn == Conn("", Fresh, Running, false, 0)
    {
      this.c := c;
      conn := Conn("", Fresh, Running, false, 0);
    }
  }

  class SessionMap {
    var store: map<string, Session>

    constructor ()
      ensures store == map[]
    {
      store := map[];
    }

    method Set(deviceID: string, session: Session)
      modifies this
      ensures store == old(store)[deviceID := session]
    {
      store := store[deviceID := session];
    }

    method Get(deviceID: string) returns (r: Option<Session>)
      ensures r == if deviceID in store then Some(store[deviceID]) else None
    {
      r := if deviceID in store then Some(store[deviceID]) else None;
    }

    method Del(deviceID: string)
      modifies this
      ensures store == old(store) - {deviceID}
    {
      store := store - {deviceID};
    }
  }

  /** What is left of the exit of a verified session's `serve`: its own step, `DelSession`, and its signal. */
  function ExitRun(c: nat, e: Serve): seq<Action> {
    match e
    case Running => [Action.Exit(c), DelEntry(c), Decrement(c), SignalDone(c)]
    case Leaving => [DelEntry(c), Decrement(c), SignalDone(c)]
    case Deleted => [Decrement(c), SignalDone(c)]
    case Subtracted => [SignalDone(c)]
    case Finished => []
  }

  function After(e: Serve): Serve {
    match e
    case Running => Leaving
    case Leaving => Deleted
    case Deleted => Subtracted
    case Subtracted => Finished
    case Finished => Finished
  }

  /** The steps of `AddSession` for connection c, with the exit of the session that it waits for. */
  function AddRun(s: State, c: nat): seq<Action>
    requires c in s.conns && CanGo(s, s.conns[c].device)
  {
    var d := s.conns[c].device;
    [Lookup(c)]
    + (if d in s.sessions
       then [Cancel(c)] + ExitRun(s.sessions[d], s.conns[s.sessions[d]].serve) + [AwaitDone(c)]
       else [])
    + [Increment(c), SetEntry(c)]
  }

  /** The session that is registered for the device, if any, is not dead: it can still signal, or has. */
  predicate CanGo(s: State, d: string) {
    d in s.sessions ==>
      s.sessions[d] in s.conns && Passed(s.conns[s.sessions[d]]) && !Dead(s, s.sessions[d])
  }

  class ServerTCP {
    const sessions: SessionMap
    var sessionNum: int
    ghost var all: map<nat, Session>  // every connection that was accepted

    constructor (sessions: SessionMap)
      requires sessions.store == map[]
      ensures this.sessions == sessions && Valid() && Abs() == INIT
    {
      this.sessions := sessions;
      sessionNum := 0;
      all := map[];
    }

    ghost predicate Valid()
      reads this, sessions
    {
      && (forall c :: c in all ==> all[c].c == c)
      && (forall d :: d in sessions.store ==>
            sessions.store[d].c in all && all[sessions.store[d].c] == sessions.store[d])
    }

    ghost predicate Has(session: Session)
      reads this
    {
      session.c in all && all[session.c] == session
    }

    /** The state of the protocol that the objects are in. */
    ghost function Abs(): State
      reads this, sessions, all.Values
    {
      State(map d | d in sessions.store :: sessions.store[d].c, sessionNum, map c | c in all :: all[c].conn)
    }

    /** One connection moves on; the map and the count stay. */
    method Move(session: Session, x: Conn)
      requires Valid() && Has(session)
      modifies session`conn
      ensures Valid() && Abs() == Put(old(Abs()), session.c, x)
    {
      session.conn := x;
      assert Abs().conns == Put(old(Abs()), session.c, x).conns;
    }

    // ----- the atomic steps -----

    method Leave(session: Session)
      requires Valid() && Has(session) && Enabled(Abs(), Action.Exit(session.c))
      modifies session`conn
      ensures Valid() && Abs() == Apply(old(Abs()), Action.Exit(session.c))
    {
      Move(session, session.conn.(serve := Leaving));
    }

    method Remove(session: Session)
      requires Valid() && Has(session) && Enabled(Abs(), DelEntry(session.c))
      modifies sessions, session`conn
      ensures Valid() && Abs() == Apply(old(Abs()), DelEntry(session.c))
    {
      ghost var s := Abs();
      sessions.Del(session.conn.device);
      assert Abs() == s.(sessions := s.sessions - {session.conn.device});
      Move(session, session.conn.(serve := Deleted));
    }

    method Discount(session: Session)
      requires Valid() && Has(session) && Enabled(Abs(), Decrement(session.c))
      modifies this`sessionNum, session`conn
      ensures Valid() && Abs() == Apply(old(Abs()), Decrement(session.c))
    {
      ghost var s := Abs();
      sessionNum := sessionNum - 1;
      assert Abs() == s.(num := s.num - 1);
      Move(session, session.conn.(serve := Subtracted));
    }

    method Signal(session: Session)
      requires Valid() && Has(session) && Enabled(Abs(), SignalDone(session.c))
      modifies session`conn
      ensures Valid() && Abs() == Apply(old(Abs()), SignalDone(session.c))
    {
      Move(session, session.conn.(serve := Finished, done := session.conn.done + 1));
    }

    method Stop(session: Session, prev: Session)
      requires Valid() && Has(session) && Has(prev)
      requires Enabled(Abs(), Cancel(session.c)) && Abs().conns[session.c].reader.prev == prev.c
      modifies session`conn, prev`conn
      ensures Valid() && Abs() == Apply(old(Abs()), Cancel(session.c))
    {
      Move(prev, prev.conn.(cancelled := true));
      Move(session, session.conn.(reader := Awaiting(prev.c)));
    }

    method Await(session: Session, prev: Session)
      requires Valid() && Has(session) && Has(prev)
      requires Enabled(Abs(), AwaitDone(session.c)) && Abs().conns[session.c].reader.prev == prev.c
      modifies session`conn, prev`conn
      ensures Valid() && Abs() == Apply(old(Abs()), AwaitDone(session.c))
    {
      Move(prev, prev.conn.(done := prev.conn.done - 1));
      Move(session, session.conn.(reader := Clear));
    }

    method Find(deviceID: string, session: Session) returns (r: Option<Session>)
      requires Valid() && Has(session) && Enabled(Abs(), Lookup(session.c))
      requires Abs().conns[session.c].device == deviceID
      modifies session`conn
      ensures Valid() && Abs() == Apply(old(Abs()), Lookup(session.c))
      ensures r.Some? <==> deviceID in old(Abs()).sessions
      ensures r.Some? ==> Has(r.value) && r.value.c == old(Abs()).sessions[deviceID]
      ensures r.Some? ==> deviceID in sessions.store && r.value == sessions.store[deviceID]
    {
      r := sessions.Get(deviceID);
      Move(session, session.conn.(reader := if r.Some? then Found(r.value.c) else Clear));
    }

    method Add(session: Session)
      requires Valid() && Has(session) && Enabled(Abs(), Increment(session.c))
      modifies this`sessionNum, session`conn
      ensures Valid() && Abs() == Apply(old(Abs()), Increment(session.c))
    {
      ghost var s := Abs();
      sessionNum := sessionNum + 1;
      assert Abs() == s.(num := s.num + 1);
      Move(session, session.conn.(reader := Counted));
    }

    method Register(deviceID: string, session: Session)
      requires Valid() && Has(session) && Enabled(Abs(), SetEntry(session.c))
      requires Abs().conns[session.c].device == deviceID
      modifies sessions, session`conn
      ensures Valid() && Abs() == Apply(old(Abs()), SetEntry(session.c))
    {
      ghost var s := Abs();
      sessions.Set(deviceID, session);
      assert Abs() == s.(sessions := s.sessions[deviceID := session.c]);
      Move(session, session.conn.(reader := Registered));
    }

    // ----- the operations -----

    /** Called by the `serve` of a verified session on its way out. */
    method DelSession(session: Session)
      requires Valid() && Has(session) && Enabled(Abs(), DelEntry(session.c))
      modifies this`sessionNum, sessions, session`conn
      ensures Valid() && Runs(old(Abs()), [DelEntry(session.c), Decrement(session.c)])
      ensures Abs() == Final(old(Abs()), [DelEntry(session.c), Decrement(session.c)])
    {
      hide Apply, Enabled;
      ghost var s, c := Abs(), session.c;
      DelRuns(s, c);
      Remove(session);
      Discount(session);
    }

    /** The next step of the exit of a verified session's `serve`, if it has not finished. */
    method Advance(session: Session)
      requires Valid() && Has(session) && Passed(session.conn)
      modifies this`sessionNum, sessions, session`conn
      ensures Valid() && Passed(session.conn) && session.conn.serve == After(old(session.conn.serve))
      ensures Exited(Abs(), session.c) == Exited(old(Abs()), session.c)
    {
      hide Exited;
      ghost var s, c := Abs(), session.c;
      if !session.conn.serve.Finished? { ExitStep(s, c); }
      match session.conn.serve {
        case Running => Leave(session);
        case Leaving => Remove(session);
        case Deleted => Discount(session);
        case Subtracted => Signal(session);
        case Finished =>
      }
      assert session.conn == Abs().conns[c];
    }

    /** The exit of the `serve` of a verified session, from wherever it is to its signal. */
    method ServeExit(session: Session)
      requires Valid() && Has(session) && session.c in Abs().conns && Passed(Abs().conns[session.c])
      modifies this`sessionNum, sessions, session`conn
      ensures Valid()
      ensures var run := ExitRun(session.c, old(Abs()).conns[session.c].serve);
        Runs(old(Abs()), run) && Abs() == Final(old(Abs()), run) == Exited(old(Abs()), session.c)
    {
      hide Apply, Runs, Final, Exited;
      ghost var s, c := Abs(), session.c;
      ExitRuns(s, c);
      assert session.conn == s.conns[c];
      Advance(session);
      Advance(session);
      Advance(session);
      Advance(session);
      ExitedAlready(Abs(), c);
    }

    /** Registers a session; a session that is registered for the device is cancelled and waited for, and its
        `serve` exits meanwhile. */
    method AddSession(deviceID: string, session: Session)
      requires Valid() && Has(session) && Enabled(Abs(), Lookup(session.c))
      requires Abs().conns[session.c].device == deviceID && CanGo(Abs(), deviceID)
      modifies this`sessionNum, sessions, session`conn,
        if deviceID in sessions.store then {sessions.store[deviceID]} else {}
      ensures Valid()
      ensures Runs(old(Abs()), AddRun(old(Abs()), session.c))
        && Abs() == Final(old(Abs()), AddRun(old(Abs()), session.c))
    {
      hide Apply, Enabled, Runs, Final, Abs;
      ghost var s, c := Abs(), session.c;
      AddRuns(s, c);
      var invalid := Find(deviceID, session);
      if invalid.Some? {
        Stop(session, invalid.value);
        ServeExit(invalid.value);
        Await(session, invalid.value);
      }
      Add(session);
      Register(deviceID, session);
    }
  }

  lemma OneStep(s: State, a: Action)
    requires Enabled(s, a)
    ensures Runs(s, [a]) && Final(s, [a]) == Apply(s, a)
  {
    assert [a][1..] == [];
  }

  lemma DelRuns(s: State, c: nat)
    requires Enabled(s, DelEntry(c))
    ensures var s1 := Apply(s, DelEntry(c));
      && Enabled(s1, Decrement(c))
      && Runs(s, [DelEntry(c), Decrement(c)]) && Final(s, [DelEntry(c), Decrement(c)]) == Apply(s1, Decrement(c))
  {
    hide Runs, Final;
    assert Enabled(Apply(s, DelEntry(c)), Decrement(c));
    OneStep(s, DelEntry(c));
    OneStep(Apply(s, DelEntry(c)), Decrement(c));
    Chain(s, [DelEntry(c)], [Decrement(c)]);
    assert [DelEntry(c)] + [Decrement(c)] == [DelEntry(c), Decrement(c)];
  }

  /** What the exit of a verified session does: its entry is gone and discounted, and it has signalled. */
  function Exited(s: State, c: nat): State
    requires c in s.conns
  {
    var x := s.conns[c];
    Put(s, c, x.(serve := Finished, done := x.done + Bit(!x.serve.Finished?)))
      .(sessions := if Serves(x.serve) then s.sessions - {x.device} else s.sessions,
        num := s.num - Bit(Counts(x.serve)))
  }

  /** The exit has not removed the entry yet. */
  predicate Serves(e: Serve) {
    e.Running? || e.Leaving?
  }

  /** The exit has not discounted the session yet. */
  predicate Counts(e: Serve) {
    e.Running? || e.Leaving? || e.Deleted?
  }

  lemma ExitedAlready(s: State, c: nat)
    requires c in s.conns && s.conns[c].serve.Finished?
    ensures Exited(s, c) == s
  {
    assert Exited(s, c).conns == s.conns;
  }

  /** The next step of an exit leaves the rest of it to do. */
  lemma ExitStep(s: State, c: nat)
    requires c in s.conns && Passed(s.conns[c]) && !s.conns[c].serve.Finished?
    ensures var a := ExitRun(c, s.conns[c].serve)[0];
      && Enabled(s, a) && c in Apply(s, a).conns && Passed(Apply(s, a).conns[c])
      && ExitRun(c, s.conns[c].serve)[1..] == ExitRun(c, Apply(s, a).conns[c].serve)
      && Exited(Apply(s, a), c) == Exited(s, c)
  {
    var a := ExitRun(c, s.conns[c].serve)[0];
    assert Exited(Apply(s, a), c).conns == Exited(s, c).conns;
  }

  lemma {:induction false} ExitRuns(s: State, c: nat)
    requires c in s.conns && Passed(s.conns[c])
    ensures Runs(s, ExitRun(c, s.conns[c].serve)) && Final(s, ExitRun(c, s.conns[c].serve)) == Exited(s, c)
    decreases |ExitRun(c, s.conns[c].serve)|
  {
    hide Enabled, Apply, Exited;
    if s.conns[c].serve.Finished? {
      ExitedAlready(s, c);
    } else {
      ExitStep(s, c);
      ExitRuns(Apply(s, ExitRun(c, s.conns[c].serve)[0]), c);
    }
  }

  lemma {:induction false} Chain(s: State, xs: seq<Action>, ys: seq<Action>)
    requires Runs(s, xs) && Runs(Final(s, xs), ys)
    ensures Runs(s, xs + ys) && Final(s, xs + ys) == Final(Final(s, xs), ys)
    decreases |xs|
  {
    if xs == [] {
      assert xs + ys == ys;
    } else {
      assert (xs + ys)[1..] == xs[1..] + ys;
      Chain(Apply(s, xs[0]), xs[1..], ys);
    }
  }

  /** After the wait for the session that was found: it was cancelled, it has exited, and its token is taken. */
  function Waited(s: State, c: nat, p: nat): State
    requires Enabled(s, Cancel(c)) && s.conns[c].reader.prev == p
    requires p in Apply(s, Cancel(c)).conns && Enabled(Exited(Apply(s, Cancel(c)), p), AwaitDone(c))
  {
    Apply(Exited(Apply(s, Cancel(c)), p), AwaitDone(c))
  }

  lemma WaitSteps(s: State, c: nat, p: nat)
    requires Enabled(s, Cancel(c)) && s.conns[c].reader.prev == p
    requires Passed(s.conns[p]) && !Dead(s, p)
    ensures var s2 := Apply(s, Cancel(c));
      && p in s2.conns && Passed(s2.conns[p]) && s2.conns[p].serve == s.conns[p].serve
      && Enabled(Exited(s2, p), AwaitDone(c)) && Exited(s2, p).conns[c].reader.prev == p
  {
  }

  lemma WaitRuns(s: State, c: nat, p: nat)
    requires Enabled(s, Cancel(c)) && s.conns[c].reader.prev == p
    requires Passed(s.conns[p]) && !Dead(s, p)
    ensures p in Apply(s, Cancel(c)).conns && Enabled(Exited(Apply(s, Cancel(c)), p), AwaitDone(c))
    ensures var acts := [Cancel(c)] + ExitRun(p, s.conns[p].serve) + [AwaitDone(c)];
      Runs(s, acts) && Final(s, acts) == Waited(s, c, p)
  {
    var rest := ExitRun(p, s.conns[p].serve);
    hide Enabled, Apply, Runs, Final, Exited;
    WaitSteps(s, c, p);
    OneStep(s, Cancel(c));
    ExitRuns(Apply(s, Cancel(c)), p);
    Chain(s, [Cancel(c)], rest);
    OneStep(Exited(Apply(s, Cancel(c)), p), AwaitDone(c));
    Chain(s, [Cancel(c)] + rest, [AwaitDone(c)]);
  }

  lemma TailSteps(s: State, c: nat)
    requires Enabled(s, Increment(c))
    ensures Enabled(Apply(s, Increment(c)), SetEntry(c))
    ensures Apply(s, Increment(c)).conns[c].device == s.conns[c].device
  {
  }

  lemma TailRuns(s: State, c: nat)
    requires Enabled(s, Increment(c))
    ensures Enabled(Apply(s, Increment(c)), SetEntry(c))
    ensures var acts := [Increment(c), SetEntry(c)];
      Runs(s, acts) && Final(s, acts) == Apply(Apply(s, Increment(c)), SetEntry(c))
  {
    hide Enabled, Apply, Runs, Final;
    TailSteps(s, c);
    OneStep(s, Increment(c));
    OneStep(Apply(s, Increment(c)), SetEntry(c));
    Chain(s, [Increment(c)], [SetEntry(c)]);
    assert [Increment(c)] + [SetEntry(c)] == [Increment(c), SetEntry(c)];
  }

  /** What a lookup finds, and that the wait or the registration can follow. */
  lemma FindSteps(s: State, c: nat)
    requires Enabled(s, Lookup(c)) && CanGo(s, s.conns[c].device)
    ensures var s1 := Apply(s, Lookup(c)); var d := s.conns[c].device;
      && s1.conns[c].device == d && s1.sessions == s.sessions && s1.num == s.num
      && (d !in s.sessions ==> Enabled(s1, Increment(c)))
      && (d in s.sessions ==>
            var p := s.sessions[d];
            && Enabled(s1, Cancel(c)) && s1.conns[c].reader.prev == p
            && Passed(s1.conns[p]) && !Dead(s1, p)
            && s1.conns[p].serve == s.conns[p].serve && s1.conns[p].device == s.conns[p].device)
  {
  }

  lemma WaitClears(s: State, c: nat, p: nat)
    requires Enabled(s, Cancel(c)) && s.conns[c].reader.prev == p
    requires p in Apply(s, Cancel(c)).conns && Enabled(Exited(Apply(s, Cancel(c)), p), AwaitDone(c))
    ensures var s' := Waited(s, c, p);
      && Enabled(s', Increment(c)) && s'.conns[c].device == s.conns[c].device
      && s'.sessions == (if Serves(s.conns[p].serve) then s.sessions - {s.conns[p].device} else s.sessions)
      && s'.num == s.num - Bit(Counts(s.conns[p].serve))
      && p in s'.conns && s'.conns[p].serve.Finished? && s'.conns[p].cancelled
  {
  }

  /** The state in which connection c adds itself. */
  function Ready(s: State, c: nat): State
    requires Enabled(s, Lookup(c)) && CanGo(s, s.conns[c].device)
  {
    var s1 := Apply(s, Lookup(c));
    var d := s.conns[c].device;
    FindSteps(s, c);
    if d in s.sessions then
      WaitSteps(s1, c, s.sessions[d]);
      Waited(s1, c, s.sessions[d])
    else s1
  }

  /** Every step of `AddSession` is enabled when its turn comes. */
  lemma AddRuns(s: State, c: nat)
    requires Enabled(s, Lookup(c)) && CanGo(s, s.conns[c].device)
    ensures var s1 := Apply(s, Lookup(c)); var d := s.conns[c].device;
      d in s.sessions ==>
        var p := s.sessions[d];
        && Enabled(s1, Cancel(c)) && s1.conns[c].reader.prev == p
        && p in Apply(s1, Cancel(c)).conns && Passed(Apply(s1, Cancel(c)).conns[p])
        && Enabled(Exited(Apply(s1, Cancel(c)), p), AwaitDone(c))
        && Exited(Apply(s1, Cancel(c)), p).conns[c].reader.prev == p
    ensures Enabled(Ready(s, c), Increment(c)) && Enabled(Apply(Ready(s, c), Increment(c)), SetEntry(c))
    ensures Apply(Ready(s, c), Increment(c)).conns[c].device == s.conns[c].device
    ensures Runs(s, AddRun(s, c)) && Final(s, AddRun(s, c)) == Apply(Apply(Ready(s, c), Increment(c)), SetEntry(c))
  {
    var s1, d := Apply(s, Lookup(c)), s.conns[c].device;
    var e := if d in s.sessions then s.conns[s.sessions[d]].serve else Finished;
    hide Enabled, Apply, Runs, Final, Exited, Waited, ExitRun, Dead;
    FindSteps(s, c);
    OneStep(s, Lookup(c));
    var acts := [Lookup(c)];
    if d in s.sessions {
      var p := s.sessions[d];
      var wait := [Cancel(c)] + ExitRun(p, e) + [AwaitDone(c)];
      WaitSteps(s1, c, p);
      WaitRuns(s1, c, p);
      WaitClears(s1, c, p);
      Chain(s, acts, wait);
      acts := acts + wait;
    } else {
      assert acts == [Lookup(c)] + [];
    }
    TailSteps(Ready(s, c), c);
    TailRuns(Ready(s, c), c);
    Chain(s, acts, [Increment(c), SetEntry(c)]);
    assert AddRun(s, c) == acts + [Increment(c), SetEntry(c)];
  }

  lemma TailEffect(s: State, c: nat)
    requires Enabled(s, Increment(c)) && Enabled(Apply(s, Increment(c)), SetEntry(c))
    ensures var s' := Apply(Apply(s, Increment(c)), SetEntry(c));
      && s'.sessions == s.sessions[s.conns[c].device := c] && s'.num == s.num + 1
      && c in s'.conns && s'.conns[c].reader.Registered?
      && forall p :: p in s.conns ==>
           p in s'.conns && s'.conns[p].serve == s.conns[p].serve && s'.conns[p].cancelled == s.conns[p].cancelled
  {
  }

  /** What `AddSession` amounts to: a session that was replaced has been cancelled and has finished, it has removed
      the entry of its device and discounted itself unless it had done so before, and the map has gained exactly
      this entry. */
  lemma AddSessionReplaces(s: State, c: nat)
    requires Enabled(s, Lookup(c)) && CanGo(s, s.conns[c].device)
    ensures Runs(s, AddRun(s, c))
    ensures var s', d := Final(s, AddRun(s, c)), s.conns[c].device;
      && c in s'.conns && s'.conns[c].reader.Registered?
      && (d !in s.sessions ==> s'.sessions == s.sessions[d := c] && s'.num == s.num + 1)
      && (d in s.sessions ==>
            var p := s.sessions[d]; var x := s.conns[p];
            && p in s'.conns && s'.conns[p].serve.Finished? && s'.conns[p].cancelled
            && s'.sessions == (if Serves(x.serve) then s.sessions - {x.device} else s.sessions)[d := c]
            && s'.num == s.num + 1 - Bit(Counts(x.serve)))
  {
    var s1, d := Apply(s, Lookup(c)), s.conns[c].device;
    hide Enabled, Apply, Runs, Final, Exited, Waited, ExitRun, AddRun, Dead;
    AddRuns(s, c);
    FindSteps(s, c);
    if d in s.sessions { WaitClears(s1, c, s.sessions[d]); }
    TailEffect(Ready(s, c), c);
  }

  /** While the map is right this means: exactly the entry of the device changes, and the count stays as far from
      the size of the map as it was. */
  lemma AddSessionKeepsCount(s: State, c: nat)
    requires MapOk(s) && Enabled(s, Lookup(c))
    ensures CanGo(s, s.conns[c].device) && Runs(s, AddRun(s, c))
    ensures var s', d := Final(s, AddRun(s, c)), s.conns[c].device;
      s'.sessions == s.sessions[d := c] && s'.num - |s'.sessions| == s.num - |s.sessions|
  {
    hide AddRun, Runs, Final, Apply;
    var d := s.conns[c].device;
    AddSessionReplaces(s, c);
    assert (s.sessions - {d})[d := c] == s.sessions[d := c];
    assert d in s.sessions ==> s.sessions == (s.sessions - {d})[d := s.sessions[d]];
  }

  /** Registered sessions have been verified. */
  ghost predicate EntriesPassed(s: State) {
    forall d :: d in s.sessions ==> s.sessions[d] in s.conns && Passed(s.conns[s.sessions[d]])
  }

  lemma StepEntriesPassed(s: State, a: Action)
    requires EntriesPassed(s) && Enabled(s, a)
    ensures EntriesPassed(Apply(s, a))
  {
  }

  lemma {:induction false} RunEntriesPassed(s: State, acts: seq<Action>)
    requires EntriesPassed(s) && Runs(s, acts)
    ensures EntriesPassed(Final(s, acts))
    decreases |acts|
  {
    hide EntriesPassed;
    if acts != [] {
      StepEntriesPassed(s, acts[0]);
      RunEntriesPassed(Apply(s, acts[0]), acts[1..]);
    }
  }

  /** In every run a registered session has been verified, so a login can go on unless the session it finds is
      dead, and then it waits for ever. */
  lemma CanGoUnlessDead(acts: seq<Action>, d: string)
    requires Runs(INIT, acts)
    ensures var s := Final(INIT, acts); CanGo(s, d) <==> (d in s.sessions ==> !Dead(s, s.sessions[d]))
  {
    RunEntriesPassed(INIT, acts);
  }
}
