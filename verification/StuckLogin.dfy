/** A `serve` that is stuck on its own error channel, together with the session map: the session can leave the map
    only once its `serve` runs its deferred calls.  (internal/deviceaccess/access_server/devicetcp/session.go) */
module StuckLogin {
  import opened SessionRegistry
  import Exit = ServerExit

  /** The map with all its connections, and the inside of the `serve` of one of them. */
  datatype Joint = Joint(reg: State, exit: Exit.State)

  datatype Act = Registry(a: Action) | Inside(x: Exit.Action)

  /** The deferred calls of connection c start after its `serve` has left its loop. */
  predicate Can(j: Joint, c: nat, act: Act) {
    match act
    case Registry(a) => Enabled(j.reg, a) && (a == Action.Exit(c) ==> j.exit.serve.SentOwn? || j.exit.serve.Released?)
    case Inside(x) => Exit.Enabled(j.exit, x)
  }

  /** Cancelling connection c cancels the context that its `serve` and its workers watch. */
  function Step(j: Joint, c: nat, act: Act): Joint
    requires Can(j, c, act)
  {
    match act
    case Registry(a) =>
      var cancels := a.Cancel? && j.reg.conns[a.c].reader.prev == c;
      Joint(Apply(j.reg, a), if cancels then Exit.Apply(j.exit, Exit.CancelContext) else j.exit)
    case Inside(x) => j.(exit := Exit.Apply(j.exit, x))
  }

  /** A login that cancels connection c is what its `serve` can see; no other step on the map touches it. */
  lemma CancelIsSeen(j: Joint, c: nat, a: Action)
    requires Can(j, c, Registry(a))
    ensures var e := Step(j, c, Registry(a)).exit;
      e == if a.Cancel? && j.reg.conns[a.c].reader == Found(c) then j.exit.(cancelled := true) else j.exit
  {
  }

  predicate JointRun(j: Joint, c: nat, acts: seq<Act>)
    decreases |acts|
  {
    acts == [] || (Can(j, c, acts[0]) && JointRun(Step(j, c, acts[0]), c, acts[1..]))
  }

  function JointFinal(j: Joint, c: nat, acts: seq<Act>): Joint
    requires JointRun(j, c, acts)
    decreases |acts|
  {
    if acts == [] then j else JointFinal(Step(j, c, acts[0]), c, acts[1..])
  }

  /** The steps on the map meet the guard under which replacement is safe. */
  predicate JointGuarded(j: Joint, c: nat, acts: seq<Act>)
    requires JointRun(j, c, acts)
    decreases |acts|
  {
    acts == []
    || ((acts[0].Registry? ==> Guard(j.reg, acts[0].a)) && JointGuarded(Step(j, c, acts[0]), c, acts[1..]))
  }

  /** Connection c has not begun to exit and never will. */
  predicate Hangs(j: Joint, c: nat) {
    Exit.Stuck(j.exit) && c in j.reg.conns && j.reg.conns[c].serve.Running? && j.reg.conns[c].done == 0
  }

  lemma StepHangs(j: Joint, c: nat, act: Act)
    requires Hangs(j, c) && Can(j, c, act)
    ensures Hangs(Step(j, c, act), c)
  {
  }

  lemma StepAwaits(j: Joint, c: nat, act: Act, b: nat)
    requires Hangs(j, c) && Can(j, c, act)
    requires b in j.reg.conns && j.reg.conns[b].reader == Awaiting(c)
    ensures b in Step(j, c, act).reg.conns && Step(j, c, act).reg.conns[b].reader == Awaiting(c)
  {
  }

  /** Whatever any goroutine does, cancellation included, a login that waits for a hanging session waits for ever. */
  lemma {:induction false} LoginWaitsForever(j: Joint, c: nat, acts: seq<Act>, b: nat)
    requires Hangs(j, c) && JointRun(j, c, acts)
    requires b in j.reg.conns && j.reg.conns[b].reader == Awaiting(c)
    ensures var r := JointFinal(j, c, acts).reg;
      b in r.conns && r.conns[b].reader == Awaiting(c) && !Enabled(r, AwaitDone(b))
    decreases |acts|
  {
    if acts != [] {
      StepHangs(j, c, acts[0]);
      StepAwaits(j, c, acts[0], b);
      LoginWaitsForever(Step(j, c, acts[0]), c, acts[1..], b);
    }
  }

  lemma StepKeepsEntry(j: Joint, c: nat, act: Act)
    requires Hangs(j, c) && Can(j, c, act) && MapOk(j.reg) && j.reg.conns[c].reader.Registered?
    requires act.Registry? ==> Guard(j.reg, act.a)
    ensures var j' := Step(j, c, act);
      c in j'.reg.conns && j'.reg.conns[c].reader.Registered? && j'.reg.conns[c].device == j.reg.conns[c].device
      && MapOk(j'.reg)
  {
    hide MapOk;
    if act.Registry? { GuardSuffices(j.reg, act.a); }
  }

  /** In every guarded run a registered session whose `serve` hangs stays in the map, so every later login of its
      device finds it, and waits. */
  lemma {:induction false} HangingSessionStaysRegistered(j: Joint, c: nat, acts: seq<Act>)
    requires Hangs(j, c) && MapOk(j.reg) && j.reg.conns[c].reader.Registered?
    requires JointRun(j, c, acts) && JointGuarded(j, c, acts)
    ensures var r := JointFinal(j, c, acts).reg; var d := j.reg.conns[c].device;
      && d in r.sessions && r.sessions[d] == c
      && forall b :: Enabled(r, Lookup(b)) && r.conns[b].device == d ==> Apply(r, Lookup(b)).conns[b].reader == Found(c)
    decreases |acts|
  {
    if acts != [] {
      StepHangs(j, c, acts[0]);
      StepKeepsEntry(j, c, acts[0]);
      HangingSessionStaysRegistered(Step(j, c, acts[0]), c, acts[1..]);
    } else {
      assert Current(j.reg.conns[c]);
    }
  }

  // ----- a run to such a login -----

  const START := Joint(INIT, Exit.INIT)

  ghost predicate Led(acts: seq<Act>, j: Joint) {
    JointRun(START, 1, acts) && JointGuarded(START, 1, acts) && JointFinal(START, 1, acts) == j
  }

  ghost predicate JointReached(j: Joint) {
    exists acts :: Led(acts, j)
  }

  lemma {:induction false} RunThenStep(j: Joint, c: nat, acts: seq<Act>, act: Act)
    requires JointRun(j, c, acts) && JointGuarded(j, c, acts) && Can(JointFinal(j, c, acts), c, act)
    requires act.Registry? ==> Guard(JointFinal(j, c, acts).reg, act.a)
    ensures JointRun(j, c, acts + [act]) && JointGuarded(j, c, acts + [act])
    ensures JointFinal(j, c, acts + [act]) == Step(JointFinal(j, c, acts), c, act)
    decreases |acts|
  {
    hide Can, Step, Guard;
    if acts == [] {
      assert acts + [act] == [act] && [act][1..] == [];
    } else {
      RunThenStep(Step(j, c, acts[0]), c, acts[1..], act);
      assert (acts + [act])[1..] == acts[1..] + [act];
    }
  }

  lemma OnMap(j: Joint, a: Action, reg: State)
    requires JointReached(j) && Enabled(j.reg, a) && Guard(j.reg, a) && !a.Exit? && !a.Cancel?
    requires Apply(j.reg, a).conns == reg.conns && Apply(j.reg, a).sessions == reg.sessions
    requires Apply(j.reg, a).num == reg.num
    ensures JointReached(j.(reg := reg))
  {
    var acts :| Led(acts, j);
    RunThenStep(START, 1, acts, Registry(a));
    assert Led(acts + [Registry(a)], j.(reg := reg));
  }

  lemma OnInside(j: Joint, x: Exit.Action)
    requires JointReached(j) && Exit.Enabled(j.exit, x)
    ensures JointReached(j.(exit := Exit.Apply(j.exit, x)))
  {
    var acts :| Led(acts, j);
    RunThenStep(START, 1, acts, Inside(x));
    assert Led(acts + [Inside(x)], j.(exit := Exit.Apply(j.exit, x)));
  }

  /** Connection 1 of device "d", and connection 2 of the same device. */
  function Both(r1: Reader, cancelled: bool, r2: Reader, sessions: map<string, nat>, num: int): State {
    State(sessions, num,
          map[1 := Conn(if r1.Fresh? then "" else "d", r1, Running, cancelled, 0),
              2 := Conn(if r2.Fresh? then "" else "d", r2, Running, false, 0)])
  }

  lemma BothAccepted()
    ensures JointReached(Joint(Both(Fresh, false, Fresh, map[], 0), Exit.INIT))
  {
    hide JointReached;
    StartReached();
    var s1 := State(map[], 0, map[1 := Conn("", Fresh, Running, false, 0)]);
    OnMap(START, Accept(1), s1);
    OnMap(Joint(s1, Exit.INIT), Accept(2), Both(Fresh, false, Fresh, map[], 0));
  }

  lemma StartReached()
    ensures JointReached(START)
  {
    assert Led([], START);
  }

  lemma OneRegistered()
    ensures JointReached(Joint(Both(Registered, false, Fresh, map["d" := 1], 1), Exit.INIT))
  {
    hide JointReached;
    BothAccepted();
    var e := Exit.INIT;
    OnMap(Joint(Both(Fresh, false, Fresh, map[], 0), e), Verify(1, "d"), Both(Verified, false, Fresh, map[], 0));
    OnMap(Joint(Both(Verified, false, Fresh, map[], 0), e), Lookup(1), Both(Clear, false, Fresh, map[], 0));
    OnMap(Joint(Both(Clear, false, Fresh, map[], 0), e), Increment(1), Both(Counted, false, Fresh, map[], 1));
    OnMap(Joint(Both(Counted, false, Fresh, map[], 1), e), SetEntry(1),
          Both(Registered, false, Fresh, map["d" := 1], 1));
  }

  const FULL := Exit.State(Exit.Reported, Exit.Reported, Exit.Sending, 2, false)

  /** Its connection fails in both directions just as its heartbeat timer fires. */
  lemma OneHangs()
    ensures JointReached(Joint(Both(Registered, false, Fresh, map["d" := 1], 1), FULL))
  {
    hide JointReached;
    OneRegistered();
    var j := Joint(Both(Registered, false, Fresh, map["d" := 1], 1), Exit.INIT);
    OnInside(j, Exit.ReaderFails);
    var e1 := Exit.Apply(Exit.INIT, Exit.ReaderFails);
    OnInside(j.(exit := e1), Exit.ReaderReports);
    var e2 := Exit.Apply(e1, Exit.ReaderReports);
    OnInside(j.(exit := e2), Exit.WriterFails);
    var e3 := Exit.Apply(e2, Exit.WriterFails);
    OnInside(j.(exit := e3), Exit.WriterReports);
    var e4 := Exit.Apply(e3, Exit.WriterReports);
    OnInside(j.(exit := e4), Exit.TimerFires);
    assert Exit.Apply(e4, Exit.TimerFires) == FULL;
  }

  lemma TwoFinds()
    ensures JointReached(Joint(Both(Registered, false, Found(1), map["d" := 1], 1), FULL))
  {
    hide JointReached;
    OneHangs();
    var m := map["d" := 1];
    OnMap(Joint(Both(Registered, false, Fresh, m, 1), FULL), Verify(2, "d"), Both(Registered, false, Verified, m, 1));
    OnMap(Joint(Both(Registered, false, Verified, m, 1), FULL), Lookup(2), Both(Registered, false, Found(1), m, 1));
  }

  /** A guarded run leads to a registered session that hangs and a login that waits for it. */
  lemma LoginHangs()
    ensures exists j :: JointReached(j) && Hangs(j, 1) && j.reg.conns[1].reader.Registered?
                        && 2 in j.reg.conns && j.reg.conns[2].reader == Awaiting(1)
  {
    TwoFinds();
    var j := Joint(Both(Registered, false, Found(1), map["d" := 1], 1), FULL);
    var acts :| Led(acts, j);
    RunThenStep(START, 1, acts, Registry(Cancel(2)));
    var j' := Step(j, 1, Registry(Cancel(2)));
    assert Led(acts + [Registry(Cancel(2))], j');
    assert JointReached(j') && Hangs(j', 1) && j'.reg.conns[2].reader == Awaiting(1);
  }
}
