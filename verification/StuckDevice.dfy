/** A device whose `serve` is stuck on its outgoing queue, within the life cycle of reconnects: it holds the only
    token, so the device never connects again.
    (internal/deviceaccess/access_client/devicesession/devicesession.go) */
module StuckDevice {
  import opened Types
  import Life = Reconnect
  import Queue = DeviceQueue
  import Counting

  /** The life cycle of the device, and the queue of its first connection. */
  datatype Joint = Joint(life: Life.State, queue: Queue.State)

  datatype Act = Cycle(a: Life.Action) | Inside(x: Queue.Action)

  /** The steps of the life cycle that are steps of the first connection's `serve` and writer. */
  function Echo(a: Life.Action): Option<Queue.Action> {
    match a
    case VerifyQueued(i) => if i == 0 then Some(Queue.ServeSends) else None
    case VerifyFails(i) => if i == 0 then Some(Queue.EncodeFails) else None
    case WriterFails(i) => if i == 0 then Some(Queue.WriteFails) else None
    case TakeError(i) => if i == 0 then Some(Queue.Leave) else None
    case StopServing(i) => if i == 0 then Some(Queue.Leave) else None
    case CancelContext => Some(Queue.Cancel)
    case _ => None
  }

  /** The first send of `serve` is the one of its verification. */
  predicate FirstSend(q: Queue.State, x: Queue.Action) {
    x.ServeSends? && q.serve == Queue.Sending(1)
  }

  predicate Can(j: Joint, act: Act) {
    match act
    case Cycle(a) =>
      && Life.Enabled(j.life, a)
      && (Echo(a).Some? ==> Queue.Enabled(j.queue, Echo(a).value))
      && (a == Life.VerifyQueued(0) ==> FirstSend(j.queue, Queue.ServeSends))
    case Inside(x) =>
      && Queue.Enabled(j.queue, x) && !FirstSend(j.queue, x)
      && !x.EncodeFails? && !x.WriteFails? && !x.Leave? && !x.Cancel?
  }

  function Step(j: Joint, act: Act): Joint
    requires Can(j, act)
  {
    match act
    case Cycle(a) =>
      Joint(Life.Apply(j.life, a), if Echo(a).Some? then Queue.Apply(j.queue, Echo(a).value) else j.queue)
    case Inside(x) => j.(queue := Queue.Apply(j.queue, x))
  }

  /** The life cycle and the queue agree on where the first connection's `serve` is. */
  predicate Agree(j: Joint) {
    0 in j.life.serves
    && match j.life.serves[0].phase
       case Verifying => j.queue.serve == Queue.Encoding || j.queue.serve == Queue.Sending(1)
       case Selecting => j.queue.serve == Queue.Sending(0) || j.queue.serve == Queue.Selecting
       case Handing => j.queue.serve == Queue.Left
       case Ended => j.queue.serve == Queue.Left
  }

  lemma CycleAgrees(j: Joint, a: Life.Action)
    requires Agree(j) && Can(j, Cycle(a))
    ensures Agree(Step(j, Cycle(a)))
  {
    hide Queue.Runs, Queue.Final;
    if Echo(a).None? { assert Step(j, Cycle(a)).queue == j.queue; }
  }

  lemma InsideAgrees(j: Joint, x: Queue.Action)
    requires Agree(j) && Can(j, Inside(x))
    ensures Agree(Step(j, Inside(x)))
  {
    hide Life.Enabled, Life.Apply;
  }

  lemma StepAgrees(j: Joint, act: Act)
    requires Agree(j) && Can(j, act)
    ensures Agree(Step(j, act))
  {
    hide Agree, Can, Step;
    match act
    case Cycle(a) => CycleAgrees(j, a);
    case Inside(x) => InsideAgrees(j, x);
  }

  /** In every run they agree. */
  lemma {:induction false} AgreeThroughout(j: Joint, acts: seq<Act>)
    requires Agree(j) && Runs(j, acts)
    ensures Agree(Final(j, acts))
    decreases |acts|
  {
    hide Agree, Can, Step;
    if acts != [] {
      StepAgrees(j, acts[0]);
      AgreeThroughout(Step(j, acts[0]), acts[1..]);
    }
  }

  predicate Runs(j: Joint, acts: seq<Act>)
    decreases |acts|
  {
    acts == [] || (Can(j, acts[0]) && Runs(Step(j, acts[0]), acts[1..]))
  }

  function Final(j: Joint, acts: seq<Act>): Joint
    requires Runs(j, acts)
    decreases |acts|
  {
    if acts == [] then j else Final(Step(j, acts[0]), acts[1..])
  }

  /** The first connection's `serve` is stuck and holds the token. */
  ghost predicate Hangs(j: Joint) {
    && Queue.Stuck(j.queue) && Life.Inv(j.life)
    && 0 in j.life.serves && (j.life.serves[0].phase.Verifying? || j.life.serves[0].phase.Selecting?)
  }

  /** No error waits, no reconnect is pending or running, and every other serve loop has ended. */
  lemma TokenIsHeld(s: Life.State)
    requires Life.Inv(s) && 0 in s.serves && !s.serves[0].phase.Ended?
    ensures s.errChan == s.pending == s.dialing == s.failing == 0
    ensures forall i :: i in s.serves && i != 0 ==> s.serves[i].phase.Ended?
  {
    var active := Life.Active(s.serves);
    Counting.Without(active, 0);
    assert active - {0} == {};
    assert forall i :: i in s.serves && i != 0 && !s.serves[i].phase.Ended? ==> i in active - {0};
  }

  lemma StepHangs(j: Joint, act: Act)
    requires Hangs(j) && Can(j, act)
    ensures Hangs(Step(j, act)) && Step(j, act).life.serves.Keys == j.life.serves.Keys
  {
    hide Life.Inv;
    TokenIsHeld(j.life);
    if act.Cycle? { Life.StepKeepsInv(j.life, act.a); }
  }

  /** Whatever any goroutine does, cancellation included, no serve loop is ever started again and no reconnect is
      ever attempted. */
  lemma {:induction false} NeverReconnects(j: Joint, acts: seq<Act>)
    requires Hangs(j) && Runs(j, acts)
    ensures var j' := Final(j, acts);
      && Hangs(j') && j'.life.serves.Keys == j.life.serves.Keys
      && j'.life.errChan == j'.life.pending == j'.life.dialing == j'.life.failing == 0
    decreases |acts|
  {
    hide Hangs, Can, Step;
    if acts == [] {
      assert Hangs(j) ==> Life.Inv(j.life) && 0 in j.life.serves && !j.life.serves[0].phase.Ended? by { Holds(j); }
      TokenIsHeld(j.life);
    } else {
      StepHangs(j, acts[0]);
      NeverReconnects(Step(j, acts[0]), acts[1..]);
    }
  }

  lemma Holds(j: Joint)
    ensures Hangs(j) ==> Life.Inv(j.life) && 0 in j.life.serves && !j.life.serves[0].phase.Ended?
  {
  }

  // ----- a run to such a device -----

  const START := Joint(Life.INIT, Queue.Start(0))

  ghost predicate Reached(j: Joint) {
    exists acts :: Runs(START, acts) && Final(START, acts) == j
  }

  lemma {:induction false} RunThenStep(j: Joint, acts: seq<Act>, act: Act)
    requires Runs(j, acts) && Can(Final(j, acts), act)
    ensures Runs(j, acts + [act]) && Final(j, acts + [act]) == Step(Final(j, acts), act)
    decreases |acts|
  {
    hide Can, Step;
    if acts == [] {
      assert acts + [act] == [act] && [act][1..] == [];
    } else {
      RunThenStep(Step(j, acts[0]), acts[1..], act);
      assert (acts + [act])[1..] == acts[1..] + [act];
    }
  }

  lemma Onward(j: Joint, act: Act)
    requires Reached(j) && Can(j, act)
    ensures Reached(Step(j, act))
  {
    hide Can, Step;
    var acts :| Runs(START, acts) && Final(START, acts) == j;
    RunThenStep(START, acts, act);
  }

  /** The device with one connection. */
  function Single(phase: Life.Phase, writerDone: bool, errNet: nat, q: Queue.State): Joint {
    Joint(Life.INIT.(serves := map[0 := Life.Serve(phase, false, writerDone, errNet)]), q)
  }

  lemma Started()
    ensures Reached(Single(Life.Selecting, false, 0, Queue.State(2, Queue.Idle, Queue.Selecting, false)))
  {
    hide Reached;
    assert Reached(START) by { StartReached(); }
    var j1 := Step(START, Inside(Queue.Encode));
    Onward(START, Inside(Queue.Encode));
    var j2 := Step(j1, Cycle(Life.VerifyQueued(0)));
    Onward(j1, Cycle(Life.VerifyQueued(0)));
    Onward(j2, Inside(Queue.ServeSends));
    assert Step(j2, Inside(Queue.ServeSends)).life.serves == map[0 := Life.Serve(Life.Selecting, false, false, 0)];
  }

  lemma StartReached()
    ensures Reached(START)
  {
    assert Runs(START, []) && Final(START, []) == START;
  }

  /** The first write fails. */
  lemma WriterGone()
    ensures Reached(Single(Life.Selecting, true, 1, Queue.State(1, Queue.Gone, Queue.Selecting, false)))
  {
    hide Reached;
    Started();
    var j0 := Single(Life.Selecting, false, 0, Queue.State(2, Queue.Idle, Queue.Selecting, false));
    Onward(j0, Inside(Queue.WriterTakes));
    var j1 := Step(j0, Inside(Queue.WriterTakes));
    Onward(j1, Cycle(Life.WriterFails(0)));
    assert Step(j1, Cycle(Life.WriterFails(0))).life.serves == map[0 := Life.Serve(Life.Selecting, false, true, 1)];
  }

  /** The observe loops and the application fill the queue before `serve` selects. */
  lemma {:induction false} QueueFills(n: nat)
    requires 1 <= n <= Queue.QUEUE_CAP
    ensures Reached(Single(Life.Selecting, true, 1, Queue.State(n, Queue.Gone, Queue.Selecting, false)))
  {
    hide Reached;
    if n == 1 {
      WriterGone();
    } else {
      QueueFills(n - 1);
      Onward(Single(Life.Selecting, true, 1, Queue.State(n - 1, Queue.Gone, Queue.Selecting, false)),
             Inside(Queue.OthersSend));
    }
  }

  /** The run exists: the writer fails, others fill the queue, and the select of `serve` picks its ticker before
      the error. */
  lemma DeviceHangs()
    ensures exists j :: Reached(j) && Hangs(j)
  {
    QueueFills(Queue.QUEUE_CAP);
    var q := Queue.State(Queue.QUEUE_CAP, Queue.Gone, Queue.Selecting, false);
    var j := Single(Life.Selecting, true, 1, q);
    Onward(j, Inside(Queue.Tick));
    var j' := Step(j, Inside(Queue.Tick));
    assert Life.Active(j'.life.serves) == {0};
    assert Reached(j') && Hangs(j');
  }
}
