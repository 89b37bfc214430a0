/** How the server's `serve` ends: its reader and its writer report to an error channel of two slots, and so does
    `serve` itself when one of its timers fires.  Each action is one atomic step of one goroutine.
    (internal/deviceaccess/access_server/devicetcp/session.go) */
module ServerExit {
  import opened Counting

  const ERR_CHAN_CAP := 2

  /** The reader or the writer: at work, holding an error to send, gone after sending it, gone without one. */
  datatype Worker = Working | Failing | Reported | Stopped
  /** `serve`: in its select, after a timer fired and before its own send, past that send, or past the receipt
      of an error or of the cancellation; from the last two on, its deferred calls run. */
  datatype Loop = Selecting | Sending | SentOwn | Released

  datatype State = State(reader: Worker, writer: Worker, serve: Loop, queued: nat, cancelled: bool)

  const INIT := State(Working, Working, Selecting, 0, false)

  datatype Action =
    | ReaderFails | ReaderReports | ReaderStops | WriterFails | WriterReports | WriterStops
    | TimerFires | ServeReports | TakeError | CancelContext | SeeCancel

  predicate Enabled(s: State, a: Action) {
    match a
    case ReaderFails => s.reader.Working?
    case WriterFails => s.writer.Working?
    case ReaderReports => s.reader.Failing? && s.queued < ERR_CHAN_CAP
    case WriterReports => s.writer.Failing? && s.queued < ERR_CHAN_CAP
    case ReaderStops => s.reader.Working? && s.cancelled
    case WriterStops => s.writer.Working? && s.cancelled
    case TimerFires => s.serve.Selecting?
    case ServeReports => s.serve.Sending? && s.queued < ERR_CHAN_CAP
    case TakeError => s.serve.Selecting? && s.queued > 0
    case CancelContext => true
    case SeeCancel => s.serve.Selecting? && s.cancelled
  }

  function Apply(s: State, a: Action): State
    requires Enabled(s, a)
  {
    match a
    case ReaderFails => s.(reader := Failing)
    case WriterFails => s.(writer := Failing)
    case ReaderReports => s.(reader := Reported, queued := s.queued + 1)
    case WriterReports => s.(writer := Reported, queued := s.queued + 1)
    case ReaderStops => s.(reader := Stopped)
    case WriterStops => s.(writer := Stopped)
    case TimerFires => s.(serve := Sending)
    case ServeReports => s.(serve := SentOwn, queued := s.queued + 1)
    case TakeError => s.(serve := Released, queued := s.queued - 1, cancelled := true)
    case CancelContext => s.(cancelled := true)
    case SeeCancel => s.(serve := Released)
  }

  predicate Runs(s: State, acts: seq<Action>)
    decreases |acts|
  {
    acts == [] || (Enabled(s, acts[0]) && Runs(Apply(s, acts[0]), acts[1..]))
  }

  function Final(s: State, acts: seq<Action>): State
    requires Runs(s, acts)
    decreases |acts|
  {
    if acts == [] then s else Final(Apply(s, acts[0]), acts[1..])
  }

  /** Before `serve` has been released every report is still in the channel; afterwards at most two were made. */
  predicate Inv(s: State) {
    var reports := Bit(s.reader.Reported?) + Bit(s.writer.Reported?) + Bit(s.serve.SentOwn?);
    if s.serve.Released? then s.queued <= reports else s.queued == reports <= ERR_CHAN_CAP
  }

  lemma {:induction false} RunKeepsInv(s: State, acts: seq<Action>)
    requires Inv(s) && Runs(s, acts)
    ensures Inv(Final(s, acts))
    decreases |acts|
  {
    if acts != [] {
      RunKeepsInv(Apply(s, acts[0]), acts[1..]);
    }
  }

  /** `serve` has to send and cannot. */
  predicate Stuck(s: State) {
    s.serve.Sending? && !Enabled(s, ServeReports)
  }

  /** A worker has to send and cannot. */
  predicate WorkerStuck(s: State) {
    (s.reader.Failing? && !Enabled(s, ReaderReports)) || (s.writer.Failing? && !Enabled(s, WriterReports))
  }

  /** In every run `serve` is stuck exactly when a timer has fired, both workers have reported and no report was
      taken; a worker is stuck exactly when the other one has reported and `serve` has left a report of its own. */
  lemma WhoIsStuck(acts: seq<Action>)
    requires Runs(INIT, acts)
    ensures var s := Final(INIT, acts);
      && (Stuck(s) <==> s.serve.Sending? && s.reader.Reported? && s.writer.Reported?)
      && (WorkerStuck(s) <==>
            && s.serve.SentOwn?
            && ((s.reader.Failing? && s.writer.Reported?) || (s.writer.Failing? && s.reader.Reported?)))
  {
    RunKeepsInv(INIT, acts);
  }

  /** Nothing that any goroutine does, and no cancellation, ever frees a stuck `serve`: its deferred calls, which
      remove the session and signal that it is done, never run. */
  lemma {:induction false} StuckForever(s: State, acts: seq<Action>)
    requires Stuck(s) && Runs(s, acts)
    ensures Stuck(Final(s, acts))
    decreases |acts|
  {
    if acts != [] {
      StuckForever(Apply(s, acts[0]), acts[1..]);
    }
  }

  /** Such a run exists: the connection fails in both directions just as the heartbeat timer fires. */
  lemma StuckHappens() returns (acts: seq<Action>)
    ensures Runs(INIT, acts) && Stuck(Final(INIT, acts))
  {
    acts := [ReaderFails, ReaderReports, WriterFails, WriterReports, TimerFires];
    var s1 := State(Reported, Working, Selecting, 1, false);
    var s2 := State(Reported, Reported, Selecting, 2, false);
    TwoSteps(INIT, acts, s1);
    TwoSteps(s1, acts[2..], s2);
    assert acts[2..][2..] == [TimerFires];
    assert [TimerFires][1..] == [];
  }

  lemma TwoSteps(s: State, acts: seq<Action>, s': State)
    requires |acts| >= 2 && Enabled(s, acts[0]) && Enabled(Apply(s, acts[0]), acts[1])
    requires Apply(Apply(s, acts[0]), acts[1]) == s'
    ensures Runs(s, acts) <==> Runs(s', acts[2..])
    ensures Runs(s, acts) ==> Final(s, acts) == Final(s', acts[2..])
  {
    assert acts[1..][1..] == acts[2..];
  }

  // ----- how `serve` and its workers end, in any state -----

  lemma OneAction(s: State, a: Action)
    requires Enabled(s, a)
    ensures Runs(s, [a]) && Final(s, [a]) == Apply(s, a)
  {
    assert [a][1..] == [];
  }

  lemma TwoActions(s: State, a: Action, b: Action)
    requires Enabled(s, a) && Enabled(Apply(s, a), b)
    ensures Runs(s, [a, b]) && Final(s, [a, b]) == Apply(Apply(s, a), b)
  {
    assert [a, b][1..] == [b];
    OneAction(Apply(s, a), b);
  }

  /** A timer ends `serve` with a report of its own, if there is room, and cancels nothing. */
  lemma TimerEnds(s: State)
    requires s.serve.Selecting? && s.queued < 2
    ensures var acts := [TimerFires, ServeReports];
      Runs(s, acts) && Final(s, acts) == s.(serve := SentOwn, queued := s.queued + 1)
  {
    TwoActions(s, TimerFires, ServeReports);
  }

  /** A report that is taken ends `serve`, and it or a cancellation ends both workers unless they hold an error. */
  lemma ReportEnds(s: State)
    requires s.serve.Selecting? && s.queued > 0
    ensures Runs(s, [TakeError])
    ensures Final(s, [TakeError]) == State(s.reader, s.writer, Released, s.queued - 1, true)
  {
    OneAction(s, TakeError);
  }

  lemma CancelEnds(s: State)
    requires s.serve.Selecting?
    ensures var acts := [CancelContext, SeeCancel];
      Runs(s, acts) && Final(s, acts) == State(s.reader, s.writer, Released, s.queued, true)
  {
    TwoActions(s, CancelContext, SeeCancel);
  }

  /** A worker that is at work can fail and report while there is room, and stops at a cancellation. */
  lemma WorkerEnds(s: State)
    ensures s.reader.Working? && s.queued < 2 ==>
      var acts := [ReaderFails, ReaderReports];
      Runs(s, acts) && Final(s, acts) == s.(reader := Reported, queued := s.queued + 1)
    ensures s.writer.Working? && s.queued < 2 ==>
      var acts := [WriterFails, WriterReports];
      Runs(s, acts) && Final(s, acts) == s.(writer := Reported, queued := s.queued + 1)
    ensures s.reader.Working? && s.cancelled ==>
      Runs(s, [ReaderStops]) && Final(s, [ReaderStops]) == s.(reader := Stopped)
    ensures s.writer.Working? && s.cancelled ==>
      Runs(s, [WriterStops]) && Final(s, [WriterStops]) == s.(writer := Stopped)
  {
    if s.reader.Working? && s.queued < 2 { TwoActions(s, ReaderFails, ReaderReports); }
    if s.writer.Working? && s.queued < 2 { TwoActions(s, WriterFails, WriterReports); }
    if s.reader.Working? && s.cancelled { OneAction(s, ReaderStops); }
    if s.writer.Working? && s.cancelled { OneAction(s, WriterStops); }
  }

  /** A `serve` that has not ended can always end, unless it is stuck. */
  lemma EndsUnlessStuck(s: State)
    requires Inv(s) && (s.serve.Selecting? || s.serve.Sending?)
    ensures Stuck(s) <==>
      forall acts :: Runs(s, acts) ==> !Final(s, acts).serve.Released? && !Final(s, acts).serve.SentOwn?
  {
    if Stuck(s) {
      forall acts | Runs(s, acts) ensures !Final(s, acts).serve.Released? && !Final(s, acts).serve.SentOwn? {
        StuckForever(s, acts);
      }
    } else if s.serve.Selecting? {
      CancelEnds(s);
      assert Final(s, [CancelContext, SeeCancel]).serve.Released?;
    } else {
      OneAction(s, ServeReports);
      assert Final(s, [ServeReports]).serve.SentOwn?;
    }
  }
}
