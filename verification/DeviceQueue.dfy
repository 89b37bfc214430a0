/** The device's outgoing queue: its `serve` sends the verification and the pings on a channel of ten slots, which
    only its writer drains, and the writer is gone after its first error.  Each action is one atomic step of one
    goroutine.  (internal/deviceaccess/access_client/devicesession/devicesession.go) */
module DeviceQueue {

  const QUEUE_CAP := 10

  datatype Writer = Idle | Writing | Gone
  /** `serve`: before it has encoded its verification, about to send a message that `more` others follow without a
      select in between, in its select, or past it. */
  datatype Loop = Encoding | Sending(more: nat) | Selecting | Left

  datatype State = State(queued: nat, writer: Writer, serve: Loop, cancelled: bool)

  /** The channel outlives a connection, so a new `serve` may find messages in it. */
  function Start(queued: nat): State {
    State(queued, Idle, Encoding, false)
  }

  datatype Action =
    | Encode | EncodeFails | ServeSends | Tick | Leave
    | OthersSend | WriterTakes | WriteDone | WriteFails | WriterStops | Cancel

  predicate Enabled(s: State, a: Action) {
    match a
    case Encode => s.serve.Encoding?
    case EncodeFails => s.serve.Encoding?
    case ServeSends => s.serve.Sending? && s.queued < QUEUE_CAP
    case Tick => s.serve.Selecting?
    case Leave => s.serve.Selecting?
    case OthersSend => s.queued < QUEUE_CAP
    case WriterTakes => s.writer.Idle? && s.queued > 0
    case WriteDone => s.writer.Writing?
    case WriteFails => s.writer.Writing?
    case WriterStops => s.writer.Idle? && s.cancelled
    case Cancel => true
  }

  function Apply(s: State, a: Action): State
    requires Enabled(s, a)
  {
    match a
    case Encode => s.(serve := Sending(1))
    case EncodeFails => s.(serve := Left, cancelled := true)
    case ServeSends =>
      s.(queued := s.queued + 1, serve := if s.serve.more > 0 then Sending(s.serve.more - 1) else Selecting)
    case Tick => s.(serve := Sending(0))
    case Leave => s.(serve := Left, cancelled := true)
    case OthersSend => s.(queued := s.queued + 1)
    case WriterTakes => s.(queued := s.queued - 1, writer := Writing)
    case WriteDone => s.(writer := Idle)
    case WriteFails => s.(writer := Gone)
    case WriterStops => s.(writer := Gone)
    case Cancel => s.(cancelled := true)
  }

  predicate Runs(s: State, acts: seq<Action>)
    decreases |acts|
  {
    acts == [] || (Enabled(s, acts[0]) && Runs(Apply(s, acts[0]), acts[1..]))
  }

  function Final(s: State, acts: seq<Action>): State
    requires Runs(s, acts)
    decreases |acts|
  {
    if acts == [] then s else Final(Apply(s, acts[0]), acts[1..])
  }

  /** `serve` has to send, the queue is full, and nobody drains it any more. */
  predicate Stuck(s: State) {
    s.serve.Sending? && s.queued == 10 && s.writer.Gone?
  }

  lemma {:induction false} StuckForever(s: State, acts: seq<Action>)
    requires Stuck(s) && Runs(s, acts)
    ensures Stuck(Final(s, acts)) && Final(s, acts).serve == s.serve
    decreases |acts|
  {
    if acts != [] { StuckForever(Apply(s, acts[0]), acts[1..]); }
  }

  /** No continuation lets `serve` finish its send. */
  ghost predicate Hopeless(s: State) {
    forall acts :: Runs(s, acts) ==> Final(s, acts).serve == s.serve
  }

  lemma OneStep(s: State, a: Action)
    requires Enabled(s, a)
    ensures Runs(s, [a]) && Final(s, [a]) == Apply(s, a)
  {
    assert [a][1..] == [];
  }

  lemma TwoSteps(s: State, a: Action, b: Action)
    requires Enabled(s, a) && Enabled(Apply(s, a), b)
    ensures Runs(s, [a, b]) && Final(s, [a, b]) == Apply(Apply(s, a), b)
  {
    assert [a, b][1..] == [b];
    OneStep(Apply(s, a), b);
  }

  lemma ThreeSteps(s: State, a: Action, b: Action, c: Action)
    requires Enabled(s, a) && Enabled(Apply(s, a), b) && Enabled(Apply(Apply(s, a), b), c)
    ensures Runs(s, [a, b, c]) && Final(s, [a, b, c]) == Apply(Apply(Apply(s, a), b), c)
  {
    assert [a, b, c][1..] == [b, c];
    TwoSteps(Apply(s, a), b, c);
  }

  /** A `serve` that has to send can never go on if and only if the queue is full and the writer is gone: a full
      queue alone, or a lost writer alone, leaves a way out. */
  lemma HopelessIffStuck(s: State)
    requires s.serve.Sending? && s.queued <= QUEUE_CAP
    ensures Hopeless(s) <==> Stuck(s)
  {
    if Stuck(s) {
      forall acts | Runs(s, acts) ensures Final(s, acts).serve == s.serve { StuckForever(s, acts); }
    } else if s.queued < QUEUE_CAP {
      OneStep(s, ServeSends);
      assert Final(s, [ServeSends]).serve != s.serve;
    } else if s.writer.Idle? {
      TwoSteps(s, WriterTakes, ServeSends);
      assert Final(s, [WriterTakes, ServeSends]).serve != s.serve;
    } else {
      ThreeSteps(s, WriteDone, WriterTakes, ServeSends);
      assert Final(s, [WriteDone, WriterTakes, ServeSends]).serve != s.serve;
    }
  }

  // ----- what the queue does otherwise, in any state -----

  /** `serve` starts by queueing its verification and then the ping that sets the interval. */
  lemma Starts(s: State)
    requires s.serve.Encoding? && s.queued <= 8
    ensures var acts := [Encode, ServeSends, ServeSends];
      Runs(s, acts) && Final(s, acts) == s.(serve := Selecting, queued := s.queued + 2)
  {
    ThreeSteps(s, Encode, ServeSends, ServeSends);
  }

  /** Every tick queues one ping, and anybody may queue a message while there is room. */
  lemma Pings(s: State)
    requires s.queued < 10
    ensures s.serve.Selecting? ==>
      Runs(s, [Tick, ServeSends]) && Final(s, [Tick, ServeSends]) == s.(queued := s.queued + 1)
    ensures Runs(s, [OthersSend]) && Final(s, [OthersSend]) == s.(queued := s.queued + 1)
  {
    if s.serve.Selecting? { TwoSteps(s, Tick, ServeSends); }
    OneStep(s, OthersSend);
  }

  /** The writer takes one message at a time; after a write that fails it is gone. */
  lemma Writes(s: State)
    requires s.writer.Idle? && s.queued > 0
    ensures Runs(s, [WriterTakes, WriteDone]) && Final(s, [WriterTakes, WriteDone]) == s.(queued := s.queued - 1)
    ensures Runs(s, [WriterTakes, WriteFails])
    ensures Final(s, [WriterTakes, WriteFails]) == s.(queued := s.queued - 1, writer := Gone)
  {
    TwoSteps(s, WriterTakes, WriteDone);
    TwoSteps(s, WriterTakes, WriteFails);
  }

  /** When `serve` leaves, or cannot encode, or the context is cancelled, the writer stops. */
  lemma Ends(s: State)
    requires s.writer.Idle?
    ensures s.serve.Selecting? ==>
      Runs(s, [Leave, WriterStops]) && Final(s, [Leave, WriterStops]) == State(s.queued, Gone, Left, true)
    ensures s.serve.Encoding? ==>
      Runs(s, [EncodeFails, WriterStops]) && Final(s, [EncodeFails, WriterStops]) == State(s.queued, Gone, Left, true)
    ensures Runs(s, [Cancel, WriterStops])
    ensures Final(s, [Cancel, WriterStops]) == State(s.queued, Gone, s.serve, true)
  {
    if s.serve.Selecting? { TwoSteps(s, Leave, WriterStops); }
    if s.serve.Encoding? { TwoSteps(s, EncodeFails, WriterStops); }
    TwoSteps(s, Cancel, WriterStops);
  }

  /** In every run the writer is gone only after a write that failed or after a cancellation. */
  lemma {:induction false} GoneBecause(s: State, acts: seq<Action>)
    requires Runs(s, acts) && (s.writer.Gone? ==> s.cancelled)
    ensures Final(s, acts).writer.Gone? ==> WriteFails in acts || Final(s, acts).cancelled
    decreases |acts|
  {
    if acts != [] {
      assert acts == [acts[0]] + acts[1..];
      if acts[0] != WriteFails { GoneBecause(Apply(s, acts[0]), acts[1..]); }
    }
  }
}
