/** The device's life cycle after `Serve`: serve loops, the error channel, the recover goroutine, delayed
    reconnects and their back-off.  Each action is one atomic step of one goroutine.
    (internal/deviceaccess/access_client/devicesession/devicesession.go) */
module Reconnect {
  import opened Counting
  import opened Types

  const MAX_LEVEL: uint16 := 6
  const ERR_CHAN_CAP := 1
  const ERR_NET_CHAN_CAP := 2

  /** A serve loop: encoding its verification, selecting, handing its error to `errChan`, over. */
  datatype Phase = Verifying | Selecting | Handing | Ended
  /** A serve loop, whether its reader and its writer have reported an error, and what waits in `errNetChan`. */
  datatype Serve = Serve(phase: Phase, readerDone: bool, writerDone: bool, errNet: nat)

  datatype State = State(
    serves: map<nat, Serve>,   // all serve loops ever started
    errChan: nat,              // errors in errChan
    pending: nat,              // timers of time.AfterFunc that have not fired
    dialing: nat,              // reconnect calls that are dialing
    failing: nat,              // reconnect calls whose dial failed and that have not sent their error yet
    times: uint16,             // reconnectTimes
    cancelled: bool, recovering: bool, verifyFailed: bool,
    waits: seq<nat>)           // the waits chosen since the last success, in seconds

  const INIT := State(map[0 := Serve(Verifying, false, false, 0)], 0, 0, 0, 0, 0, false, true, false, [])

  datatype Action =
    | VerifyQueued(i: nat) | VerifyFails(i: nat) | ReaderFails(i: nat) | WriterFails(i: nat)
    | TakeError(i: nat) | HandOver(i: nat) | StopServing(i: nat)
    | Recover | StopRecovering | Fire | DialOk(i: nat) | DialFails | Report | CancelContext

  function Level(times: uint16): nat {
    if times < MAX_LEVEL then times else MAX_LEVEL
  }

  /** 2 << min(6, times): the wait in seconds before the next attempt. */
  function Interval(times: uint16): nat {
    2 * Pow2(Level(times))
  }

  function Bump(times: uint16): uint16 {
    (times + 1) % 0x1_0000
  }

  predicate Enabled(s: State, a: Action) {
    match a
    case VerifyQueued(i) => i in s.serves && s.serves[i].phase.Verifying?
    case VerifyFails(i) => i in s.serves && s.serves[i].phase.Verifying?
    case ReaderFails(i) => i in s.serves && !s.serves[i].readerDone && s.serves[i].errNet < ERR_NET_CHAN_CAP
    case WriterFails(i) => i in s.serves && !s.serves[i].writerDone && s.serves[i].errNet < ERR_NET_CHAN_CAP
    case TakeError(i) => i in s.serves && s.serves[i].phase.Selecting? && s.serves[i].errNet > 0
    case HandOver(i) => i in s.serves && s.serves[i].phase.Handing? && s.errChan < ERR_CHAN_CAP
    case StopServing(i) => i in s.serves && s.serves[i].phase.Selecting? && s.cancelled
    case Recover => s.recovering && s.errChan > 0
    case StopRecovering => s.recovering && s.cancelled
    case Fire => s.pending > 0
    case DialOk(i) => s.dialing > 0 && i !in s.serves
    case DialFails => s.dialing > 0
    case Report => s.failing > 0 && s.errChan < ERR_CHAN_CAP
    case CancelContext => true
  }

  function Put(s: State, i: nat, x: Serve): State {
    s.(serves := s.serves[i := x])
  }

  function Apply(s: State, a: Action): State
    requires Enabled(s, a)
  {
    match a
    case VerifyQueued(i) => Put(s, i, s.serves[i].(phase := Selecting))
    case VerifyFails(i) => Put(s, i, s.serves[i].(phase := Ended)).(verifyFailed := true)
    case ReaderFails(i) => Put(s, i, s.serves[i].(readerDone := true, errNet := s.serves[i].errNet + 1))
    case WriterFails(i) => Put(s, i, s.serves[i].(writerDone := true, errNet := s.serves[i].errNet + 1))
    case TakeError(i) => Put(s, i, s.serves[i].(phase := Handing, errNet := s.serves[i].errNet - 1))
    case HandOver(i) => Put(s, i, s.serves[i].(phase := Ended)).(errChan := s.errChan + 1)
    case StopServing(i) => Put(s, i, s.serves[i].(phase := Ended))
    case Recover =>
      s.(errChan := s.errChan - 1, pending := s.pending + 1, waits := s.waits + [Interval(s.times)])
    case StopRecovering => s.(recovering := false)
    case Fire => s.(pending := s.pending - 1, dialing := s.dialing + 1, times := Bump(s.times))
    case DialOk(i) =>
      Put(s, i, Serve(Verifying, false, false, 0)).(dialing := s.dialing - 1, times := 0, waits := [])
    case DialFails => s.(dialing := s.dialing - 1, failing := s.failing + 1)
    case Report => s.(failing := s.failing - 1, errChan := s.errChan + 1)
    case CancelContext => s.(cancelled := true)
  }

  predicate Runs(s: State, acts: seq<Action>)
    decreases |acts|
  {
    acts == [] || (Enabled(s, acts[0]) && Runs(Apply(s, acts[0]), acts[1..]))
  }

  function Final(s: State, acts: seq<Action>): State
    requires Runs(s, acts)
    decreases |acts|
  {
    if acts == [] then s else Final(Apply(s, acts[0]), acts[1..])
  }

  // ----- the circulating token -----

  /** Serve loops that have not handed over yet. */
  function Active(serves: map<nat, Serve>): set<nat> {
    set i | i in serves && !serves[i].phase.Ended?
  }

  function Tokens(s: State): nat {
    |Active(s.serves)| + s.errChan + s.pending + s.dialing + s.failing
  }

  lemma OthersStay(serves: map<nat, Serve>, i: nat, x: Serve)
    ensures Active(serves[i := x]) - {i} == Active(serves) - {i}
  {
  }

  lemma PutActive(serves: map<nat, Serve>, i: nat, x: Serve)
    ensures |Active(serves[i := x])|
        == |Active(serves)| - Bit(i in serves && !serves[i].phase.Ended?) + Bit(!x.phase.Ended?)
  {
    OthersStay(serves, i, x);
    Without(Active(serves), i);
    Without(Active(serves[i := x]), i);
  }

  predicate ServeOk(x: Serve) {
    x.errNet <= Bit(x.readerDone) + Bit(x.writerDone)
  }

  /** The waits chosen since the last success follow the back-off law. */
  predicate WaitsOk(s: State) {
    && (forall i :: 0 <= i < |s.waits| ==> s.waits[i] == Interval(i % 0x1_0000))
    && (s.pending + s.dialing + s.failing > 0 ==> |s.waits| > 0)
    && s.times == (if s.pending > 0 then |s.waits| - 1 else |s.waits|) % 0x1_0000
  }

  ghost predicate Inv(s: State) {
    && (forall i :: i in s.serves ==> ServeOk(s.serves[i]))
    && Tokens(s) <= 1
    && (!s.cancelled && !s.verifyFailed ==> Tokens(s) == 1)
    && (s.cancelled || s.recovering)
    && WaitsOk(s)
  }

  lemma StepTokens(s: State, a: Action)
    requires Enabled(s, a)
    ensures Tokens(Apply(s, a)) == Tokens(s) - Bit(a.VerifyFails? || a.StopServing?)
  {
    hide Active;
    match a
    case VerifyQueued(i) => PutActive(s.serves, i, Apply(s, a).serves[i]);
    case VerifyFails(i) => PutActive(s.serves, i, Apply(s, a).serves[i]);
    case ReaderFails(i) => PutActive(s.serves, i, Apply(s, a).serves[i]);
    case WriterFails(i) => PutActive(s.serves, i, Apply(s, a).serves[i]);
    case TakeError(i) => PutActive(s.serves, i, Apply(s, a).serves[i]);
    case HandOver(i) => PutActive(s.serves, i, Apply(s, a).serves[i]);
    case StopServing(i) => PutActive(s.serves, i, Apply(s, a).serves[i]);
    case DialOk(i) => PutActive(s.serves, i, Apply(s, a).serves[i]);
    case _ =>
  }

  lemma StepWaits(s: State, a: Action)
    requires WaitsOk(s) && Tokens(s) <= 1 && Enabled(s, a)
    ensures WaitsOk(Apply(s, a))
  {
  }

  lemma StepKeepsInv(s: State, a: Action)
    requires Inv(s) && Enabled(s, a)
    ensures Inv(Apply(s, a))
  {
    StepTokens(s, a);
    StepWaits(s, a);
  }

  lemma {:induction false} RunKeepsInv(s: State, acts: seq<Action>)
    requires Inv(s) && Runs(s, acts)
    ensures Inv(Final(s, acts))
    decreases |acts|
  {
    if acts != [] {
      StepKeepsInv(s, acts[0]);
      RunKeepsInv(Apply(s, acts[0]), acts[1..]);
    }
  }

  lemma InitInv()
    ensures Inv(INIT)
  {
    assert Active(INIT.serves) == {0};
  }

  /** In every run there is at most one token, and exactly one until the context is cancelled or a verification
      cannot be encoded.  Hence whoever is about to send on errChan or errNetChan finds room, and at most one
      goroutine ever writes `reconnectTimes`. */
  lemma OneToken(acts: seq<Action>, i: nat)
    requires Runs(INIT, acts)
    ensures var s := Final(INIT, acts);
      && Tokens(s) <= 1
      && (!s.cancelled && !s.verifyFailed ==> Tokens(s) == 1)
      && (i in s.serves && s.serves[i].phase.Handing? ==> Enabled(s, HandOver(i)))
      && (s.failing > 0 ==> Enabled(s, Report))
      && (i in s.serves && !s.serves[i].readerDone ==> Enabled(s, ReaderFails(i)))
      && (i in s.serves && !s.serves[i].writerDone ==> Enabled(s, WriterFails(i)))
      && s.pending + s.dialing + s.failing <= 1
      && (i in s.serves && s.serves[i].phase.Handing? ==> s.errChan == 0)
      && (s.failing > 0 ==> s.errChan == 0)
      && (i in s.serves && (!s.serves[i].readerDone || !s.serves[i].writerDone) ==> s.serves[i].errNet < 2)
  {
    InitInv();
    RunKeepsInv(INIT, acts);
    var s := Final(INIT, acts);
    if i in s.serves && s.serves[i].phase.Handing? {
      assert i in Active(s.serves);
    }
  }

  // ----- the back-off law -----

  /** The wait after i consecutive failures. */
  function WaitAfter(i: nat): nat {
    Interval(i % 0x1_0000)
  }

  function Total(k: nat): nat {
    if k == 0 then 0 else Total(k - 1) + WaitAfter(k - 1)
  }

  function Sum(waits: seq<nat>): nat {
    if waits == [] then 0 else Sum(waits[..|waits| - 1]) + waits[|waits| - 1]
  }

  lemma {:induction false} Pow2Grows(m: nat, n: nat)
    requires m < n
    ensures Pow2(m) < Pow2(n)
  {
    if m + 1 < n { Pow2Grows(m, n - 1); }
  }

  /** A longer row of failures means no shorter wait, except when the 16-bit counter wraps. */
  lemma WaitsGrow(i: nat)
    ensures WaitAfter(i) <= WaitAfter(i + 1) <==> i % 0x1_0000 != 0xFFFF
  {
    var a, b := Level(i % 0x1_0000), Level((i + 1) % 0x1_0000);
    if i % 0x1_0000 == 0xFFFF {
      assert a == 6 && b == 0;
      Pow2Grows(b, a);
    } else {
      assert a <= b;
      if a < b { Pow2Grows(a, b); }
    }
  }

  /** The first k waits add up to 2^(k+1) - 2 seconds, and to 254 + 128 (k - 7) from the seventh on. */
  lemma {:induction false} TotalWait(k: nat)
    requires k <= 0x1_0000
    ensures Total(k) == if k <= 7 then Pow2(k + 1) - 2 else 254 + 128 * (k - 7)
  {
    hide WaitAfter, Pow2;
    SmallPowers();
    if k > 0 {
      TotalWait(k - 1);
      WaitIsPower(k - 1);
      if k <= 7 { PowerDoubles(k); }
    }
  }

  lemma WaitIsPower(i: nat)
    requires i < 0x1_0000
    ensures WaitAfter(i) == if i <= 6 then Pow2(i + 1) else 128
  {
    assert i % 0x1_0000 == i;
    hide Pow2;
    SmallPowers();
    PowerDoubles(if i < 6 then i else 6);
  }

  lemma PowerDoubles(n: nat)
    ensures Pow2(n + 1) == Pow2(n) + Pow2(n)
  {
  }

  lemma SmallPowers()
    ensures Pow2(1) == 2 && Pow2(6) == 64 && Pow2(7) == 128 && Pow2(8) == 256
  {
  }

  lemma {:induction false} SumIsTotal(waits: seq<nat>)
    requires forall i :: 0 <= i < |waits| ==> waits[i] == WaitAfter(i)
    ensures Sum(waits) == Total(|waits|)
  {
    if waits != [] { SumIsTotal(waits[..|waits| - 1]); }
  }

  /** In every run the waits since the last success follow the law, the next one included, and so does the time
      that they add up to. */
  lemma BackOff(acts: seq<Action>)
    requires Runs(INIT, acts)
    ensures var s := Final(INIT, acts);
      && (forall i :: 0 <= i < |s.waits| ==> s.waits[i] == WaitAfter(i))
      && (Enabled(s, Recover) ==> Apply(s, Recover).waits == s.waits + [WaitAfter(|s.waits|)])
      && Sum(s.waits) == Total(|s.waits|)
  {
    InitInv();
    RunKeepsInv(INIT, acts);
    SumIsTotal(Final(INIT, acts).waits);
  }

  /** The fields of the device session that the reconnect goroutine updates: its counter, the errors waiting in
      `errChan`, and the number of serve loops started. */
  class DeviceSession {
    var reconnectTimes: uint16
    var errChan: nat
    var loops: nat

    constructor ()
      ensures reconnectTimes == 0 && errChan == 0 && loops == 0
    {
      reconnectTimes, errChan, loops := 0, 0, 0;
    }

    /** The fields agree with a state of the life cycle. */
    ghost predicate Shows(s: State)
      reads this
    {
      reconnectTimes == s.times && errChan == s.errChan && loops == |s.serves|
    }

    /** The wait is the power of the smaller of counter and level.  The shift stays inside 64 bits; the only caller
        passes 6. */
    method GetReconnectInterval(maxLevel: uint16) returns (wait: nat)
      requires maxLevel <= 61
      ensures maxLevel == MAX_LEVEL ==> wait == Interval(reconnectTimes)
      ensures reconnectTimes <= maxLevel ==> wait == Pow2(reconnectTimes + 1)
      ensures maxLevel <= reconnectTimes ==> wait == Pow2(maxLevel + 1)
      ensures 2 <= wait <= Pow2(maxLevel + 1)
    {
      var n: nat := maxLevel;
      if reconnectTimes < n {
        n := reconnectTimes;
      }
      wait := 2 * Pow2(n);
      assert wait == Pow2(n + 1);
      if n < maxLevel { Pow2Grows(n + 1, maxLevel + 1); }
    }

    /** One attempt, from the timer to its end; `dialed` is what the network answers and i names the serve loop
        that a success starts.  It performs the steps of the life cycle: a success resets the counter and starts
        a loop, a failure leaves the counter one higher and its error in `errChan`. */
    method Reconnect(dialed: bool, ghost s: State, ghost i: nat) returns (times: uint16, ghost run: seq<Action>)
      requires Inv(s) && Shows(s) && Enabled(s, Fire) && i !in s.serves
      modifies this
      ensures times == reconnectTimes == if dialed then 0 else Bump(old(reconnectTimes))
      ensures run == if dialed then [Fire, DialOk(i)] else [Fire, DialFails, Report]
      ensures Runs(s, run) && Shows(Final(s, run))
    {
      run := if dialed then [Fire, DialOk(i)] else [Fire, DialFails, Report];
      AttemptRuns(s, i);
      reconnectTimes := Bump(reconnectTimes);
      if !dialed {
        errChan := errChan + 1;
        return reconnectTimes, run;
      }
      reconnectTimes := 0;
      loops := loops + 1;
      times := reconnectTimes;
    }
  }

  /** An attempt can go either way, and a failure finds room for its error because the token is its own. */
  lemma AttemptSteps(s: State, i: nat)
    requires Inv(s) && Enabled(s, Fire) && i !in s.serves
    ensures Enabled(Apply(s, Fire), DialOk(i)) && Enabled(Apply(s, Fire), DialFails)
    ensures Enabled(Apply(Apply(s, Fire), DialFails), Report)
  {
    assert s.errChan == 0;
  }

  lemma Runs1(s: State, a: Action)
    requires Enabled(s, a)
    ensures Runs(s, [a]) && Final(s, [a]) == Apply(s, a)
  {
    assert [a][1..] == [];
  }

  lemma Runs2(s: State, a: Action, b: Action)
    requires Enabled(s, a) && Enabled(Apply(s, a), b)
    ensures Runs(s, [a, b]) && Final(s, [a, b]) == Apply(Apply(s, a), b)
  {
    assert [a, b][1..] == [b];
    Runs1(Apply(s, a), b);
  }

  lemma AttemptRuns(s: State, i: nat)
    requires Inv(s) && Enabled(s, Fire) && i !in s.serves
    ensures Enabled(Apply(s, Fire), DialOk(i)) && Enabled(Apply(s, Fire), DialFails)
    ensures Enabled(Apply(Apply(s, Fire), DialFails), Report)
    ensures var ok := [Fire, DialOk(i)];
      Runs(s, ok) && Final(s, ok) == Apply(Apply(s, Fire), DialOk(i))
    ensures var bad := [Fire, DialFails, Report];
      Runs(s, bad) && Final(s, bad) == Apply(Apply(Apply(s, Fire), DialFails), Report)
  {
    hide Inv, Enabled, Apply;
    AttemptSteps(s, i);
    Runs2(s, Fire, DialOk(i));
    Runs2(Apply(s, Fire), DialFails, Report);
    assert [Fire, DialFails, Report][1..] == [DialFails, Report];
  }
}
