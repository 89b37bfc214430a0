/** Runs of the device's life cycle that get somewhere: a connection that is lost is replaced after any number of
    failures, and a cancellation ends everything.
    (internal/deviceaccess/access_client/devicesession/devicesession.go) */
module ReconnectRuns {
  import opened Types
  import opened Counting
  import opened Reconnect

  ghost predicate Leads(acts: seq<Action>, s: State, s': State) {
    Runs(s, acts) && Final(s, acts) == s'
  }

  ghost predicate Reaches(s: State, s': State) {
    exists acts :: Leads(acts, s, s')
  }

  lemma {:induction false} LeadsOn(acts: seq<Action>, s: State, s': State, a: Action)
    requires Leads(acts, s, s') && Enabled(s', a)
    ensures Leads(acts + [a], s, Apply(s', a))
    decreases |acts|
  {
    hide Enabled, Apply;
    if acts == [] {
      assert acts + [a] == [a] && [a][1..] == [];
      assert Leads([], Apply(s, a), Apply(s, a));
    } else {
      LeadsOn(acts[1..], Apply(s, acts[0]), s', a);
      assert (acts + [a])[1..] == acts[1..] + [a];
    }
  }

  lemma On(s: State, s': State, a: Action, next: State)
    requires Reaches(s, s') && Enabled(s', a)
    requires Apply(s', a).serves == next.serves && next == Apply(s', a).(serves := next.serves)
    ensures Reaches(s, next)
  {
    hide Enabled, Apply;
    var acts :| Leads(acts, s, s');
    LeadsOn(acts, s, s', a);
  }

  lemma Here(s: State)
    ensures Reaches(s, s)
  {
    assert Leads([], s, s);
  }

  /** Serve loop i is the one that serves. */
  predicate Serving(s: State, i: nat) {
    && i in s.serves && s.serves[i].phase.Selecting?
    && s.recovering && s.errChan == s.pending == s.dialing == s.failing == 0
  }

  /** s with serve loop i over, whichever of its goroutines reported, and its error in errChan. */
  function Over(s: State, i: nat, x: Serve): State {
    s.(serves := s.serves[i := x], errChan := 1)
  }

  /** In any state, an error of the reader or of the writer of a serve loop ends it and reaches `recover`. */
  lemma ConnectionLost(s: State, i: nat)
    requires Serving(s, i) && s.serves[i].errNet == 0
    ensures var x := s.serves[i];
      !x.readerDone ==> Reaches(s, Over(s, i, x.(phase := Ended, readerDone := true)))
    ensures var x := s.serves[i];
      !x.writerDone ==> Reaches(s, Over(s, i, x.(phase := Ended, writerDone := true)))
  {
    hide Reaches;
    var x := s.serves[i];
    if !x.readerDone {
      Here(s);
      On(s, s, ReaderFails(i), Put(s, i, x.(readerDone := true, errNet := 1)));
      HandsOver(s, s, i, x.(readerDone := true, errNet := 1));
    }
    if !x.writerDone {
      Here(s);
      On(s, s, WriterFails(i), Put(s, i, x.(writerDone := true, errNet := 1)));
      HandsOver(s, s, i, x.(writerDone := true, errNet := 1));
    }
  }

  lemma HandsOver(s0: State, s: State, i: nat, x: Serve)
    requires i in s.serves && x.phase.Selecting? && x.errNet == 1 && s.errChan == 0 && Reaches(s0, Put(s, i, x))
    ensures Reaches(s0, Over(s, i, x.(phase := Ended, errNet := 0)))
  {
    hide Reaches;
    On(s0, Put(s, i, x), TakeError(i), Put(s, i, x.(phase := Handing, errNet := 0)));
    On(s0, Put(s, i, x.(phase := Handing, errNet := 0)), HandOver(i), Over(s, i, x.(phase := Ended, errNet := 0)));
  }

  /** An error waits for `recover`, and n attempts have failed since the last success. */
  function Waiting(s: State, n: nat): State {
    s.(errChan := 1, times := n % 0x1_0000, waits := Waits(n))
  }

  /** The first n waits of the law. */
  function Waits(n: nat): seq<nat> {
    if n == 0 then [] else Waits(n - 1) + [WaitAfter(n - 1)]
  }

  predicate Idle(s: State) {
    s.recovering && s.pending == s.dialing == s.failing == 0
  }

  /** The next wait of the law, and then the next attempt dials. */
  lemma NextAttempt(s0: State, s: State, n: nat)
    requires Idle(s) && Reaches(s0, Waiting(s, n))
    ensures Reaches(s0, Waiting(s, n + 1).(errChan := 0, dialing := 1))
  {
    hide Reaches;
    var w, w1 := Waiting(s, n), Waiting(s, n + 1);
    On(s0, w, Recover, w.(errChan := 0, pending := 1, waits := w1.waits));
    On(s0, w.(errChan := 0, pending := 1, waits := w1.waits), Fire, w1.(errChan := 0, dialing := 1));
  }

  /** One more attempt that fails, after the next wait of the law. */
  lemma OneFailure(s0: State, s: State, n: nat)
    requires Idle(s) && Reaches(s0, Waiting(s, n))
    ensures Reaches(s0, Waiting(s, n + 1))
  {
    hide Reaches;
    var w1 := Waiting(s, n + 1);
    NextAttempt(s0, s, n);
    On(s0, w1.(errChan := 0, dialing := 1), DialFails, w1.(errChan := 0, failing := 1));
    On(s0, w1.(errChan := 0, failing := 1), Report, w1);
  }

  lemma {:induction false} ManyFailures(s0: State, s: State, n: nat)
    requires Idle(s) && Reaches(s0, Waiting(s, 0))
    ensures Reaches(s0, Waiting(s, n))
  {
    hide Reaches;
    if n > 0 {
      ManyFailures(s0, s, n - 1);
      OneFailure(s0, s, n - 1);
    }
  }

  /** An attempt that succeeds starts a new serve loop, with nothing reported yet, and resets counter and waits. */
  lemma OneSuccess(s0: State, s: State, n: nat, j: nat)
    requires Idle(s) && j !in s.serves && Reaches(s0, Waiting(s, n))
    ensures Reaches(s0, Put(s, j, Serve(Selecting, false, false, 0)).(errChan := 0, times := 0, waits := []))
  {
    hide Reaches;
    var w1 := Waiting(s, n + 1);
    var ok := s.(errChan := 0, times := 0, waits := []);
    NextAttempt(s0, s, n);
    On(s0, w1.(errChan := 0, dialing := 1), DialOk(j), Put(ok, j, Serve(Verifying, false, false, 0)));
    On(s0, Put(ok, j, Serve(Verifying, false, false, 0)), VerifyQueued(j),
       Put(ok, j, Serve(Selecting, false, false, 0)));
  }

  /** In any state in which serve loop i serves after a success: if its connection is lost and any number n of
      attempts fail, the device has waited exactly as the law says, and one more attempt can start serve loop j. */
  lemma LostIsReplaced(s: State, i: nat, n: nat, j: nat)
    requires Serving(s, i) && s.serves[i].errNet == 0 && !s.serves[i].readerDone && j !in s.serves
    requires s.times == 0 && s.waits == []
    ensures var s1 := Over(s, i, s.serves[i].(phase := Ended, readerDone := true));
      && Reaches(s, Waiting(s1, n))
      && Reaches(s, s1.(serves := s1.serves[j := Serve(Selecting, false, false, 0)], errChan := 0))
  {
    hide Reaches;
    ConnectionLost(s, i);
    var s1 := Over(s, i, s.serves[i].(phase := Ended, readerDone := true));
    assert Waiting(s1, 0) == s1;
    ManyFailures(s, s1, n);
    OneSuccess(s, s1, n, j);
  }

  lemma {:induction false} WaitsAreTheLaw(n: nat)
    ensures |Waits(n)| == n && forall i :: 0 <= i < n ==> Waits(n)[i] == WaitAfter(i)
  {
    if n > 0 { WaitsAreTheLaw(n - 1); }
  }

  /** In any state, a cancellation lets the serve loop and `recover` end without a report, and a verification that
      cannot be encoded ends its serve loop. */
  lemma CancellationEnds(s: State, i: nat)
    requires i in s.serves
    ensures s.serves[i].phase.Selecting? && s.recovering ==>
      Reaches(s, s.(serves := s.serves[i := s.serves[i].(phase := Ended)], cancelled := true, recovering := false))
    ensures s.serves[i].phase.Verifying? ==>
      Reaches(s, s.(serves := s.serves[i := s.serves[i].(phase := Ended)], verifyFailed := true))
  {
    hide Reaches;
    Here(s);
    var x := s.serves[i].(phase := Ended);
    if s.serves[i].phase.Selecting? && s.recovering {
      On(s, s, CancelContext, s.(cancelled := true));
      On(s, s.(cancelled := true), StopServing(i), Put(s.(cancelled := true), i, x));
      On(s, Put(s.(cancelled := true), i, x), StopRecovering, Put(s.(cancelled := true, recovering := false), i, x));
    }
    if s.serves[i].phase.Verifying? {
      On(s, s, VerifyFails(i), Put(s.(verifyFailed := true), i, x));
    }
  }
}
