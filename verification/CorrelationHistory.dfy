/** What becomes of a call, read off the history of a run: who answers and what is returned.
    (internal/deviceaccess/access_server/devicetcp/session.go) */
module CorrelationHistory {
  import opened Types
  import opened RollingIds
  import opened Correlation
  import TimeKV

  // ----- outcomes by history -----

  predicate Over(c: Call) {
    c.phase.Leaving? || c.phase.Returned?
  }

  predicate Got(s: State, t: nat) {
    t in s.calls && Over(s.calls[t]) && s.calls[t].phase.r.Body?
  }

  predicate GaveUp(s: State, t: nat) {
    t in s.calls && Over(s.calls[t]) && s.calls[t].phase.r.TimedOut?
  }

  predicate Said(s: State, t: nat, b: Bytes) {
    t in s.calls && s.calls[t].said == Some(b)
  }

  predicate CameBack(s: State, t: nat) {
    t in s.calls && s.calls[t].phase.Returned?
  }

  /** Only drawn calls exist, and the device answers a request once. */
  ghost predicate Known(s: State) {
    forall t :: t in s.calls ==>
      && t <= s.drawn
      && (s.calls[t].said.None? <==> s.calls[t].message.Unsent? || s.calls[t].message.Request?)
      && (s.calls[t].phase.Drawn? || s.calls[t].phase.Stored? ==> s.calls[t].message.Unsent?)
  }

  lemma StepKnown(s: State, a: Action)
    requires Known(s) && Enabled(s, a)
    ensures Known(Apply(s, a))
  {
  }

  lemma StepOutcome(s: State, a: Action, t: nat)
    requires Known(s) && Enabled(s, a)
    ensures Got(Apply(s, a), t) <==> Got(s, t) || a == Receive(t)
    ensures GaveUp(Apply(s, a), t) <==> GaveUp(s, t) || a == Expire(t)
    ensures CameBack(Apply(s, a), t) <==> CameBack(s, t) || a == Return(t)
  {
  }

  lemma StepSaid(s: State, a: Action, t: nat, b: Bytes)
    requires Known(s) && Enabled(s, a)
    ensures Said(Apply(s, a), t, b) <==> Said(s, t, b) || a == Answer(t, b)
  {
  }

  lemma {:induction false} OutcomeFrom(s: State, acts: seq<Action>, t: nat)
    requires Known(s) && Runs(s, acts)
    ensures Got(Final(s, acts), t) <==> Got(s, t) || Receive(t) in acts
    ensures GaveUp(Final(s, acts), t) <==> GaveUp(s, t) || Expire(t) in acts
    ensures CameBack(Final(s, acts), t) <==> CameBack(s, t) || Return(t) in acts
    decreases |acts|
  {
    hide Known, Enabled, Apply, Got, GaveUp, CameBack;
    if acts != [] {
      StepKnown(s, acts[0]);
      StepOutcome(s, acts[0], t);
      OutcomeFrom(Apply(s, acts[0]), acts[1..], t);
      assert acts == [acts[0]] + acts[1..];
    }
  }

  lemma {:induction false} SaidFrom(s: State, acts: seq<Action>, t: nat, b: Bytes)
    requires Known(s) && Runs(s, acts)
    ensures Said(Final(s, acts), t, b) <==> Said(s, t, b) || Answer(t, b) in acts
    decreases |acts|
  {
    hide Known, Enabled, Apply, Said;
    if acts != [] {
      StepKnown(s, acts[0]);
      StepSaid(s, acts[0], t, b);
      SaidFrom(Apply(s, acts[0]), acts[1..], t, b);
      assert acts == [acts[0]] + acts[1..];
    }
  }

  /** In every run a call has a body if and only if it received one, has timed out if and only if its timer expired,
      and has come back if and only if it returned; and the device's answer is the one that it gave. */
  lemma OutcomeIsHistory(acts: seq<Action>, t: nat)
    requires Runs(INIT, acts)
    ensures var s := Final(INIT, acts);
      && (Got(s, t) <==> Receive(t) in acts)
      && (GaveUp(s, t) <==> Expire(t) in acts)
      && (CameBack(s, t) <==> Return(t) in acts)
      && forall b :: Said(s, t, b) <==> Answer(t, b) in acts
  {
    OutcomeFrom(INIT, acts, t);
    forall b ensures Said(Final(INIT, acts), t, b) <==> Answer(t, b) in acts { SaidFrom(INIT, acts, t, b); }
  }

  /** In every run within the window, a call that received something returns exactly what the device answered to
      that very call. */
  lemma ReturnsItsAnswer(acts: seq<Action>, t: nat)
    requires Runs(INIT, acts) && Windowed(INIT, acts) && Receive(t) in acts
    ensures var s := Final(INIT, acts);
      t in s.calls && Over(s.calls[t]) && s.calls[t].phase.r.Body? && Answer(t, s.calls[t].phase.r.b) in acts
  {
    OutcomeFrom(INIT, acts, t);
    NoCrossTalk(acts, t);
    SaidFrom(INIT, acts, t, Final(INIT, acts).calls[t].phase.r.b);
  }

  // ----- a call that is answered in time succeeds -----

  ghost predicate Leads(acts: seq<Action>, s: State, s': State) {
    Runs(s, acts) && Windowed(s, acts) && Punctual(s, acts) && Final(s, acts) == s'
  }

  /** A run within the window, of punctual calls, leads from s to s'. */
  ghost predicate Reaches(s: State, s': State) {
    exists acts :: Leads(acts, s, s')
  }

  lemma {:induction false} LeadsOn(acts: seq<Action>, s: State, s': State, a: Action)
    requires Leads(acts, s, s') && Enabled(s', a) && (a.Draw? ==> WindowOpen(s')) && (a.Tick? ==> Timely(s'))
    ensures Leads(acts + [a], s, Apply(s', a))
    decreases |acts|
  {
    hide Enabled, Apply, WindowOpen, Timely;
    if acts == [] {
      assert acts + [a] == [a] && [a][1..] == [];
      assert Leads([], Apply(s, a), Apply(s, a));
    } else {
      LeadsOn(acts[1..], Apply(s, acts[0]), s', a);
      assert (acts + [a])[1..] == acts[1..] + [a];
    }
  }

  lemma On(s: State, s': State, a: Action, next: State)
    requires Reaches(s, s') && Enabled(s', a) && (a.Draw? ==> WindowOpen(s')) && (a.Tick? ==> Timely(s'))
    requires Apply(s', a).calls == next.calls && Apply(s', a).table == next.table
    requires next == Apply(s', a).(calls := next.calls, table := next.table)
    ensures Reaches(s, next)
  {
    hide Enabled, Apply, WindowOpen, Timely;
    var acts :| Leads(acts, s, s');
    LeadsOn(acts, s, s', a);
  }

  lemma Here(s: State)
    ensures Reaches(s, s)
  {
    assert Leads([], s, s);
  }

  /** s with call t as given. */
  function With(s: State, t: nat, c: Call): State {
    s.(drawn := if t > s.drawn then t else s.drawn, calls := s.calls[t := c])
  }

  /** The reader is free and the session is not over. */
  predicate Open(s: State) {
    s.reader.None? && !s.broken
  }

  /** Whatever else is going on, an answer that is on its way back to a call which waits can be read, delivered and
      returned at once. */
  lemma AnswerCanReturn(s: State, t: nat)
    requires Inv(s) && TableFull(s) && Open(s)
    requires t in s.calls && s.calls[t].phase.Waiting? && s.calls[t].message.Answered?
    ensures var c := s.calls[t];
      Reaches(s, s.(calls := s.calls[t := Call(Returned(Body(c.message.body)), [], c.since, HandedOver, c.said)],
                    table := s.table - {RollingId(t)}))
  {
    hide Reaches;
    var c := s.calls[t];
    var b := c.message.body;
    OwnerIsSource(s, t);
    Here(s);
    var s1 := s.(calls := s.calls[t := c.(message := Read(b))], reader := Some(Delivery(t, t)));
    On(s, s, Arrive(t), s1);
    var s2 := s.(calls := s.calls[t := c.(message := HandedOver, inbox := [b])]);
    On(s, s1, Deliver, s2);
    var s3 := s.(calls := s.calls[t := c.(message := HandedOver, inbox := [], phase := Leaving(Body(b)))]);
    On(s, s2, Receive(t), s3);
    var s4 := s.(calls := s.calls[t := Call(Returned(Body(b)), [], c.since, HandedOver, c.said)],
                 table := s.table - {RollingId(t)});
    On(s, s3, Return(t), s4);
  }

  /** Whatever else is going on, a new call can be drawn, stored and sent at once. */
  lemma CallCanBeSent(s: State)
    requires Inv(s) && WindowOpen(s)
    ensures var t := s.drawn + 1;
      Reaches(s, With(s, t, Call(Waiting, [], s.now, Request(RollingId(t)), None))
                   .(table := s.table[RollingId(t) := TimeKV.Entry(t, s.now)]))
  {
    hide Reaches, RollingId;
    var t := s.drawn + 1;
    Here(s);
    var s1 := With(s, t, Call(Drawn, [], 0, Unsent, None));
    On(s, s, Draw, s1);
    var table := s.table[RollingId(t) := TimeKV.Entry(t, s.now)];
    var s2 := With(s, t, Call(Stored, [], s.now, Unsent, None)).(table := table);
    On(s, s1, Store(t), s2);
    On(s, s2, Push(t), With(s, t, Call(Waiting, [], s.now, Request(RollingId(t)), None)).(table := table));
  }

  /** A request that the device has can be answered with any body. */
  lemma RequestCanBeAnswered(s: State, t: nat, b: Bytes)
    requires t in s.calls && s.calls[t].message.Request?
    ensures var c := s.calls[t].(message := Answered(s.calls[t].message.id, b), said := Some(b));
      Reaches(s, s.(calls := s.calls[t := c]))
  {
    hide Reaches;
    Here(s);
    On(s, s, Answer(t, b),
       s.(calls := s.calls[t := s.calls[t].(message := Answered(s.calls[t].message.id, b), said := Some(b))]));
  }

  /** A call that waits can always time out and return. */
  lemma CallCanGiveUp(s: State, t: nat)
    requires t in s.calls && s.calls[t].phase.Waiting?
    ensures Reaches(s, s.(calls := s.calls[t := s.calls[t].(phase := Returned(TimedOut))],
                          table := s.table - {RollingId(t)}))
  {
    hide Reaches;
    Here(s);
    var s1 := s.(calls := s.calls[t := s.calls[t].(phase := Leaving(TimedOut))]);
    On(s, s, Expire(t), s1);
    On(s, s1, Return(t),
       s.(calls := s.calls[t := s.calls[t].(phase := Returned(TimedOut))], table := s.table - {RollingId(t)}));
  }

  // ----- every delay within the limit -----

  /** The only call, and the time. */
  function Only(c: Call, now: nat, stored: bool, r: Option<Delivery>): State {
    State(1, map[1 := c], if stored then map[1 := TimeKV.Entry(1, 0)] else map[], r, false, now, None)
  }

  lemma {:induction false} Ticks(s: State, c: Call, lo: nat, hi: nat)
    requires lo <= hi && hi <= 120 && c.since == 0
    requires Reaches(s, Only(c, lo, true, None))
    ensures Reaches(s, Only(c, hi, true, None))
    decreases hi
  {
    hide Reaches;
    if (lo < hi) {
      Ticks(s, c, lo, hi - 1);
      On(s, Only(c, hi - 1, true, None), Tick, Only(c, hi, true, None));
    }
  }

  lemma OnlyWaits()
    ensures Reaches(INIT, Only(Call(Waiting, [], 0, Request(1), None), 0, true, None))
  {
    hide Reaches;
    LowBits(1);
    Here(INIT);
    On(INIT, INIT, Draw, Only(Call(Drawn, [], 0, Unsent, None), 0, false, None));
    On(INIT, Only(Call(Drawn, [], 0, Unsent, None), 0, false, None), Store(1),
       Only(Call(Stored, [], 0, Unsent, None), 0, true, None));
    On(INIT, Only(Call(Stored, [], 0, Unsent, None), 0, true, None), Push(1),
       Only(Call(Waiting, [], 0, Request(1), None), 0, true, None));
  }

  /** For every body and all delays that stay within 120 seconds, before the device answers, on the way back and
      before the caller looks, the body is returned. */
  lemma InTimeSucceeds(b: Bytes, answered: nat, arrived: nat, received: nat)
    requires answered <= arrived <= received <= 120
    ensures Reaches(INIT, Only(Call(Returned(Body(b)), [], 0, HandedOver, Some(b)), received, false, None))
  {
    hide Reaches;
    LowBits(1);
    OnlyWaits();
    var c0 := Call(Waiting, [], 0, Request(1), None);
    Ticks(INIT, c0, 0, answered);
    var c1 := c0.(message := Answered(1, b), said := Some(b));
    On(INIT, Only(c0, answered, true, None), Answer(1, b), Only(c1, answered, true, None));
    Ticks(INIT, c1, answered, arrived);
    var c2 := c1.(message := Read(b));
    On(INIT, Only(c1, arrived, true, None), Arrive(1), Only(c2, arrived, true, Some(Delivery(1, 1))));
    var c3 := c2.(message := HandedOver, inbox := [b]);
    On(INIT, Only(c2, arrived, true, Some(Delivery(1, 1))), Deliver, Only(c3, arrived, true, None));
    Ticks(INIT, c3, arrived, received);
    ReturnsNow(b, received);
  }

  lemma ReturnsNow(b: Bytes, now: nat)
    requires Reaches(INIT, Only(Call(Waiting, [b], 0, HandedOver, Some(b)), now, true, None))
    ensures Reaches(INIT, Only(Call(Returned(Body(b)), [], 0, HandedOver, Some(b)), now, false, None))
  {
    hide Reaches;
    LowBits(1);
    var c3 := Call(Waiting, [b], 0, HandedOver, Some(b));
    var c4 := c3.(inbox := [], phase := Leaving(Body(b)));
    On(INIT, Only(c3, now, true, None), Receive(1), Only(c4, now, true, None));
    On(INIT, Only(c4, now, true, None), Return(1), Only(c4.(phase := Returned(Body(b))), now, false, None));
  }

  // ----- the clock and the sweep -----

  function Seconds(acts: seq<Action>): nat {
    if acts == [] then 0 else Seconds(acts[1..]) + if acts[0].Tick? then 1 else 0
  }

  lemma StepClock(s: State, a: Action)
    requires Enabled(s, a)
    ensures Apply(s, a).now == s.now + if a.Tick? then 1 else 0
  {
  }

  /** The clock shows the ticks of the run, and a tick is always possible. */
  lemma {:induction false} ClockIsHistory(s: State, acts: seq<Action>)
    requires Runs(s, acts)
    ensures Final(s, acts).now == s.now + Seconds(acts) && Enabled(Final(s, acts), Tick)
    decreases |acts|
  {
    if acts != [] {
      StepClock(s, acts[0]);
      ClockIsHistory(Apply(s, acts[0]), acts[1..]);
    }
  }

  /** A sweep that comes to an entry evicts it, and nothing else, if and only if it is more than 120 seconds old. */
  lemma SweepEvictsTheOld(s: State, id: uint16)
    requires s.sweep.None? && id in s.table && s.now >= s.table[id].storeTime
    ensures Enabled(s, SweepRead(id))
    ensures var s1 := Apply(s, SweepRead(id));
      if s.now - s.table[id].storeTime > 120
      then Enabled(s1, SweepDelete) && Apply(s1, SweepDelete) == s.(table := s.table - {id})
      else s1 == s
  {
  }
}
