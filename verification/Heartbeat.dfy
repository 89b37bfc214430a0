/** The heartbeat between a live device and the server's check timer, in discrete time.

    The device's ticker is reset whenever its writer takes a message off the outgoing queue, and its tick only
    puts a ping on that queue; the server's timer is reset when a message arrives.
    (devicesession.go and session.go) */
module Heartbeat {
  import opened Types

  const HEARTBEAT_MIN := 30
  const HEARTBEAT_MAX := 43200

  /** `heartbeat + heartbeat >> 1` in 16 bits: the seconds after which the server gives the device up. */
  function CheckSeconds(heartbeat: uint16): uint16 {
    (heartbeat + heartbeat / 2) % 0x1_0000
  }

  /** The sum wraps for no interval that a device may set, and for which it would. */
  lemma CheckSecondsExact(heartbeat: uint16)
    ensures CheckSeconds(heartbeat) == heartbeat + heartbeat / 2 <==> heartbeat <= 43690
    ensures heartbeat <= HEARTBEAT_MAX ==> CheckSeconds(heartbeat) == heartbeat + heartbeat / 2
  {
  }

  /** The interval, the longest time a message waits in the outgoing queue, and how much later than the
      fastest message any other message arrives.  The server's clock is read as late by the fastest transit. */
  datatype Timing = Timing(heartbeat: uint16, maxQueue: nat, jitter: nat)

  datatype State = State(
    now: nat, tickAt: nat, queue: seq<nat>, wire: seq<nat>, fireAt: Option<nat>, fired: bool,
    lastOut: nat, lastIn: nat)

  /** The device has just sent the ping that sets the interval. */
  function Init(p: Timing): State {
    State(0, p.heartbeat, [], [0], None, false, 0, 0)
  }

  datatype Action = Wait(d: nat) | Tick | Send | Transmit | Receive | Fire

  predicate Enabled(p: Timing, s: State, a: Action) {
    match a
    case Wait(d) =>
      && s.now + d <= s.tickAt
      && (s.queue != [] ==> s.now + d <= s.queue[0] + p.maxQueue)
      && (s.wire != [] ==> s.now + d <= s.wire[0] + p.jitter)
    case Tick => s.now == s.tickAt
    case Send => true
    case Transmit => s.queue != []
    case Receive => s.wire != []
    case Fire => s.fireAt.Some? && s.now >= s.fireAt.value
  }

  function Apply(p: Timing, s: State, a: Action): State
    requires Enabled(p, s, a)
  {
    match a
    case Wait(d) => s.(now := s.now + d)
    case Tick => s.(queue := s.queue + [s.now], tickAt := s.now + p.heartbeat)
    case Send => s.(queue := s.queue + [s.now])
    case Transmit =>
      s.(queue := s.queue[1..], wire := s.wire + [s.now], tickAt := s.now + p.heartbeat, lastOut := s.now)
    case Receive =>
      s.(wire := s.wire[1..], fireAt := Some(s.now + CheckSeconds(p.heartbeat)), lastIn := s.wire[0])
    case Fire => s.(fired := true)
  }

  predicate Runs(p: Timing, s: State, acts: seq<Action>)
    decreases |acts|
  {
    acts == [] || (Enabled(p, s, acts[0]) && Runs(p, Apply(p, s, acts[0]), acts[1..]))
  }

  function Final(p: Timing, s: State, acts: seq<Action>): State
    requires Runs(p, s, acts)
    decreases |acts|
  {
    if acts == [] then s else Final(p, Apply(p, s, acts[0]), acts[1..])
  }

  /** The timer never fires on a live device. */
  ghost predicate NeverFires(p: Timing) {
    forall acts :: Runs(p, Init(p), acts) ==> !Final(p, Init(p), acts).fired
  }

  /** The server arms its timer for the interval that was set. */
  predicate Allowed(p: Timing) {
    HEARTBEAT_MIN <= p.heartbeat <= HEARTBEAT_MAX
  }

  // ----- the invariant -----

  /** Consecutive messages leave the device at most one interval and one queue wait apart. */
  predicate Chained(p: Timing, s: State) {
    && (s.wire == [] ==> s.lastIn == s.lastOut)
    && (s.wire != [] ==> s.wire[|s.wire| - 1] == s.lastOut)
    && (s.wire != [] && s.fireAt.Some? ==> s.wire[0] <= s.lastIn + p.heartbeat + p.maxQueue)
    && forall i :: 0 < i < |s.wire| ==> s.wire[i] <= s.wire[i - 1] + p.heartbeat + p.maxQueue
  }

  predicate Prompt(p: Timing, s: State) {
    && s.lastOut <= s.now <= s.tickAt
    && (s.queue == [] ==> s.tickAt == s.lastOut + p.heartbeat)
    && (s.queue != [] ==> s.queue[0] <= s.lastOut + p.heartbeat && s.now <= s.queue[0] + p.maxQueue)
    && (forall i :: 0 <= i < |s.queue| ==> s.queue[i] <= s.now)
    && (forall i, j :: 0 <= i < j < |s.queue| ==> s.queue[i] <= s.queue[j])
    && (s.wire != [] ==> s.now <= s.wire[0] + p.jitter)
    && (forall i, j :: 0 <= i < j < |s.wire| ==> s.wire[i] <= s.wire[j])
  }

  predicate Armed(p: Timing, s: State) {
    && !s.fired
    && (s.fireAt.None? ==> s.wire != [])
    && (s.fireAt.Some? ==> s.fireAt.value >= s.lastIn + p.heartbeat + p.heartbeat / 2)
  }

  predicate Inv(p: Timing, s: State) {
    Chained(p, s) && Prompt(p, s) && Armed(p, s)
  }

  lemma NotYet(p: Timing, s: State)
    requires Inv(p, s) && p.maxQueue + p.jitter < p.heartbeat / 2
    ensures !Enabled(p, s, Fire)
  {
  }

  lemma StepQueue(p: Timing, s: State, a: Action)
    requires Inv(p, s) && Enabled(p, s, a) && (a.Tick? || a.Send? || a.Wait?)
    ensures Inv(p, Apply(p, s, a))
  {
  }

  lemma StepTransmit(p: Timing, s: State)
    requires Inv(p, s) && Enabled(p, s, Transmit)
    ensures Inv(p, Apply(p, s, Transmit))
  {
  }

  lemma StepReceive(p: Timing, s: State)
    requires Allowed(p) && Inv(p, s) && Enabled(p, s, Receive)
    ensures Inv(p, Apply(p, s, Receive))
  {
    CheckSecondsExact(p.heartbeat);
  }

  lemma StepKeepsInv(p: Timing, s: State, a: Action)
    requires Allowed(p) && p.maxQueue + p.jitter < p.heartbeat / 2
    requires Inv(p, s) && Enabled(p, s, a)
    ensures Inv(p, Apply(p, s, a))
  {
    hide Inv;
    if a.Transmit? {
      StepTransmit(p, s);
    } else if a.Receive? {
      StepReceive(p, s);
    } else if a.Fire? {
      NotYet(p, s);
    } else {
      StepQueue(p, s, a);
    }
  }

  lemma {:induction false} RunKeepsInv(p: Timing, s: State, acts: seq<Action>)
    requires Allowed(p) && p.maxQueue + p.jitter < p.heartbeat / 2
    requires Inv(p, s) && Runs(p, s, acts)
    ensures Inv(p, Final(p, s, acts))
    decreases |acts|
  {
    if acts != [] {
      StepKeepsInv(p, s, acts[0]);
      RunKeepsInv(p, Apply(p, s, acts[0]), acts[1..]);
    }
  }

  /** In every run the device's next ping is due exactly one interval after its last message, unless something waits
      in the queue. */
  lemma PingIsDue(p: Timing, acts: seq<Action>)
    requires Allowed(p) && p.maxQueue + p.jitter < p.heartbeat / 2 && Runs(p, Init(p), acts)
    ensures var s := Final(p, Init(p), acts); s.queue == [] ==> s.tickAt == s.lastOut + p.heartbeat
  {
    RunKeepsInv(p, Init(p), acts);
  }

  lemma ThreeSteps(p: Timing, s: State, a: Action, b: Action, c: Action)
    requires Enabled(p, s, a) && Enabled(p, Apply(p, s, a), b) && Enabled(p, Apply(p, Apply(p, s, a), b), c)
    ensures Runs(p, s, [a, b, c]) && Final(p, s, [a, b, c]) == Apply(p, Apply(p, Apply(p, s, a), b), c)
  {
    var s1, s2 := Apply(p, s, a), Apply(p, Apply(p, s, a), b);
    OneMore(p, s2, c, []);
    OneMore(p, s1, b, [c]);
    OneMore(p, s, a, [b, c]);
    assert [c] + [] == [c] && [b] + [c] == [b, c] && [a] + [b, c] == [a, b, c];
  }

  /** In any state with nothing under way, a message can go through at once; it puts the next ping off by an interval
      and the server's timer off by one and a half. */
  lemma MessageResets(p: Timing, s: State)
    requires Allowed(p) && s.queue == [] == s.wire
    ensures var acts := [Send, Transmit, Receive];
      && Runs(p, s, acts)
      && Final(p, s, acts) == s.(tickAt := s.now + p.heartbeat, lastOut := s.now, lastIn := s.now,
                                 fireAt := Some(s.now + p.heartbeat + p.heartbeat / 2))
  {
    CheckSecondsExact(p.heartbeat);
    ThreeSteps(p, s, Send, Transmit, Receive);
  }

  /** Messages leave and arrive in order, whatever else is under way; each one that leaves puts the next ping off, and
      each one that arrives puts the server's timer off. */
  lemma InOrder(p: Timing, s: State)
    requires Allowed(p)
    ensures s.queue != [] ==>
      var s' := Apply(p, s, Transmit);
      && s'.queue == s.queue[1..] && s'.wire == s.wire + [s.now]
      && s'.tickAt == s.now + p.heartbeat && s'.fireAt == s.fireAt
    ensures s.wire != [] ==>
      var s' := Apply(p, s, Receive);
      s'.wire == s.wire[1..] && s'.fireAt == Some(s.now + p.heartbeat + p.heartbeat / 2) && s'.tickAt == s.tickAt
  {
    CheckSecondsExact(p.heartbeat);
  }

  /** With nothing under way the clock runs on until the next ping is due. */
  lemma TimePasses(p: Timing, s: State, d: nat)
    requires s.queue == [] == s.wire
    ensures Enabled(p, s, Wait(d)) <==> s.now + d <= s.tickAt
    ensures s.now + d <= s.tickAt ==> Apply(p, s, Wait(d)) == s.(now := s.now + d)
  {
  }

  /** And so does a ping when it is due. */
  lemma PingResets(p: Timing, s: State)
    requires Allowed(p) && s.queue == [] == s.wire && s.now == s.tickAt
    ensures var acts := [Tick, Transmit, Receive];
      && Runs(p, s, acts)
      && Final(p, s, acts) == s.(tickAt := s.now + p.heartbeat, lastOut := s.now, lastIn := s.now,
                                 fireAt := Some(s.now + p.heartbeat + p.heartbeat / 2))
  {
    CheckSecondsExact(p.heartbeat);
    ThreeSteps(p, s, Tick, Transmit, Receive);
  }

  // ----- a run on which the timer fires -----

  lemma OneMore(p: Timing, s: State, a: Action, rest: seq<Action>)
    requires Enabled(p, s, a) && Runs(p, Apply(p, s, a), rest)
    ensures Runs(p, s, [a] + rest) && Final(p, s, [a] + rest) == Final(p, Apply(p, s, a), rest)
  {
    assert ([a] + rest)[1..] == rest;
  }

  ghost predicate CanFire(p: Timing, s: State) {
    exists acts :: Runs(p, s, acts) && Final(p, s, acts).fired
  }

  lemma Before(p: Timing, s: State, a: Action)
    requires Enabled(p, s, a) && CanFire(p, Apply(p, s, a))
    ensures CanFire(p, s)
  {
    var acts :| Runs(p, Apply(p, s, a), acts) && Final(p, Apply(p, s, a), acts).fired;
    OneMore(p, s, a, acts);
  }

  lemma FireNow(p: Timing, s: State)
    requires Enabled(p, s, Fire)
    ensures CanFire(p, s)
  {
    assert Runs(p, Apply(p, s, Fire), []);
    assert Final(p, Apply(p, s, Fire), []).fired;
    Before(p, s, Fire);
  }

  /** The first message arrives at once, the next one is a ping that waits as long as it can. */
  lemma SlowPing(p: Timing)
    requires Allowed(p) && p.maxQueue + p.jitter >= p.heartbeat / 2
    ensures CanFire(p, Init(p))
  {
    CheckSecondsExact(p.heartbeat);
    var check := p.heartbeat + p.heartbeat / 2;
    var s1 := Apply(p, Init(p), Receive);
    var s2 := Apply(p, s1, Wait(p.heartbeat));
    var s3 := Apply(p, s2, Tick);
    if p.heartbeat / 2 <= p.maxQueue {
      FireNow(p, Apply(p, s3, Wait(p.heartbeat / 2)));
      Before(p, s3, Wait(p.heartbeat / 2));
    } else {
      var s4 := Apply(p, s3, Wait(p.maxQueue));
      var s5 := Apply(p, s4, Transmit);
      FireNow(p, Apply(p, s5, Wait(p.heartbeat / 2 - p.maxQueue)));
      Before(p, s5, Wait(p.heartbeat / 2 - p.maxQueue));
      Before(p, s4, Transmit);
      Before(p, s3, Wait(p.maxQueue));
    }
    Before(p, s2, Tick);
    Before(p, s1, Wait(p.heartbeat));
    Before(p, Init(p), Receive);
  }

  /** For every interval a device may set, the server's 1.5-fold timer never fires on a live device if and only
      if the longest queue wait and the jitter of the network together stay below half an interval. */
  lemma LiveDeviceKept(p: Timing)
    requires Allowed(p)
    ensures NeverFires(p) <==> p.maxQueue + p.jitter < p.heartbeat / 2
  {
    if p.maxQueue + p.jitter < p.heartbeat / 2 {
      forall acts | Runs(p, Init(p), acts)
        ensures !Final(p, Init(p), acts).fired
      {
        RunKeepsInv(p, Init(p), acts);
      }
    } else {
      SlowPing(p);
    }
  }
}
