/** The observation registry of a session: a count and a store that are updated separately by concurrent
    `ObGet` calls.  Each action is one atomic operation of `CreateObserva` or `DestroyObserva`.
    (internal/deviceaccess/access_server/devicetcp/session.go) */
module ObservaRegistry {
  import opened Counting
  import opened Types
  import opened RollingIds

  const OBSERVATIONS_MAX := 256

  /** Where a call is.  Observations are named by the number n of their id draw; Removing(n, v) has taken
      observation v out of the store and still has to close its channel, Closed to decrement the count. */
  datatype Pc = Out | Checked | Drew(n: nat) | Stored(n: nat) | Active(n: nat)
    | Removing(n: nat, victim: nat) | Closed(n: nat)

  datatype State = State(
    count: int, store: map<uint16, nat>, drawn: nat, calls: map<nat, Pc>,
    overwrites: nat, closed: set<nat>, panicked: bool)

  const INIT := State(0, map[], 0, map[], 0, {}, false)

  datatype Action =
    | Check(p: nat) | DrawId(p: nat) | StoreIt(p: nat) | Count(p: nat)
    | Remove(p: nat) | CloseIt(p: nat) | Discount(p: nat)

  function Place(calls: map<nat, Pc>, p: nat): Pc {
    if p in calls then calls[p] else Out
  }

  function At(s: State, p: nat): Pc {
    Place(s.calls, p)
  }

  predicate Enabled(s: State, a: Action) {
    match a
    case Check(p) => At(s, p).Out?
    case DrawId(p) => At(s, p).Checked?
    case StoreIt(p) => At(s, p).Drew?
    case Count(p) => At(s, p).Stored?
    case Remove(p) => At(s, p).Active?
    case CloseIt(p) => At(s, p).Removing?
    case Discount(p) => At(s, p).Closed?
  }

  function Go(s: State, p: nat, pc: Pc): State {
    s.(calls := s.calls[p := pc])
  }

  function Apply(s: State, a: Action): State
    requires Enabled(s, a)
  {
    match a
    case Check(p) => if s.count >= OBSERVATIONS_MAX then s else Go(s, p, Checked)
    case DrawId(p) => Go(s, p, Drew(s.drawn + 1)).(drawn := s.drawn + 1)
    case StoreIt(p) =>
      var n := At(s, p).n;
      var id := RollingId(n);
      Go(s, p, Stored(n)).(store := s.store[id := n],
          overwrites := if id in s.store then s.overwrites + 1 else s.overwrites)
    case Count(p) => Go(s, p, Active(At(s, p).n)).(count := s.count + 1)
    case Remove(p) =>
      var n := At(s, p).n;
      var id := RollingId(n);
      if id in s.store then Go(s, p, Removing(n, s.store[id])).(store := s.store - {id}) else Go(s, p, Out)
    case CloseIt(p) =>
      var v := At(s, p).victim;
      Go(s, p, Closed(At(s, p).n)).(closed := s.closed + {v}, panicked := s.panicked || v in s.closed)
    case Discount(p) => Go(s, p, Out).(count := s.count - 1)
  }

  predicate Runs(s: State, acts: seq<Action>)
    decreases |acts|
  {
    acts == [] || (Enabled(s, acts[0]) && Runs(Apply(s, acts[0]), acts[1..]))
  }

  function Final(s: State, acts: seq<Action>): State
    requires Runs(s, acts)
    decreases |acts|
  {
    if acts == [] then s else Final(Apply(s, acts[0]), acts[1..])
  }

  // ----- counting the calls that are half way -----

  /** Between the check and Add(1); between Store and Add(1); between LoadAndDelete and Add(-1). */
  datatype Half = Creating | Uncounted | Undiscounted

  predicate Is(pc: Pc, h: Half) {
    match h
    case Creating => pc.Checked? || pc.Drew? || pc.Stored?
    case Uncounted => pc.Stored?
    case Undiscounted => pc.Removing? || pc.Closed?
  }

  function Calls(calls: map<nat, Pc>, h: Half): set<nat> {
    set p | p in calls && Is(calls[p], h)
  }

  lemma OthersStay(calls: map<nat, Pc>, p: nat, pc: Pc, h: Half)
    ensures Calls(calls[p := pc], h) - {p} == Calls(calls, h) - {p}
  {
    hide Is;
  }

  lemma Moved(calls: map<nat, Pc>, p: nat, pc: Pc, h: Half)
    ensures |Calls(calls[p := pc], h)| == |Calls(calls, h)| - Bit(Is(Place(calls, p), h)) + Bit(Is(pc, h))
  {
    hide Is;
    OthersStay(calls, p, pc, h);
    Without(Calls(calls, h), p);
    Without(Calls(calls[p := pc], h), p);
    assert Place(calls, p).Out? ==> !Is(Place(calls, p), h) by { OutIsNotHalf(h); }
  }

  lemma OutIsNotHalf(h: Half)
    ensures !Is(Out, h)
  {
  }

  /** Every step but a refused check moves the call that takes it. */
  lemma StepMoves(s: State, a: Action, h: Half)
    requires Enabled(s, a)
    ensures |Calls(Apply(s, a).calls, h)|
         == |Calls(s.calls, h)| - Bit(Is(At(s, a.p), h)) + Bit(Is(At(Apply(s, a), a.p), h))
  {
    var s' := Apply(s, a);
    if a.p in s'.calls {
      Moved(s.calls, a.p, s'.calls[a.p], h);
      assert s'.calls == s.calls || s'.calls == s.calls[a.p := s'.calls[a.p]];
    }
  }

  // ----- conservation -----

  /** The count is the size of the store, corrected by the entries that were overwritten and by the calls that
      are half way through creating or destroying. */
  predicate Conserved(s: State) {
    s.count == |s.store| + s.overwrites - |Calls(s.calls, Uncounted)| + |Calls(s.calls, Undiscounted)|
  }

  lemma StepConserves(s: State, a: Action)
    requires Conserved(s) && Enabled(s, a)
    ensures Conserved(Apply(s, a))
  {
    StepMoves(s, a, Uncounted);
    StepMoves(s, a, Undiscounted);
    if a.Remove? {
      var id := RollingId(At(s, a.p).n);
      assert id in s.store ==> |s.store - {id}| == |s.store| - 1;
    }
  }

  lemma {:induction false} RunConserves(s: State, acts: seq<Action>)
    requires Conserved(s) && Runs(s, acts)
    ensures Conserved(Final(s, acts))
    decreases |acts|
  {
    if acts != [] {
      StepConserves(s, acts[0]);
      RunConserves(Apply(s, acts[0]), acts[1..]);
    }
  }

  lemma CountConserved(acts: seq<Action>)
    requires Runs(INIT, acts)
    ensures Conserved(Final(INIT, acts))
  {
    assert Calls(INIT.calls, Uncounted) == {} && Calls(INIT.calls, Undiscounted) == {};
    RunConserves(INIT, acts);
  }

  /** No creator takes an id that is still in the store. */
  predicate NoReuse(s: State, acts: seq<Action>)
    requires Runs(s, acts)
    decreases |acts|
  {
    acts == []
    || ((acts[0].StoreIt? ==> RollingId(At(s, acts[0].p).n) !in s.store) && NoReuse(Apply(s, acts[0]), acts[1..]))
  }

  lemma {:induction false} Overwrites(s: State, acts: seq<Action>)
    requires Runs(s, acts)
    ensures Final(s, acts).overwrites >= s.overwrites
    ensures Final(s, acts).overwrites == s.overwrites <==> NoReuse(s, acts)
    decreases |acts|
  {
    if acts != [] { Overwrites(Apply(s, acts[0]), acts[1..]); }
  }

  /** Whenever no call is half way, count and store agree if and only if no live id was ever taken again. */
  lemma QuiescentCount(acts: seq<Action>)
    requires Runs(INIT, acts)
    requires Calls(Final(INIT, acts).calls, Uncounted) == {} == Calls(Final(INIT, acts).calls, Undiscounted)
    ensures Final(INIT, acts).count == |Final(INIT, acts).store| <==> NoReuse(INIT, acts)
  {
    CountConserved(acts);
    Overwrites(INIT, acts);
  }

  // ----- teardown -----

  predicate Named(pc: Pc) {
    !pc.Out? && !pc.Checked?
  }

  /** No two calls share an observation, and only drawn observations exist. */
  ghost predicate NamesOk(s: State) {
    && (forall p :: p in s.calls && Named(s.calls[p]) ==> s.calls[p].n <= s.drawn)
    && (forall p, q :: p in s.calls && q in s.calls && p != q && Named(s.calls[p]) && Named(s.calls[q]) ==>
          s.calls[p].n != s.calls[q].n)
  }

  /** Observation n was stored at some time. */
  ghost predicate Old(s: State, n: nat) {
    n <= s.drawn && forall p :: p in s.calls && s.calls[p].Drew? ==> s.calls[p].n != n
  }

  /** Stored observations are open and under their own id. */
  ghost predicate StoreOk(s: State) {
    forall id :: id in s.store ==> Old(s, s.store[id]) && RollingId(s.store[id]) == id && s.store[id] !in s.closed
  }

  /** An observation that a call has taken out of the store is open, and no one else has it. */
  ghost predicate VictimsOk(s: State) {
    && (forall p :: p in s.calls && s.calls[p].Removing? ==>
          Old(s, s.calls[p].victim) && s.calls[p].victim !in s.closed
          && !(RollingId(s.calls[p].victim) in s.store && s.store[RollingId(s.calls[p].victim)] == s.calls[p].victim))
    && (forall p, q :: p in s.calls && q in s.calls && p != q && s.calls[p].Removing? && s.calls[q].Removing? ==>
          s.calls[p].victim != s.calls[q].victim)
  }

  ghost predicate ClosedOk(s: State) {
    !s.panicked && forall n :: n in s.closed ==> Old(s, n)
  }

  ghost predicate Inv(s: State) {
    NamesOk(s) && StoreOk(s) && VictimsOk(s) && ClosedOk(s)
  }

  lemma OldStaysOld(s: State, a: Action, n: nat)
    requires Enabled(s, a) && Old(s, n)
    ensures Old(Apply(s, a), n)
  {
  }

  lemma StepNamesBelow(s: State, a: Action)
    requires NamesOk(s) && Enabled(s, a)
    ensures forall p :: p in Apply(s, a).calls && Named(Apply(s, a).calls[p]) ==>
      Apply(s, a).calls[p].n <= Apply(s, a).drawn
  {
  }

  lemma StepNamesApart(s: State, a: Action, p: nat, q: nat)
    requires NamesOk(s) && Enabled(s, a) && p != q && p in Apply(s, a).calls && q in Apply(s, a).calls
    requires Named(Apply(s, a).calls[p]) && Named(Apply(s, a).calls[q])
    ensures Apply(s, a).calls[p].n != Apply(s, a).calls[q].n
  {
  }

  lemma StepNames(s: State, a: Action)
    requires NamesOk(s) && Enabled(s, a)
    ensures NamesOk(Apply(s, a))
  {
    hide Enabled, Apply;
    var s' := Apply(s, a);
    StepNamesBelow(s, a);
    forall p, q | p in s'.calls && q in s'.calls && p != q && Named(s'.calls[p]) && Named(s'.calls[q])
      ensures s'.calls[p].n != s'.calls[q].n
    {
      StepNamesApart(s, a, p, q);
    }
  }

  lemma StepStore(s: State, a: Action)
    requires Inv(s) && Enabled(s, a)
    ensures StoreOk(Apply(s, a))
  {
    forall id | id in s.store ensures Old(Apply(s, a), s.store[id]) { OldStaysOld(s, a, s.store[id]); }
  }

  lemma StepVictims(s: State, a: Action)
    requires Inv(s) && Enabled(s, a)
    ensures VictimsOk(Apply(s, a))
  {
    forall p | p in s.calls && s.calls[p].Removing? ensures Old(Apply(s, a), s.calls[p].victim) {
      OldStaysOld(s, a, s.calls[p].victim);
    }
    if a.Remove? && RollingId(At(s, a.p).n) in s.store { OldStaysOld(s, a, s.store[RollingId(At(s, a.p).n)]); }
  }

  lemma StepClosed(s: State, a: Action)
    requires Inv(s) && Enabled(s, a)
    ensures ClosedOk(Apply(s, a))
  {
    forall n | n in s.closed ensures Old(Apply(s, a), n) { OldStaysOld(s, a, n); }
    if a.CloseIt? { OldStaysOld(s, a, At(s, a.p).victim); }
  }

  /** Whatever the interleaving, and even if ids are reused, no NotifyChan is closed twice. */
  lemma ClosedAtMostOnce(acts: seq<Action>)
    requires Runs(INIT, acts)
    ensures !Final(INIT, acts).panicked
  {
    RunKeepsInv(INIT, acts);
  }

  lemma {:induction false} RunKeepsInv(s: State, acts: seq<Action>)
    requires Inv(s) && Runs(s, acts)
    ensures Inv(Final(s, acts))
    decreases |acts|
  {
    if acts != [] {
      StepNames(s, acts[0]);
      StepStore(s, acts[0]);
      StepVictims(s, acts[0]);
      StepClosed(s, acts[0]);
      RunKeepsInv(Apply(s, acts[0]), acts[1..]);
    }
  }

  /** Every observation whose call is under way is in the store. */
  ghost predicate Present(s: State) {
    forall p :: p in s.calls && (s.calls[p].Stored? || s.calls[p].Active?) ==>
      RollingId(s.calls[p].n) in s.store && s.store[RollingId(s.calls[p].n)] == s.calls[p].n
  }

  lemma StepPresent(s: State, a: Action)
    requires NamesOk(s) && Present(s) && Enabled(s, a)
    requires a.StoreIt? ==> RollingId(At(s, a.p).n) !in s.store
    ensures Present(Apply(s, a))
  {
  }

  /** If no live id is reused, a call always finds its own observation, so the entry it removes is its own. */
  lemma RemovesItsOwn(acts: seq<Action>, p: nat)
    requires Runs(INIT, acts) && NoReuse(INIT, acts) && At(Final(INIT, acts), p).Active?
    ensures var n := At(Final(INIT, acts), p).n; At(Apply(Final(INIT, acts), Remove(p)), p) == Removing(n, n)
  {
    RunKeepsPresent(INIT, acts);
  }

  lemma {:induction false} RunKeepsPresent(s: State, acts: seq<Action>)
    requires NamesOk(s) && Present(s) && Runs(s, acts) && NoReuse(s, acts)
    ensures Present(Final(s, acts))
    decreases |acts|
  {
    if acts != [] {
      StepNames(s, acts[0]);
      StepPresent(s, acts[0]);
      RunKeepsPresent(Apply(s, acts[0]), acts[1..]);
    }
  }

  // ----- what a create and a destroy do, in any state -----

  lemma RunOfThree(s: State, a: Action, b: Action, c: Action)
    requires Enabled(s, a) && Enabled(Apply(s, a), b) && Enabled(Apply(Apply(s, a), b), c)
    ensures Runs(s, [a, b, c]) && Final(s, [a, b, c]) == Apply(Apply(Apply(s, a), b), c)
  {
    hide Enabled, Apply;
    var s1, s2 := Apply(s, a), Apply(Apply(s, a), b);
    assert [a, b, c][1..] == [b, c] && [b, c][1..] == [c] && [c][1..] == [];
    assert Runs(Apply(s2, c), []);
    assert Runs(s2, [c]) && Final(s2, [c]) == Apply(s2, c);
    assert Runs(s1, [b, c]) && Final(s1, [b, c]) == Apply(s2, c);
  }

  /** The check lets a call through if and only if fewer than 256 observations are counted, and changes nothing
      else. */
  lemma CheckIsExact(s: State, p: nat)
    requires At(s, p).Out?
    ensures Enabled(s, Check(p))
    ensures Apply(s, Check(p)) == if s.count < 256 then s.(calls := s.calls[p := Checked]) else s
  {
  }

  /** In any state, a call that has passed the check can go on to create the next observation: it is stored under
      its id and counted. */
  lemma CreateWorks(s: State, p: nat)
    requires At(s, p).Checked?
    ensures var acts := [DrawId(p), StoreIt(p), Count(p)]; var n := s.drawn + 1;
      && Runs(s, acts)
      && Final(s, acts).count == s.count + 1 && Final(s, acts).drawn == n
      && Final(s, acts).store == s.store[(n % 0x1_0000) as uint16 := n]
      && Final(s, acts).calls == s.calls[p := Active(n)] && Final(s, acts).closed == s.closed
      && Final(s, acts).overwrites == s.overwrites + if (n % 0x1_0000) as uint16 in s.store then 1 else 0
  {
    LowBits(s.drawn + 1);
    RunOfThree(s, DrawId(p), StoreIt(p), Count(p));
  }

  /** In any state, a call whose id is in the store can go on to destroy what is stored there: it is removed, closed
      and discounted, and the server panics exactly if it had been closed before. */
  lemma DestroyWorks(s: State, p: nat)
    requires At(s, p).Active? && RollingId(At(s, p).n) in s.store
    ensures var acts := [Remove(p), CloseIt(p), Discount(p)]; var id := RollingId(At(s, p).n);
      && Runs(s, acts)
      && Final(s, acts).count == s.count - 1 && Final(s, acts).drawn == s.drawn
      && Final(s, acts).store == s.store - {id} && Final(s, acts).closed == s.closed + {s.store[id]}
      && Final(s, acts).calls == s.calls[p := Out] && Final(s, acts).overwrites == s.overwrites
      && (Final(s, acts).panicked <==> s.panicked || s.store[id] in s.closed)
  {
    RunOfThree(s, Remove(p), CloseIt(p), Discount(p));
  }

  // ----- the limit -----

  /** At most k calls are ever between the check and the increment. */
  predicate AtMostCreating(s: State, acts: seq<Action>, k: nat)
    requires Runs(s, acts)
    decreases |acts|
  {
    |Calls(s.calls, Creating)| <= k && (acts == [] || AtMostCreating(Apply(s, acts[0]), acts[1..], k))
  }

  /** With at most k concurrent creators the count never exceeds 255 + k, creators included. */
  lemma {:induction false} LimitUnderConcurrency(s: State, acts: seq<Action>, k: nat)
    requires Runs(s, acts) && AtMostCreating(s, acts, k)
    requires s.count + |Calls(s.calls, Creating)| <= OBSERVATIONS_MAX - 1 + k
    ensures Final(s, acts).count + |Calls(Final(s, acts).calls, Creating)| <= OBSERVATIONS_MAX - 1 + k
    decreases |acts|
  {
    if acts != [] {
      StepMoves(s, acts[0], Creating);
      LimitUnderConcurrency(Apply(s, acts[0]), acts[1..], k);
    }
  }

  /** So when creation is serialised the limit of 256 observations holds. */
  lemma LimitWhenSerialised(acts: seq<Action>)
    requires Runs(INIT, acts) && AtMostCreating(INIT, acts, 1)
    ensures Final(INIT, acts).count <= OBSERVATIONS_MAX
  {
    assert Calls(INIT.calls, Creating) == {};
    LimitUnderConcurrency(INIT, acts, 1);
  }

  // ----- the limit is exceeded by concurrent creators -----

  /** The run leads to s, with w calls between check and increment, and there were never more than k. */
  ghost predicate Leads(acts: seq<Action>, s: State, k: nat, w: nat) {
    && Runs(INIT, acts) && Final(INIT, acts) == s && AtMostCreating(INIT, acts, k)
    && |Calls(s.calls, Creating)| == w
  }

  ghost predicate Reached(s: State, k: nat, w: nat) {
    exists acts :: Leads(acts, s, k, w)
  }

  lemma {:induction false} RunThenStep(s: State, acts: seq<Action>, a: Action, k: nat)
    requires Runs(s, acts) && AtMostCreating(s, acts, k) && Enabled(Final(s, acts), a)
    requires |Calls(Apply(Final(s, acts), a).calls, Creating)| <= k
    ensures Runs(s, acts + [a]) && Final(s, acts + [a]) == Apply(Final(s, acts), a)
    ensures AtMostCreating(s, acts + [a], k)
    decreases |acts|
  {
    hide Enabled, Apply, Calls;
    if acts == [] {
      assert acts + [a] == [a] && [a][1..] == [];
    } else {
      RunThenStep(Apply(s, acts[0]), acts[1..], a, k);
      assert (acts + [a])[1..] == acts[1..] + [a];
    }
  }

  lemma Onward(s: State, a: Action, k: nat, w: nat, w': nat)
    requires Reached(s, k, w) && Enabled(s, a) && w' <= k
    requires w' == w - Bit(Is(At(s, a.p), Creating)) + Bit(Is(At(Apply(s, a), a.p), Creating))
    ensures Reached(Apply(s, a), k, w')
  {
    hide Enabled, Apply, Calls, Is;
    var acts :| Leads(acts, s, k, w);
    StepMoves(s, a, Creating);
    RunThenStep(INIT, acts, a, k);
    assert Leads(acts + [a], Apply(s, a), k, w');
  }

  /** The observation stored under an id that was drawn for the first time. */
  function FirstUse(id: uint16): nat {
    id
  }

  /** c calls have created observations 1 to c, and calls c + 1 to c + w have passed the check. */
  function Crowd(c: nat, w: nat): State
    requires c + w < ID_SPACE
  {
    State(c, map id: uint16 | 1 <= id <= c :: FirstUse(id), c,
          map p: nat | 1 <= p <= c + w :: if p <= c then Active(p) else Checked, 0, {}, false)
  }

  lemma CheckOne(c: nat, w: nat, k: nat)
    requires c < OBSERVATIONS_MAX && c + w + 1 < ID_SPACE && w < k && Reached(Crowd(c, w), k, w)
    ensures Reached(Crowd(c, w + 1), k, w + 1)
  {
    hide Reached;
    Onward(Crowd(c, w), Check(c + w + 1), k, w, w + 1);
    assert Apply(Crowd(c, w), Check(c + w + 1)).calls == Crowd(c, w + 1).calls;
  }

  /** The crowd with call c + 1 at the given place; `stored` says whether it has stored its observation. */
  function Creator(c: nat, w: nat, pc: Pc, stored: bool): State
    requires 0 < w && c + w < ID_SPACE
  {
    var s := Crowd(c, w);
    s.(drawn := c + 1, calls := s.calls[c + 1 := pc],
       store := if stored then s.store[RollingId(c + 1) := c + 1] else s.store)
  }

  lemma DrawOne(c: nat, w: nat, k: nat)
    requires 0 < w <= k && c + w < ID_SPACE && Reached(Crowd(c, w), k, w)
    ensures Reached(Creator(c, w, Drew(c + 1), false), k, w)
  {
    hide Reached;
    Onward(Crowd(c, w), DrawId(c + 1), k, w, w);
    assert Apply(Crowd(c, w), DrawId(c + 1)) == Creator(c, w, Drew(c + 1), false);
  }

  lemma StoreOne(c: nat, w: nat, k: nat)
    requires 0 < w <= k && c + w < ID_SPACE && Reached(Crowd(c, w), k, w)
    ensures Reached(Creator(c, w, Stored(c + 1), true), k, w)
  {
    hide Reached, Crowd;
    var s := Creator(c, w, Drew(c + 1), false);
    DrawOne(c, w, k);
    LowBits(c + 1);
    assert RollingId(c + 1) !in s.store by { NotYetStored(c, w); }
    Onward(s, StoreIt(c + 1), k, w, w);
    Overtyped(Crowd(c, w).calls, c + 1, Drew(c + 1), Stored(c + 1));
    CrowdOverwrites(c, w);
  }

  lemma NotYetStored(c: nat, w: nat)
    requires 0 < w && c + w < ID_SPACE
    ensures RollingId(c + 1) !in Crowd(c, w).store
  {
    LowBits(c + 1);
  }

  lemma CrowdOverwrites(c: nat, w: nat)
    requires c + w < ID_SPACE
    ensures Crowd(c, w).overwrites == 0
  {
  }

  lemma Overtyped(m: map<nat, Pc>, p: nat, x: Pc, y: Pc)
    ensures m[p := x][p := y] == m[p := y]
  {
  }

  lemma FinishOne(c: nat, w: nat, k: nat)
    requires 0 < w <= k && c + w < ID_SPACE && Reached(Crowd(c, w), k, w)
    ensures Reached(Crowd(c + 1, w - 1), k, w - 1)
  {
    hide Reached;
    StoreOne(c, w, k);
    var s := Creator(c, w, Stored(c + 1), true);
    Onward(s, Count(c + 1), k, w, w - 1);
    CrowdGrows(c, w);
    assert Apply(s, Count(c + 1)).calls == Crowd(c + 1, w - 1).calls;
  }

  lemma CrowdGrows(c: nat, w: nat)
    requires 0 < w && c + w < ID_SPACE
    ensures Creator(c, w, Active(c + 1), true).calls == Crowd(c + 1, w - 1).calls
    ensures Creator(c, w, Active(c + 1), true).store == Crowd(c + 1, w - 1).store
  {
    LowBits(c + 1);
  }

  lemma EmptyCrowd(k: nat)
    ensures Reached(Crowd(0, 0), k, 0)
  {
    assert Crowd(0, 0).calls == map[] && Crowd(0, 0).store == map[];
    assert Calls(INIT.calls, Creating) == {};
    assert Leads([], Crowd(0, 0), k, 0);
  }

  /** Observations are created one at a time, and then w calls pass the check together. */
  lemma {:induction false} Gather(c: nat, w: nat, k: nat)
    requires c < OBSERVATIONS_MAX && c + w < ID_SPACE && w <= k && 0 < k
    ensures Reached(Crowd(c, w), k, w)
    decreases c, w
  {
    hide Reached;
    if w > 0 {
      Gather(c, w - 1, k);
      CheckOne(c, w - 1, k);
    } else if c > 0 {
      Gather(c - 1, 1, k);
      FinishOne(c - 1, 1, k);
    } else {
      EmptyCrowd(k);
    }
  }

  lemma {:induction false} FinishAll(c: nat, w: nat, k: nat)
    requires c + w < ID_SPACE && w <= k && Reached(Crowd(c, w), k, w)
    ensures Reached(Crowd(c + w, 0), k, 0)
    decreases w
  {
    hide Reached;
    if w > 0 {
      FinishOne(c, w, k);
      FinishAll(c + 1, w - 1, k);
    }
  }

  /** The bound is met: some run with never more than k creators ends with 255 + k observations. */
  lemma LimitExceeded(k: nat)
    requires 0 < k && OBSERVATIONS_MAX - 1 + k < ID_SPACE
    ensures exists acts ::
      && Runs(INIT, acts) && AtMostCreating(INIT, acts, k)
      && Final(INIT, acts).count == |Final(INIT, acts).store| == OBSERVATIONS_MAX - 1 + k
  {
    var n := OBSERVATIONS_MAX - 1 + k;
    Gather(OBSERVATIONS_MAX - 1, k, k);
    FinishAll(OBSERVATIONS_MAX - 1, k, k);
    CrowdSize(n);
    var acts :| Leads(acts, Crowd(n, 0), k, 0);
    assert Runs(INIT, acts) && AtMostCreating(INIT, acts, k) && Final(INIT, acts).count == n;
  }

  lemma {:induction false} FewerCreators(s: State, acts: seq<Action>, j: nat, k: nat)
    requires Runs(s, acts) && AtMostCreating(s, acts, j) && j <= k
    ensures AtMostCreating(s, acts, k)
    decreases |acts|
  {
    if acts != [] { FewerCreators(Apply(s, acts[0]), acts[1..], j, k); }
  }

  /** Every run with at most k concurrent creators stays within the limit. */
  ghost predicate LimitHolds(k: nat) {
    forall acts :: Runs(INIT, acts) && AtMostCreating(INIT, acts, k) ==> Final(INIT, acts).count <= 256
  }

  /** The limit of 256 observations holds if and only if creation is serialised. */
  lemma LimitIffSerialised(k: nat)
    ensures LimitHolds(k) <==> k <= 1
  {
    if k <= 1 {
      forall acts | Runs(INIT, acts) && AtMostCreating(INIT, acts, k)
        ensures Final(INIT, acts).count <= OBSERVATIONS_MAX
      {
        FewerCreators(INIT, acts, k, 1);
        LimitWhenSerialised(acts);
      }
    } else {
      LimitExceeded(2);
      var acts :| Runs(INIT, acts) && AtMostCreating(INIT, acts, 2) && Final(INIT, acts).count == OBSERVATIONS_MAX + 1;
      FewerCreators(INIT, acts, 2, k);
    }
  }

  lemma {:induction false} CrowdSize(n: nat)
    requires n < ID_SPACE
    ensures |Crowd(n, 0).store| == n
  {
    if n == 0 {
      assert Crowd(0, 0).store == map[];
    } else {
      CrowdSize(n - 1);
      assert Crowd(n, 0).store == Crowd(n - 1, 0).store[n := n];
    }
  }

  // ----- a live id that is taken again -----

  function ClosedTo(m: nat): (s: set<nat>)
    ensures forall n :: n in s ==> 2 <= n <= m
  {
    if m < 2 then {} else ClosedTo(m - 1) + {m}
  }

  function Entries(m: nat, stored: bool): map<uint16, nat> {
    if stored then map[1 := 1][RollingId(m) := m] else map[1 := 1]
  }

  /** Call 1 keeps observation 1; call 2 is at the given place with observation m and has closed those up to c. */
  function Stage(m: nat, pc: Pc, count: int, stored: bool, c: nat): State {
    State(count, Entries(m, stored), m, map[1 := Active(1), 2 := pc], 0, ClosedTo(c), false)
  }

  lemma Stepwise(s: State, a: Action, w: nat, s': State, w': nat)
    requires Reached(s, 2, w) && Enabled(s, a) && w' <= 2
    requires w' == w - Bit(Is(At(s, a.p), Creating)) + Bit(Is(At(Apply(s, a), a.p), Creating))
    requires Apply(s, a).calls == s'.calls && Apply(s, a).store == s'.store && Apply(s, a).closed == s'.closed
    requires s' == Apply(s, a).(calls := s'.calls, store := s'.store, closed := s'.closed)
    ensures Reached(s', 2, w')
  {
    hide Reached, Enabled, Apply, Is;
    Onward(s, a, 2, w, w');
  }

  /** Call 1 alone. */
  function Alone(pc: Pc, count: int, drawn: nat): State {
    var stored := pc.Stored? || pc.Active?;
    State(count, if stored then map[1 := 1] else map[], drawn, map[1 := pc], 0, {}, false)
  }

  lemma FirstDrawn()
    ensures Reached(Alone(Drew(1), 0, 1), 2, 1)
  {
    hide Reached;
    EmptyCrowd(2);
    assert Crowd(0, 0).calls == map[] && Crowd(0, 0).store == map[];
    Stepwise(Crowd(0, 0), Check(1), 0, Alone(Checked, 0, 0), 1);
    Stepwise(Alone(Checked, 0, 0), DrawId(1), 1, Alone(Drew(1), 0, 1), 1);
  }

  lemma FirstKept()
    ensures Reached(Stage(1, Checked, 1, false, 1), 2, 1)
  {
    LowBits(1);
    hide Reached, RollingId;
    FirstDrawn();
    Stepwise(Alone(Drew(1), 0, 1), StoreIt(1), 1, Alone(Stored(1), 0, 1), 1);
    Stepwise(Alone(Stored(1), 0, 1), Count(1), 1, Alone(Active(1), 1, 1), 0);
    Stepwise(Alone(Active(1), 1, 1), Check(2), 0, Stage(1, Checked, 1, false, 1), 1);
  }

  lemma CycleDraws(m: nat)
    requires 0 < m && Reached(Stage(m, Checked, 1, false, m), 2, 1)
    ensures Reached(Stage(m + 1, Drew(m + 1), 1, false, m), 2, 1)
  {
    hide Reached, ClosedTo, RollingId;
    Stepwise(Stage(m, Checked, 1, false, m), DrawId(2), 1, Stage(m + 1, Drew(m + 1), 1, false, m), 1);
  }

  lemma CycleCreates(m: nat)
    requires 0 < m < ID_SPACE && Reached(Stage(m, Checked, 1, false, m), 2, 1)
    ensures Reached(Stage(m + 1, Active(m + 1), 2, true, m), 2, 0)
  {
    CycleDraws(m);
    LowBits(m + 1);
    assert RollingId(m + 1) != 1;
    hide Reached, ClosedTo, RollingId;
    Stepwise(Stage(m + 1, Drew(m + 1), 1, false, m), StoreIt(2), 1, Stage(m + 1, Stored(m + 1), 1, true, m), 1);
    Stepwise(Stage(m + 1, Stored(m + 1), 1, true, m), Count(2), 1, Stage(m + 1, Active(m + 1), 2, true, m), 0);
  }

  lemma CycleTakes(m: nat)
    requires 1 < m <= ID_SPACE && Reached(Stage(m, Active(m), 2, true, m - 1), 2, 0)
    ensures Reached(Stage(m, Removing(m, m), 2, false, m - 1), 2, 0)
  {
    LowBits(m);
    assert RollingId(m) != 1;
    hide Reached, ClosedTo, RollingId;
    Stepwise(Stage(m, Active(m), 2, true, m - 1), Remove(2), 0, Stage(m, Removing(m, m), 2, false, m - 1), 0);
  }

  lemma CycleCloses(m: nat)
    requires 1 < m && Reached(Stage(m, Removing(m, m), 2, false, m - 1), 2, 0)
    ensures Reached(Stage(m, Closed(m), 2, false, m), 2, 0)
  {
    hide Reached, RollingId;
    assert m !in ClosedTo(m - 1);
    Stepwise(Stage(m, Removing(m, m), 2, false, m - 1), CloseIt(2), 0, Stage(m, Closed(m), 2, false, m), 0);
  }

  lemma CycleRemoves(m: nat)
    requires 1 < m <= ID_SPACE && Reached(Stage(m, Active(m), 2, true, m - 1), 2, 0)
    ensures Reached(Stage(m, Checked, 1, false, m), 2, 1)
  {
    hide Reached, ClosedTo, RollingId;
    CycleTakes(m);
    CycleCloses(m);
    Stepwise(Stage(m, Closed(m), 2, false, m), Discount(2), 0, Stage(m, Out, 1, false, m), 0);
    Stepwise(Stage(m, Out, 1, false, m), Check(2), 0, Stage(m, Checked, 1, false, m), 1);
  }

  lemma {:induction false} Cycles(m: nat)
    requires 0 < m <= ID_SPACE
    ensures Reached(Stage(m, Checked, 1, false, m), 2, 1)
  {
    hide Reached;
    if m == 1 {
      FirstKept();
    } else {
      Cycles(m - 1);
      CycleCreates(m - 1);
      CycleRemoves(m);
    }
  }

  /** The 65537th observation has taken the id of the first, which lives. */
  function Overwritten(pc: Pc, count: int): State {
    State(count, map[1 := ID_SPACE + 1], ID_SPACE + 1, map[1 := Active(1), 2 := pc], 1, ClosedTo(ID_SPACE), false)
  }

  lemma OverwriteFirst()
    ensures Reached(Overwritten(Stored(ID_SPACE + 1), 1), 2, 1)
  {
    var n := ID_SPACE + 1;
    LowBits(n);
    assert RollingId(n) == 1;
    hide Reached, ClosedTo, RollingId;
    Cycles(ID_SPACE);
    CycleDraws(ID_SPACE);
    Stepwise(Stage(n, Drew(n), 1, false, ID_SPACE), StoreIt(2), 1, Overwritten(Stored(n), 1), 1);
  }

  /** The 65537th observation overwrites the first while it lives, and from then on, with no call half way, the
      count is 2 and the store has one entry. */
  lemma CountsDisagree()
    ensures exists acts ::
      && Runs(INIT, acts)
      && Calls(Final(INIT, acts).calls, Uncounted) == {} == Calls(Final(INIT, acts).calls, Undiscounted)
      && Final(INIT, acts).count == 2 && |Final(INIT, acts).store| == 1
  {
    hide Reached, Leads, ClosedTo;
    OverwriteFirst();
    var n := ID_SPACE + 1;
    Stepwise(Overwritten(Stored(n), 1), Count(2), 1, Overwritten(Active(n), 2), 0);
    LedTo(Overwritten(Active(n), 2));
  }

  lemma LedTo(s: State)
    requires Reached(s, 2, 0) && s.calls == map[1 := Active(1), 2 := Active(ID_SPACE + 1)]
    requires s.count == 2 && s.store == map[1 := ID_SPACE + 1]
    ensures exists acts ::
      && Runs(INIT, acts)
      && Calls(Final(INIT, acts).calls, Uncounted) == {} == Calls(Final(INIT, acts).calls, Undiscounted)
      && Final(INIT, acts).count == 2 && |Final(INIT, acts).store| == 1
  {
    var acts :| Leads(acts, s, 2, 0);
    assert Calls(s.calls, Uncounted) == {} && Calls(s.calls, Undiscounted) == {};
  }
}
