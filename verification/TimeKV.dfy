/** The timed id store: a map from header ids to response channels that remembers when each entry was stored.
    (pkg/timekv/timekv.go) */
module TimeKV {
  import opened Types

  /** A response channel, by name, and the time it was stored. */
  datatype Entry = Entry(channel: nat, storeTime: nat)

  /** What a sweep at one instant keeps: the entries of age at most `expire`. */
  function Unexpired(m: map<uint16, Entry>, expire: nat, now: nat): map<uint16, Entry> {
    map k | k in m && now - m[k].storeTime <= expire :: m[k]
  }

  class Store {
    var store: map<uint16, Entry>
    const expire: nat

    constructor (expire: nat)
      ensures store == map[] && this.expire == expire
    {
      this.expire := expire;
      store := map[];
    }

    method Set(key: uint16, channel: nat, now: nat)
      modifies this
      ensures Timed(store, now) == Do(Timed(old(store), now), expire, SetOp(key, channel))
    {
      store := store[key := Entry(channel, now)];
    }

    method Get(key: uint16) returns (r: Option<nat>)
      ensures r == if key in store then Some(store[key].channel) else None
    {
      r := if key in store then Some(store[key].channel) else None;
    }

    method Del(key: uint16)
      modifies this
      ensures forall now :: Timed(store, now) == Do(Timed(old(store), now), expire, DelOp(key))
    {
      store := store - {key};
    }

    /** Deletes while it ranges over the keys.  The clock is read anew for every key and may advance from
        `start` to `end` meanwhile: an entry goes if it was too old from the start, and stays if it is not too
        old at the end. */
    method DelExpireKeys(start: nat, end: nat)
      requires start <= end
      modifies this
      ensures forall k :: k in store ==> k in old(store) && store[k] == old(store)[k]
      ensures Unexpired(old(store), expire, end).Keys <= store.Keys <= Unexpired(old(store), expire, start).Keys
      ensures start == end ==> Timed(store, end) == Do(Timed(old(store), end), expire, SweepOp)
    {
      var ranged := store.Keys;
      while ranged != {}
        invariant ranged <= old(store).Keys
        invariant forall k :: k in store ==> k in old(store) && store[k] == old(store)[k]
        invariant Unexpired(old(store), expire, end).Keys <= store.Keys
        invariant forall k :: k in store ==> k in ranged || k in Unexpired(old(store), expire, start)
        decreases ranged
      {
        var k :| k in ranged;
        var now :| start <= now <= end;
        if k in store && now - store[k].storeTime > expire {
          store := store - {k};
        }
        ranged := ranged - {k};
      }
      assert start == end ==> store.Keys == Unexpired(old(store), expire, end).Keys;
    }
  }

  // ----- the store as a value, over any sequence of operations -----

  datatype Op = SetOp(key: uint16, channel: nat) | DelOp(key: uint16) | SweepOp | TickOp(d: nat)

  datatype Timed = Timed(m: map<uint16, Entry>, now: nat)

  function Do(t: Timed, expire: nat, op: Op): Timed {
    match op
    case SetOp(k, c) => t.(m := t.m[k := Entry(c, t.now)])
    case DelOp(k) => t.(m := t.m - {k})
    case SweepOp => t.(m := Unexpired(t.m, expire, t.now))
    case TickOp(d) => t.(now := t.now + d)
  }

  function DoAll(t: Timed, expire: nat, ops: seq<Op>): Timed
    decreases |ops|
  {
    if ops == [] then t else DoAll(Do(t, expire, ops[0]), expire, ops[1..])
  }

  // ----- what the store holds, by the history of its operations -----

  /** The time before the n-th operation. */
  function Time(ops: seq<Op>, n: nat): nat
    requires n <= |ops|
  {
    if n == 0 then 0 else Time(ops, n - 1) + if ops[n - 1].TickOp? then ops[n - 1].d else 0
  }

  predicate Touches(op: Op, key: uint16) {
    op == DelOp(key) || (op.SetOp? && op.key == key)
  }

  /** The i-th operation stored an entry under the key, nothing has replaced or deleted it since, and at every
      sweep since it was at most `expire` old. */
  predicate Stands(ops: seq<Op>, expire: nat, key: uint16, i: nat) {
    && i < |ops| && ops[i].SetOp? && ops[i].key == key
    && (forall j: nat :: i < j < |ops| ==> !Touches(ops[j], key))
    && (forall j: nat :: i < j < |ops| && ops[j].SweepOp? ==> Time(ops, j) - Time(ops, i) <= expire)
  }

  /** After any operations on an empty store a key is found exactly when one of them stands for it, and what is
      found is the channel and the time of that one. */
  ghost predicate IsHistory(t: Timed, ops: seq<Op>, expire: nat) {
    && t.now == Time(ops, |ops|)
    && (forall k :: k in t.m ==> exists i: nat :: Stands(ops, expire, k, i))
    && (forall k, i: nat :: Stands(ops, expire, k, i) ==> k in t.m && t.m[k] == Entry(ops[i].channel, Time(ops, i)))
  }

  lemma {:induction false} SameTime(ops: seq<Op>, op: Op, n: nat)
    requires n <= |ops|
    ensures Time(ops + [op], n) == Time(ops, n)
  {
    if n > 0 { SameTime(ops, op, n - 1); }
  }

  /** What one more operation does to the operations that stand. */
  lemma StandsStep(ops: seq<Op>, op: Op, expire: nat, key: uint16, i: nat)
    requires i < |ops|
    ensures Stands(ops + [op], expire, key, i)
       <==> Stands(ops, expire, key, i) && !Touches(op, key)
            && (op.SweepOp? ==> Time(ops, |ops|) - Time(ops, i) <= expire)
  {
    hide Time;
    var all := ops + [op];
    forall j: nat | j <= |ops| ensures Time(all, j) == Time(ops, j) { SameTime(ops, op, j); }
    if Stands(ops, expire, key, i) && !Touches(op, key) && (op.SweepOp? ==> Time(ops, |ops|) - Time(ops, i) <= expire) {
      assert forall j: nat :: i < j < |all| ==> all[j] == if j < |ops| then ops[j] else op;
    }
    if Stands(all, expire, key, i) {
      assert forall j: nat :: i < j < |ops| ==> all[j] == ops[j];
      assert all[|ops|] == op;
    }
  }

  lemma StandsLast(ops: seq<Op>, op: Op, expire: nat, key: uint16)
    ensures Stands(ops + [op], expire, key, |ops|) <==> op.SetOp? && op.key == key
  {
  }

  /** Another operation, at the end. */
  lemma HistoryStep(t: Timed, ops: seq<Op>, expire: nat, op: Op)
    requires IsHistory(t, ops, expire)
    ensures IsHistory(Do(t, expire, op), ops + [op], expire)
  {
    hide Time;
    var all, t' := ops + [op], Do(t, expire, op);
    forall i: nat | i <= |ops| ensures Time(all, i) == Time(ops, i) { SameTime(ops, op, i); }
    assert Time(all, |all|) == t'.now by { TimeStep(ops, op); }
    forall k, i: nat | Stands(all, expire, k, i)
      ensures k in t'.m && t'.m[k] == Entry(all[i].channel, Time(all, i))
    {
      StandsFound(t, ops, expire, op, k, i);
    }
    forall k | k in t'.m ensures exists i: nat :: Stands(all, expire, k, i) {
      FoundStands(t, ops, expire, op, k);
    }
  }

  lemma TimeStep(ops: seq<Op>, op: Op)
    ensures Time(ops + [op], |ops| + 1) == Time(ops, |ops|) + if op.TickOp? then op.d else 0
  {
    SameTime(ops, op, |ops|);
  }

  lemma StandsFound(t: Timed, ops: seq<Op>, expire: nat, op: Op, k: uint16, i: nat)
    requires IsHistory(t, ops, expire) && Stands(ops + [op], expire, k, i)
    ensures var t' := Do(t, expire, op);
      k in t'.m && i <= |ops| && t'.m[k] == Entry((ops + [op])[i].channel, Time(ops, i))
  {
    hide Time;
    if i < |ops| {
      StandsStep(ops, op, expire, k, i);
      assert t.m[k] == Entry(ops[i].channel, Time(ops, i));
    }
  }

  lemma FoundStands(t: Timed, ops: seq<Op>, expire: nat, op: Op, k: uint16)
    requires IsHistory(t, ops, expire) && k in Do(t, expire, op).m
    ensures exists i: nat :: Stands(ops + [op], expire, k, i)
  {
    hide Stands, Time;
    StandsLast(ops, op, expire, k);
    if !(op.SetOp? && op.key == k) {
      var i: nat :| Stands(ops, expire, k, i);
      assert i < |ops| by { StandsInside(ops, expire, k, i); }
      StandsStep(ops, op, expire, k, i);
    }
  }

  lemma StandsInside(ops: seq<Op>, expire: nat, key: uint16, i: nat)
    requires Stands(ops, expire, key, i)
    ensures i < |ops|
  {
  }

  lemma {:induction false} DoOneMore(t: Timed, expire: nat, ops: seq<Op>, op: Op)
    ensures DoAll(t, expire, ops + [op]) == Do(DoAll(t, expire, ops), expire, op)
    decreases |ops|
  {
    if ops == [] {
      assert ops + [op] == [op] && [op][1..] == [];
    } else {
      assert (ops + [op])[1..] == ops[1..] + [op];
      DoOneMore(Do(t, expire, ops[0]), expire, ops[1..], op);
    }
  }

  lemma {:induction false} StoreIsHistory(expire: nat, ops: seq<Op>)
    ensures IsHistory(DoAll(Timed(map[], 0), expire, ops), ops, expire)
    decreases |ops|
  {
    if ops != [] {
      var n := |ops| - 1;
      assert ops == ops[..n] + [ops[n]];
      StoreIsHistory(expire, ops[..n]);
      DoOneMore(Timed(map[], 0), expire, ops[..n], ops[n]);
      HistoryStep(DoAll(Timed(map[], 0), expire, ops[..n]), ops[..n], expire, ops[n]);
    }
  }

  /** No other operation is on this key. */
  predicate Leaves(ops: seq<Op>, key: uint16) {
    forall i :: 0 <= i < |ops| ==> ops[i] != DelOp(key) && !(ops[i].SetOp? && ops[i].key == key)
  }

  /** Whatever happens to other keys, and however often the store is swept, an entry that is not replaced or
      deleted stays as long as the clock has not advanced by more than `expire` since it was stored. */
  lemma {:induction false} KeptWhileYoung(t: Timed, expire: nat, ops: seq<Op>, key: uint16)
    requires key in t.m && Leaves(ops, key)
    requires DoAll(t, expire, ops).now <= t.m[key].storeTime + expire
    ensures key in DoAll(t, expire, ops).m && DoAll(t, expire, ops).m[key] == t.m[key]
    decreases |ops|
  {
    if ops != [] {
      ClockAdvances(Do(t, expire, ops[0]), expire, ops[1..]);
      assert forall i :: 0 <= i < |ops[1..]| ==> ops[1..][i] == ops[i + 1];
      KeptWhileYoung(Do(t, expire, ops[0]), expire, ops[1..], key);
    }
  }

  lemma {:induction false} ClockAdvances(t: Timed, expire: nat, ops: seq<Op>)
    ensures t.now <= DoAll(t, expire, ops).now
    decreases |ops|
  {
    if ops != [] { ClockAdvances(Do(t, expire, ops[0]), expire, ops[1..]); }
  }

  /** A request that is stored, waits in the queue and then for its timeout is found in the store by any answer
      in that time, whatever else happens to the store, if the two waits stay within `expire`. */
  lemma WaiterIsNotEvicted(t: Timed, expire: nat, key: uint16, channel: nat, ops: seq<Op>, queued: nat, timeout: nat)
    requires Leaves(ops, key) && queued + timeout <= expire
    requires DoAll(Do(t, expire, SetOp(key, channel)), expire, ops).now <= t.now + queued + timeout
    ensures var m := DoAll(Do(t, expire, SetOp(key, channel)), expire, ops).m; key in m && m[key].channel == channel
  {
    KeptWhileYoung(Do(t, expire, SetOp(key, channel)), expire, ops, key);
  }
}
