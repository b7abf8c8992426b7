/**
 * The counter aggregator: a map from an observed attribute value to a count,
 * updated in place by AddToKey, copied by Snapshot and emptied by ResetAll.
 * The mutex that guards the map in the Go implementation is not modelled: every
 * operation here is one atomic step of a sequential program.
 */
module Aggregator {

  // On 64-bit platforms Go's `int` is a 64-bit two's-complement integer.
  const INT64_MIN: int := -0x8000_0000_0000_0000
  const INT64_MAX: int := 0x7fff_ffff_ffff_ffff
  const TWO_TO_THE_64: int := 0x1_0000_0000_0000_0000

  type Int64 = x: int | INT64_MIN <= x <= INT64_MAX

  /** The value of a Go `int` computation whose exact result is `x`. */
  function WrapInt64(x: int): (r: Int64)
    ensures INT64_MIN <= x <= INT64_MAX ==> r == x
  {
    (x - INT64_MIN) % TWO_TO_THE_64 + INT64_MIN
  }

  /** The wrapped value differs from the exact one by a multiple of 2^64. */
  lemma WrapCongruent(x: int)
    ensures (WrapInt64(x) - x) % TWO_TO_THE_64 == 0
  {
  }

  /** Two 64-bit values that agree modulo 2^64 are equal. */
  lemma WrapUnique(r: Int64, s: Int64)
    requires (r - s) % TWO_TO_THE_64 == 0
    ensures r == s
  {
    var d := r - s;
    assert d == TWO_TO_THE_64 * (d / TWO_TO_THE_64);
  }

  /** Wrapping an intermediate sum does not change the wrapped total. */
  lemma WrapAddWrap(x: int, y: int)
    ensures WrapInt64(WrapInt64(x) + y) == WrapInt64(x + y)
  {
    var w := WrapInt64(x);
    var r, s := WrapInt64(w + y), WrapInt64(x + y);
    WrapCongruent(x);
    WrapCongruent(w + y);
    WrapCongruent(x + y);
    var q1, q2, q3 := (r - (w + y)) / TWO_TO_THE_64, (w - x) / TWO_TO_THE_64, (s - (x + y)) / TWO_TO_THE_64;
    assert r - (w + y) == TWO_TO_THE_64 * q1;
    assert w - x == TWO_TO_THE_64 * q2;
    assert s - (x + y) == TWO_TO_THE_64 * q3;
    assert r - s == TWO_TO_THE_64 * (q1 + q2 - q3);
    WrapUnique(r, s);
  }

  /** The count a Go map lookup yields: a missing key reads as 0. */
  function Count(m: map<string, Int64>, key: string): Int64
  {
    if key in m then m[key] else 0
  }

  /** The counter map after adding `val` to `key`. */
  function Added(m: map<string, Int64>, key: string, val: Int64): (r: map<string, Int64>)
    ensures r.Keys == m.Keys + {key}
    ensures forall k :: k != key ==> Count(r, k) == Count(m, k)
  {
    m[key := WrapInt64(Count(m, key) + val)]
  }

  /** One call `AddToKey(key, delta)`. */
  datatype Add = Add(key: string, delta: Int64)

  /** The counter map after the calls `adds`, in order. */
  function Replay(m: map<string, Int64>, adds: seq<Add>): map<string, Int64>
    decreases adds
  {
    if adds == [] then m else Replay(Added(m, adds[0].key, adds[0].delta), adds[1..])
  }

  /** The exact (unwrapped) sum of the deltas that `adds` adds to `key`. */
  function SumFor(adds: seq<Add>, key: string): int
  {
    if adds == [] then 0
    else (if adds[0].key == key then adds[0].delta else 0) + SumFor(adds[1..], key)
  }

  /** After a run of adds, each key holds its old count plus the sum of its own
      deltas (in 64-bit arithmetic); deltas for other keys do not affect it. */
  lemma {:induction false} ReplayCount(m: map<string, Int64>, adds: seq<Add>, key: string)
    decreases adds
    ensures Count(Replay(m, adds), key) == WrapInt64(Count(m, key) + SumFor(adds, key))
  {
    if adds != [] {
      var m' := Added(m, adds[0].key, adds[0].delta);
      ReplayCount(m', adds[1..], key);
      if adds[0].key == key {
        WrapAddWrap(Count(m, key) + adds[0].delta, SumFor(adds[1..], key));
      }
    }
  }

  /** A key that no add mentions keeps its count (and stays absent if absent). */
  lemma {:induction false} ReplayUntouched(m: map<string, Int64>, adds: seq<Add>, key: string)
    decreases adds
    requires forall i :: 0 <= i < |adds| ==> adds[i].key != key
    ensures key in Replay(m, adds) <==> key in m
    ensures Count(Replay(m, adds), key) == Count(m, key)
  {
    if adds != [] {
      ReplayUntouched(Added(m, adds[0].key, adds[0].delta), adds[1..], key);
    }
  }

  /** The keys present after a run of adds are the old keys and the added ones. */
  lemma {:induction false} ReplayKeys(m: map<string, Int64>, adds: seq<Add>)
    decreases adds
    ensures Replay(m, adds).Keys == m.Keys + set i | 0 <= i < |adds| :: adds[i].key
  {
    if adds != [] {
      ReplayKeys(Added(m, adds[0].key, adds[0].delta), adds[1..]);
      var all := set i | 0 <= i < |adds| :: adds[i].key;
      var rest := set i | 0 <= i < |adds[1..]| :: adds[1..][i].key;
      forall i | 0 <= i < |adds| ensures adds[i].key in {adds[0].key} + rest {
        if i > 0 { assert adds[1..][i - 1] == adds[i]; }
      }
      assert all == {adds[0].key} + rest;
    }
  }

  /** The aggregator object: one counter map, owned by this object. */
  class CounterAggregator {
    var values: map<string, Int64>

    /** A new aggregator holds no counts. */
    constructor ()
      ensures values == map[]
    {
      values := map[];
    }

    /** Adds `val` to the count of `key`, a missing key counting as 0. */
    method AddToKey(key: string, val: Int64)
      modifies this
      ensures values == Added(old(values), key, val)
      ensures Count(values, key) == WrapInt64(Count(old(values), key) + val)
    {
      values := values[key := WrapInt64(Count(values, key) + val)];
    }

    /** Returns a copy of the counts; the aggregator is not changed. */
    method Snapshot() returns (snapshot: map<string, Int64>)
      ensures snapshot == values
    {
      snapshot := map[];
      var pending := values.Keys;
      while pending != {}
        invariant pending <= values.Keys
        invariant snapshot.Keys == values.Keys - pending
        invariant forall k :: k in snapshot ==> snapshot[k] == values[k]
        decreases pending
      {
        var k :| k in pending;
        snapshot := snapshot[k := values[k]];
        pending := pending - {k};
      }
    }

    /** Replaces the counts by an empty map. */
    method ResetAll()
      modifies this
      ensures values == map[]
    {
      values := map[];
    }

    /** Snapshot followed by ResetAll: returns the counts and leaves none. */
    method SnapshotAndReset() returns (snapshot: map<string, Int64>)
      modifies this
      ensures snapshot == old(values)
      ensures values == map[]
    {
      snapshot := Snapshot();
      ResetAll();
    }
  }

  /** Three adds to one key read back as their sum. */
  method AddSameKeyScenario() returns (snapshot: map<string, Int64>)
    ensures snapshot == map["foo" := 6]
  {
    var agg := new CounterAggregator();
    agg.AddToKey("foo", 1);
    agg.AddToKey("foo", 2);
    agg.AddToKey("foo", 3);
    snapshot := agg.Snapshot();
  }

  /** Adds to different keys do not interfere. */
  method AddManyKeysScenario() returns (snapshot: map<string, Int64>)
    ensures snapshot == map["foo" := 1, "bar" := 2, "baz" := 3]
  {
    var agg := new CounterAggregator();
    agg.AddToKey("foo", 1);
    agg.AddToKey("bar", 2);
    agg.AddToKey("baz", 3);
    snapshot := agg.Snapshot();
  }

  /** After ResetAll every key reads as 0. */
  method ResetScenario() returns (before: map<string, Int64>, after: map<string, Int64>)
    ensures Count(before, "foo") == 1 && Count(before, "bar") == 2
    ensures after == map[]
    ensures forall k :: Count(after, k) == 0
  {
    var agg := new CounterAggregator();
    agg.AddToKey("foo", 1);
    agg.AddToKey("bar", 2);
    before := agg.Snapshot();
    agg.ResetAll();
    after := agg.Snapshot();
  }

  /** A snapshot is a copy: later adds show in a new snapshot, not in the old one. */
  method SnapshotIsolationScenario() returns (first: map<string, Int64>, second: map<string, Int64>)
    ensures Count(first, "foo") == 1 && Count(first, "bar") == 2
    ensures Count(second, "foo") == 11 && Count(second, "bar") == 2
  {
    var agg := new CounterAggregator();
    agg.AddToKey("foo", 1);
    agg.AddToKey("bar", 2);
    first := agg.Snapshot();
    agg.AddToKey("foo", 10);
    second := agg.Snapshot();
  }
}
