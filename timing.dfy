/**
 * The page's aggregate timing (lib/page.js:43-53, 92-137): each response's
 * timing block contributes, per phase key, the difference between the
 * phase's end and start fields.
 */
module Timing {

  /** The phase keys aggregated, in the order the loop visits them. */
  const TimingKeys: seq<string> :=
    ["connect", "domContentLoadedEvent", "domainLookup", "request", "response", "loadEvent", "redirect"]

  /** A timing field holds a truthy number: present and not zero. */
  predicate IsSet(block: map<string, int>, name: string) {
    name in block && block[name] != 0
  }

  /** `block[name] || -1`: a missing or zero field reads as -1. */
  function FieldOrMinusOne(block: map<string, int>, name: string): (v: int)
    ensures IsSet(block, name) ==> v == block[name]
    ensures !IsSet(block, name) ==> v == -1
  {
    if IsSet(block, name) then block[name] else -1
  }

  /**
   * `diffFromStartEnd`: the phase's end minus its start, each side read
   * with `|| -1`; when both sides read negative the result is -1.
   */
  function DiffFromStartEnd(block: map<string, int>, key: string): (diff: int)
    ensures !IsSet(block, key + "Start") && !IsSet(block, key + "End") ==> diff == -1
    ensures IsSet(block, key + "Start") && IsSet(block, key + "End") && (block[key + "Start"] >= 0 || block[key + "End"] >= 0) ==>
              diff == block[key + "End"] - block[key + "Start"]
    ensures IsSet(block, key + "Start") && !IsSet(block, key + "End") && block[key + "Start"] >= 0 ==>
              diff == -1 - block[key + "Start"]
    ensures !IsSet(block, key + "Start") && IsSet(block, key + "End") && block[key + "End"] >= 0 ==>
              diff == block[key + "End"] + 1
    ensures FieldOrMinusOne(block, key + "Start") < 0 && FieldOrMinusOne(block, key + "End") < 0 ==> diff == -1
  {
    var start := FieldOrMinusOne(block, key + "Start");
    var end := FieldOrMinusOne(block, key + "End");
    if start < 0 && end < 0 then -1 else end - start
  }

  /**
   * The value a key of the aggregate takes from a diff: a key already
   * holding a non-zero value grows by a positive diff and ignores any other;
   * a missing or zero key is set to the diff as it is.
   */
  function Combined(timing: map<string, int>, key: string, diff: int): int {
    if IsSet(timing, key) then (if diff <= 0 then timing[key] else timing[key] + diff) else diff
  }

  /** One step of the aggregation loop. */
  function Accumulate(timing: map<string, int>, key: string, diff: int): map<string, int> {
    if IsSet(timing, key) then
      if diff <= 0 then timing else timing[key := timing[key] + diff]
    else timing[key := diff]
  }

  /** The aggregate after the loop has visited `keys` in order. */
  function AggregateOver(timing: map<string, int>, block: map<string, int>, keys: seq<string>): map<string, int> {
    if keys == [] then timing
    else
      var last := keys[|keys| - 1];
      Accumulate(AggregateOver(timing, block, keys[..|keys| - 1]), last, DiffFromStartEnd(block, last))
  }

  predicate Distinct(keys: seq<string>) {
    forall i, j :: 0 <= i < j < |keys| ==> keys[i] != keys[j]
  }

  /** Per key, folding over distinct keys is the pointwise rule: visited keys are combined, others untouched. */
  lemma {:induction false} AggregateOverAt(timing: map<string, int>, block: map<string, int>, keys: seq<string>, k: string)
    requires Distinct(keys)
    ensures var r := AggregateOver(timing, block, keys);
            && (k in keys ==> k in r && r[k] == Combined(timing, k, DiffFromStartEnd(block, k)))
            && (k !in keys ==> (k in r <==> k in timing) && (k in timing ==> r[k] == timing[k]))
  {
    if keys != [] {
      var before := keys[..|keys| - 1];
      var last := keys[|keys| - 1];
      assert Distinct(before);
      AggregateOverAt(timing, block, before, k);
      if k != last {
        if k in keys {
          var i :| 0 <= i < |keys| && keys[i] == k;
          assert before[i] == k;
        }
      } else {
        forall i | 0 <= i < |before|
          ensures before[i] != k
        {
          assert before[i] == keys[i];
        }
      }
    }
  }

  /** The aggregate after one timing block (lib/page.js:92-118). */
  function Aggregate(timing: map<string, int>, block: map<string, int>): map<string, int> {
    AggregateOver(timing, block, TimingKeys)
  }

  /**
   * What one timing block does to the aggregate: exactly the seven phase
   * keys are touched, each by the rule of `Combined`.
   */
  lemma AggregateSpec(timing: map<string, int>, block: map<string, int>)
    ensures Aggregate(timing, block).Keys == timing.Keys + set k | k in TimingKeys
    ensures forall k :: k in TimingKeys ==> Aggregate(timing, block)[k] == Combined(timing, k, DiffFromStartEnd(block, k))
    ensures forall k :: k !in TimingKeys && k in timing ==> Aggregate(timing, block)[k] == timing[k]
  {
    assert Distinct(TimingKeys);
    forall k ensures var r := AggregateOver(timing, block, TimingKeys);
                     && (k in TimingKeys ==> k in r && r[k] == Combined(timing, k, DiffFromStartEnd(block, k)))
                     && (k !in TimingKeys ==> (k in r <==> k in timing) && (k in timing ==> r[k] == timing[k])) {
      AggregateOverAt(timing, block, TimingKeys, k);
    }
  }

  /**
   * `aggreateTimingInformation` (lib/page.js:92-118): the loop over the
   * phase keys, updating the aggregate key by key.
   */
  method AggregateTiming(timing: map<string, int>, block: map<string, int>) returns (t: map<string, int>)
    ensures t == Aggregate(timing, block)
  {
    t := timing;
    var i := 0;
    while i < |TimingKeys|
      invariant 0 <= i <= |TimingKeys|
      invariant t == AggregateOver(timing, block, TimingKeys[..i])
    {
      assert TimingKeys[..i + 1][..i] == TimingKeys[..i];
      var key := TimingKeys[i];
      var diff := DiffFromStartEnd(block, key);
      if IsSet(t, key) {
        if diff > 0 {
          t := t[key := t[key] + diff];
        }
      } else {
        t := t[key := diff];
      }
      i := i + 1;
    }
    assert TimingKeys[..i] == TimingKeys;
  }

  /** A key holding a non-zero value never decreases, and grows by exactly the diff when that is positive. */
  lemma AggregateKeepsSetKeys(timing: map<string, int>, block: map<string, int>, k: string)
    requires IsSet(timing, k)
    ensures k in Aggregate(timing, block) && Aggregate(timing, block)[k] >= timing[k]
    ensures k in TimingKeys && DiffFromStartEnd(block, k) > 0 ==>
              Aggregate(timing, block)[k] == timing[k] + DiffFromStartEnd(block, k)
    ensures (k !in TimingKeys || DiffFromStartEnd(block, k) <= 0) ==> Aggregate(timing, block)[k] == timing[k]
  {
    AggregateSpec(timing, block);
  }

  /**
   * A key holding zero is overwritten with the diff as it is, so it can go
   * down: `connect` at 0 and a block without connect fields leave -1.
   */
  lemma ZeroKeyCanDecrease()
    ensures var r := Aggregate(map["connect" := 0], map[]);
            "connect" in r && r["connect"] == -1
  {
    AggregateSpec(map["connect" := 0], map[]);
    assert DiffFromStartEnd(map[], "connect") == -1;
  }

  /** `timing.waiting || 0`. */
  function Waiting(timing: map<string, int>): int {
    if IsSet(timing, "waiting") then timing["waiting"] else 0
  }
}
