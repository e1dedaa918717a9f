/**
 * An allocation record: the JavaScript object that maps a budget category id to
 * the amount (in millions) given to it. A JavaScript object keeps its non-index
 * string keys (every category id is one) in insertion order, and `Object.values`
 * returns the amounts in that order, so the record is modelled as a sequence of
 * key/amount entries whose keys are distinct.
 */
module Allocations {

  datatype Entry = Entry(key: string, amount: real)

  type Allocation = seq<Entry>

  /** What every JavaScript object satisfies: no key occurs twice. */
  predicate DistinctKeys(a: Allocation)
  {
    forall i, j :: 0 <= i < j < |a| ==> a[i].key != a[j].key
  }

  function Keys(a: Allocation): set<string>
  {
    set i | 0 <= i < |a| :: a[i].key
  }

  lemma KeysCons(e: Entry, a: Allocation)
    ensures Keys([e] + a) == {e.key} + Keys(a)
  {
    var b := [e] + a;
    forall x | x in Keys(a)
      ensures x in Keys(b)
    {
      var i :| 0 <= i < |a| && a[i].key == x;
      assert b[i + 1].key == x;
    }
    assert b[0].key == e.key;
  }

  /** In a record with distinct keys, no key occurs before its own position. */
  lemma PrefixFresh(a: Allocation, i: nat)
    requires DistinctKeys(a) && i < |a|
    ensures a[i].key !in Keys(a[..i])
  {
  }

  predicate NonNegative(a: Allocation)
  {
    forall i :: 0 <= i < |a| ==> a[i].amount >= 0.0
  }

  /** `a[k] || 0`: the amount stored under `k`, or 0 when `k` is not a key. */
  function Get(a: Allocation, k: string): (v: real)
    ensures k !in Keys(a) ==> v == 0.0
    ensures forall i :: 0 <= i < |a| && a[i].key == k && DistinctKeys(a) ==> v == a[i].amount
    ensures NonNegative(a) ==> v >= 0.0
  {
    if a == [] then 0.0
    else if a[0].key == k then a[0].amount
    else Get(a[1..], k)
  }

  /**
   * `{ ...a, [k]: v }`: an existing key keeps its position and takes the new amount;
   * a new key is appended as the last one.
   */
  function Put(a: Allocation, k: string, v: real): (r: Allocation)
    requires DistinctKeys(a)
    ensures Keys(r) == Keys(a) + {k}
    ensures DistinctKeys(r)
    ensures k in Keys(a) ==> |r| == |a| && forall i :: 0 <= i < |a| ==> r[i].key == a[i].key
    ensures k !in Keys(a) ==> r == a + [Entry(k, v)]
  {
    if a == [] then
      assert [Entry(k, v)][0].key == k;
      [Entry(k, v)]
    else
      KeysCons(a[0], a[1..]);
      assert [a[0]] + a[1..] == a;
      if a[0].key == k then
        KeysCons(Entry(k, v), a[1..]);
        [Entry(k, v)] + a[1..]
      else
        KeysCons(a[0], Put(a[1..], k, v));
        [a[0]] + Put(a[1..], k, v)
  }

  /** After `Put`, the key holds the new amount and every other key reads as before. */
  lemma {:induction false} GetAfterPut(a: Allocation, k: string, v: real, k': string)
    requires DistinctKeys(a)
    ensures Get(Put(a, k, v), k) == v
    ensures k' != k ==> Get(Put(a, k, v), k') == Get(a, k')
  {
    if a != [] && a[0].key != k {
      GetAfterPut(a[1..], k, v, k');
      assert Put(a, k, v)[1..] == Put(a[1..], k, v);
    } else if a != [] {
      assert Put(a, k, v)[1..] == a[1..];
    }
  }

  /** `Object.values(a).reduce((sum, value) => sum + value, 0)`: every amount, mapped to a metric or not. */
  function Total(a: Allocation): real
  {
    if a == [] then 0.0 else a[0].amount + Total(a[1..])
  }

  /** Moving one slider changes the total by exactly the change of that one amount. */
  lemma {:induction false} TotalAfterPut(a: Allocation, k: string, v: real)
    requires DistinctKeys(a)
    ensures Total(Put(a, k, v)) == Total(a) - Get(a, k) + v
  {
    if a != [] && a[0].key != k {
      TotalAfterPut(a[1..], k, v);
      assert Put(a, k, v)[1..] == Put(a[1..], k, v);
    } else if a != [] {
      assert Put(a, k, v)[1..] == a[1..];
    }
  }

  /** The total of non-negative amounts is non-negative. */
  lemma {:induction false} TotalNonNegative(a: Allocation)
    requires NonNegative(a)
    ensures Total(a) >= 0.0
  {
    if a != [] {
      TotalNonNegative(a[1..]);
    }
  }
}
