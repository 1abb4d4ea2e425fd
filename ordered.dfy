/**
 * Insertion-ordered dictionaries with string keys, as Python dicts and the
 * objects of parsed JSON behave: a sequence of (key, value) entries whose
 * keys are distinct, kept in the order the keys were first inserted.
 */
module Ordered {
  import opened Wrappers

  function Keys<V>(d: seq<(string, V)>): (ks: seq<string>)
    ensures |ks| == |d| && forall i | 0 <= i < |d| :: ks[i] == d[i].0
  {
    seq(|d|, i requires 0 <= i < |d| => d[i].0)
  }

  function Values<V>(d: seq<(string, V)>): (vs: seq<V>)
    ensures |vs| == |d| && forall i | 0 <= i < |d| :: vs[i] == d[i].1
  {
    seq(|d|, i requires 0 <= i < |d| => d[i].1)
  }

  predicate UniqueKeys<V>(d: seq<(string, V)>) {
    forall i, j | 0 <= i < j < |d| :: d[i].0 != d[j].0
  }

  predicate HasKey<V>(d: seq<(string, V)>, k: string) {
    exists i | 0 <= i < |d| :: d[i].0 == k
  }

  /** dict.get(k): the value stored under k, if any. */
  function Get<V>(d: seq<(string, V)>, k: string): (r: Option<V>)
    ensures r.Some? <==> HasKey(d, k)
    ensures r.Some? ==> exists i | 0 <= i < |d| :: d[i] == (k, r.value)
    ensures UniqueKeys(d) ==> forall i | 0 <= i < |d| && d[i].0 == k :: r == Some(d[i].1)
  {
    if d == [] then None
    else if d[0].0 == k then Some(d[0].1)
    else Get(d[1..], k)
  }

  /** The position of k's entry, if any. */
  function KeyIndex<V>(d: seq<(string, V)>, k: string): (r: Option<nat>)
    ensures r.None? <==> !HasKey(d, k)
    ensures r.Some? ==> r.value < |d| && d[r.value].0 == k && forall j | 0 <= j < r.value :: d[j].0 != k
  {
    if d == [] then None
    else if d[0].0 == k then Some(0)
    else match KeyIndex(d[1..], k)
      case None =>
        assert forall i | 1 <= i < |d| :: d[i] == d[1..][i - 1];
        None
      case Some(i) => Some(i + 1)
  }

  /** Get finds the first entry with the key. */
  lemma {:induction false} GetFirst<V>(d: seq<(string, V)>, k: string, i: nat)
    requires i < |d| && d[i].0 == k && forall j | 0 <= j < i :: d[j].0 != k
    ensures Get(d, k) == Some(d[i].1)
  {
    if i > 0 {
      GetFirst(d[1..], k, i - 1);
    }
  }

  /** Two dicts with the same keys in the same places agree on k when they agree on k's values. */
  lemma {:induction false} GetAgree<V>(d: seq<(string, V)>, e: seq<(string, V)>, k: string)
    requires |d| == |e|
    requires forall j | 0 <= j < |d| :: d[j].0 == e[j].0 && (d[j].0 == k ==> d[j].1 == e[j].1)
    ensures Get(d, k) == Get(e, k)
  {
    if d != [] && d[0].0 != k {
      GetAgree(d[1..], e[1..], k);
    }
  }

  /** Appending an entry for another key does not change a lookup. */
  lemma {:induction false} GetAppend<V>(d: seq<(string, V)>, k: string, v: V, k': string)
    requires k' != k
    ensures Get(d + [(k, v)], k') == Get(d, k')
  {
    if d == [] {
      assert Get([(k, v)][1..], k') == None;
    } else {
      assert (d + [(k, v)])[1..] == d[1..] + [(k, v)];
      if d[0].0 != k' {
        GetAppend(d[1..], k, v, k');
      }
    }
  }

  /** d[k] = v: replaces the value in place when k is present, appends otherwise. */
  function Put<V>(d: seq<(string, V)>, k: string, v: V): (r: seq<(string, V)>)
    ensures HasKey(d, k) ==> |r| == |d| && Keys(r) == Keys(d)
    ensures !HasKey(d, k) ==> r == d + [(k, v)]
    ensures Get(r, k) == Some(v)
    ensures forall k' | k' != k :: Get(r, k') == Get(d, k')
    ensures UniqueKeys(d) ==> UniqueKeys(r)
  {
    match KeyIndex(d, k)
    case None =>
      var r := d + [(k, v)];
      GetFirst(r, k, |d|);
      assert forall k' | k' != k :: Get(r, k') == Get(d, k') by {
        forall k' | k' != k
          ensures Get(r, k') == Get(d, k')
        {
          GetAppend(d, k, v, k');
        }
      }
      assert UniqueKeys(d) ==> UniqueKeys(r) by {
        if UniqueKeys(d) {
          forall i, j | 0 <= i < j < |r|
            ensures r[i].0 != r[j].0
          {
            if j == |d| {
              assert !HasKey(d, k);
            }
          }
        }
      }
      r
    case Some(i) =>
      var r := d[i := (k, v)];
      GetFirst(r, k, i);
      assert forall k' | k' != k :: Get(r, k') == Get(d, k') by {
        forall k' | k' != k
          ensures Get(r, k') == Get(d, k')
        {
          GetAgree(r, d, k');
        }
      }
      assert Keys(r) == Keys(d);
      r
  }

  /** Put on a dict whose first key is another one leaves that entry first. */
  lemma PutCons<V>(d: seq<(string, V)>, k: string, v: V)
    requires d != [] && d[0].0 != k
    ensures Put(d, k, v) == [d[0]] + Put(d[1..], k, v)
  {
    match KeyIndex(d[1..], k)
    case None =>
      assert d + [(k, v)] == [d[0]] + (d[1..] + [(k, v)]);
    case Some(i) =>
      assert d[i + 1 := (k, v)] == [d[0]] + d[1..][i := (k, v)];
  }

  /** Put on a dict whose first key is k replaces that first entry. */
  lemma PutHead<V>(d: seq<(string, V)>, k: string, v: V)
    requires d != [] && d[0].0 == k
    ensures Put(d, k, v) == [(k, v)] + d[1..]
  {
    assert d[0 := (k, v)] == [(k, v)] + d[1..];
  }
}
