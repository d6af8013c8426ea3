/**
 * Python dictionaries with their insertion order: a list of (key, value)
 * entries with distinct keys. Writing a key already present replaces its
 * value where it stands; a new key goes at the end. Dictionary
 * comprehensions and loops that fill a dictionary are folds of `Put`.
 */
module OrderedDicts {
  import opened Wrappers

  /** The keys of the entries, in order. */
  function Keys<K, V>(d: seq<(K, V)>): (ks: seq<K>)
    ensures |ks| == |d|
    ensures forall i :: 0 <= i < |d| ==> ks[i] == d[i].0
  {
    seq(|d|, i requires 0 <= i < |d| => d[i].0)
  }

  /** No key occurs twice. */
  predicate DistinctKeys<K(==), V>(d: seq<(K, V)>)
  {
    forall i, j :: 0 <= i < j < |d| ==> d[i].0 != d[j].0
  }

  /** `d[k]`, or `None` for a missing key. */
  function Get<K(==), V>(d: seq<(K, V)>, k: K): (r: Option<V>)
    ensures r.None? <==> forall i :: 0 <= i < |d| ==> d[i].0 != k
    ensures r.Some? ==> exists i :: 0 <= i < |d| && d[i] == (k, r.value)
  {
    if |d| == 0 then None
    else if d[0].0 == k then Some(d[0].1)
    else
      var r := Get(d[1..], k);
      assert forall i :: 1 <= i < |d| ==> d[i] == d[1..][i - 1];
      r
  }

  /** The value stored under a key of a dictionary with distinct keys is the entry's value. */
  lemma {:induction false} GetEntry<K, V>(d: seq<(K, V)>, i: nat)
    requires DistinctKeys(d) && i < |d|
    ensures Get(d, d[i].0) == Some(d[i].1)
  {
    if i > 0 {
      assert d[1..][i - 1] == d[i];
      GetEntry(d[1..], i - 1);
    }
  }

  /** `d[k] = v`: the value replaced in place when `k` is present, a new last entry otherwise. */
  function Put<K(==), V>(d: seq<(K, V)>, k: K, v: V): (r: seq<(K, V)>)
    ensures Get(d, k).Some? ==> |r| == |d| && forall i :: 0 <= i < |d| ==> r[i] == (if d[i].0 == k then (k, v) else d[i])
    ensures Get(d, k).None? ==> r == d + [(k, v)]
  {
    if Get(d, k).Some? then seq(|d|, i requires 0 <= i < |d| => if d[i].0 == k then (k, v) else d[i])
    else d + [(k, v)]
  }

  /** Writing keeps the keys distinct, makes `k` map to `v`, and leaves every other key as it was. */
  lemma PutGet<K, V>(d: seq<(K, V)>, k: K, v: V, k': K)
    requires DistinctKeys(d)
    ensures DistinctKeys(Put(d, k, v))
    ensures Get(Put(d, k, v), k) == Some(v)
    ensures k' != k ==> Get(Put(d, k, v), k') == Get(d, k')
  {
    var r := Put(d, k, v);
    assert DistinctKeys(r);
    if Get(d, k).Some? {
      var i :| 0 <= i < |d| && d[i].0 == k;
      GetEntry(r, i);
    } else {
      GetEntry(r, |d|);
    }
    if k' != k {
      if Get(d, k').Some? {
        var j :| 0 <= j < |d| && d[j].0 == k';
        GetEntry(d, j);
        GetEntry(r, j);
      }
    }
  }

  /** A dictionary built by writing the items in order (`{k: v for ...}`, or a filling loop). */
  function FromItems<K(==), V>(items: seq<(K, V)>): (d: seq<(K, V)>)
    ensures DistinctKeys(d)
  {
    if |items| == 0 then []
    else
      var init := FromItems(items[..|items| - 1]);
      var last := items[|items| - 1];
      PutGet(init, last.0, last.1, last.0);
      Put(init, last.0, last.1)
  }

  /**
   * The built dictionary maps a key to the value of its last item, and
   * holds no key that no item has.
   */
  lemma {:induction false} FromItemsGet<K, V>(items: seq<(K, V)>, k: K)
    ensures Get(FromItems(items), k).None? <==> forall i :: 0 <= i < |items| ==> items[i].0 != k
    ensures forall j :: 0 <= j < |items| && items[j].0 == k && (forall i :: j < i < |items| ==> items[i].0 != k) ==>
      Get(FromItems(items), k) == Some(items[j].1)
  {
    FromItemsNone(items, k);
    forall j | 0 <= j < |items| && items[j].0 == k && (forall i :: j < i < |items| ==> items[i].0 != k)
      ensures Get(FromItems(items), k) == Some(items[j].1)
    {
      FromItemsLast(items, k, j);
    }
  }

  /** A key is missing from the built dictionary exactly when no item has it. */
  lemma {:induction false} FromItemsNone<K, V>(items: seq<(K, V)>, k: K)
    ensures Get(FromItems(items), k).None? <==> forall i :: 0 <= i < |items| ==> items[i].0 != k
  {
    if |items| > 0 {
      var init := items[..|items| - 1];
      var last := items[|items| - 1];
      FromItemsNone(init, k);
      PutGet(FromItems(init), last.0, last.1, k);
      assert Get(FromItems(items), k).None? <==> Get(FromItems(init), k).None? && last.0 != k;
      assert items == init + [last];
    }
  }

  /** The last item with a key gives its value in the built dictionary. */
  lemma {:induction false} FromItemsLast<K, V>(items: seq<(K, V)>, k: K, j: nat)
    requires j < |items| && items[j].0 == k
    requires forall i :: j < i < |items| ==> items[i].0 != k
    ensures Get(FromItems(items), k) == Some(items[j].1)
  {
    var init := items[..|items| - 1];
    var last := items[|items| - 1];
    PutGet(FromItems(init), last.0, last.1, k);
    if j < |items| - 1 {
      assert init[j] == items[j];
      assert forall i :: j < i < |init| ==> init[i] == items[i];
      FromItemsLast(init, k, j);
    }
  }

  /** The values, in key order. */
  function Values<K, V>(d: seq<(K, V)>): (vs: seq<V>)
    ensures |vs| == |d|
    ensures forall i :: 0 <= i < |d| ==> vs[i] == d[i].1
  {
    seq(|d|, i requires 0 <= i < |d| => d[i].1)
  }

  /** `d.pop(k, None)` on the entries: every entry of `k` dropped, the others kept in order. */
  function Remove<K(==), V>(d: seq<(K, V)>, k: K): (r: seq<(K, V)>)
    ensures |r| <= |d|
    ensures forall i :: 0 <= i < |r| ==> r[i] in d && r[i].0 != k
    ensures forall i :: 0 <= i < |d| && d[i].0 != k ==> d[i] in r
    ensures DistinctKeys(d) ==> DistinctKeys(r)
  {
    if |d| == 0 then []
    else
      var rest := Remove(d[1..], k);
      assert forall i :: 1 <= i < |d| ==> d[i] == d[1..][i - 1];
      TailFresh(d, rest);
      if d[0].0 == k then rest
      else
        var r := [d[0]] + rest;
        assert forall j :: 1 <= j < |r| ==> r[j] == rest[j - 1];
        r
  }

  /** With distinct keys, entries taken from those after the first all have keys other than the first's. */
  lemma TailFresh<K, V>(d: seq<(K, V)>, rest: seq<(K, V)>)
    requires |d| > 0
    requires forall j :: 0 <= j < |rest| ==> rest[j] in d[1..]
    ensures DistinctKeys(d) ==> DistinctKeys(d[1..])
    ensures DistinctKeys(d) ==> forall j :: 0 <= j < |rest| ==> rest[j].0 != d[0].0
  {
    var tail := d[1..];
    if DistinctKeys(d) {
      forall i, j | 0 <= i < j < |tail| ensures tail[i].0 != tail[j].0 {
        assert tail[i] == d[i + 1] && tail[j] == d[j + 1];
      }
      forall j | 0 <= j < |rest| ensures rest[j].0 != d[0].0 {
        var e := rest[j];
        assert e in tail;
        var i :| 0 <= i < |tail| && tail[i] == e;
        assert d[i + 1] == e;
      }
    }
  }

  /** Removing a key leaves it absent and every other key with its value. */
  lemma RemoveGet<K, V>(d: seq<(K, V)>, k: K, k': K)
    requires DistinctKeys(d)
    ensures Get(Remove(d, k), k).None?
    ensures k' != k ==> Get(Remove(d, k), k') == Get(d, k')
  {
    var r := Remove(d, k);
    if k' != k {
      if Get(d, k').Some? {
        var i :| 0 <= i < |d| && d[i] == (k', Get(d, k').value);
        var j :| 0 <= j < |r| && r[j] == d[i];
        GetEntry(r, j);
      }
    }
  }

  /** The entries after the first have distinct keys, none of them the first's, and hold every other key's value. */
  lemma DistinctTail<K, V>(d: seq<(K, V)>)
    requires DistinctKeys(d) && |d| > 0
    ensures DistinctKeys(d[1..])
    ensures Get(d[1..], d[0].0).None?
    ensures forall k :: k != d[0].0 ==> Get(d, k) == Get(d[1..], k)
  {
    assert forall i :: 0 <= i < |d| - 1 ==> d[1..][i] == d[i + 1];
  }

  /** Writing a key twice keeps the second value, in the place of the first write. */
  lemma PutTwice<K, V>(d: seq<(K, V)>, k: K, v1: V, v2: V)
    ensures Put(Put(d, k, v1), k, v2) == Put(d, k, v2)
  {
    if Get(d, k).None? {
      PutTwiceNew(d, k, v1, v2);
    } else {
      PutTwicePresent(d, k, v1, v2);
    }
  }

  /** Writing a new key twice: one last entry with the second value. */
  lemma PutTwiceNew<K, V>(d: seq<(K, V)>, k: K, v1: V, v2: V)
    requires Get(d, k).None?
    ensures Put(Put(d, k, v1), k, v2) == d + [(k, v2)]
  {
    var once := d + [(k, v1)];
    assert once[|d|] == (k, v1);
    var twice := Put(once, k, v2);
    assert |twice| == |d| + 1;
    assert forall i :: 0 <= i < |twice| ==> twice[i] == (d + [(k, v2)])[i];
  }

  /** Writing a present key twice: its entry holds the second value. */
  lemma PutTwicePresent<K, V>(d: seq<(K, V)>, k: K, v1: V, v2: V)
    requires Get(d, k).Some?
    ensures Put(Put(d, k, v1), k, v2) == Put(d, k, v2)
  {
    var once := Put(d, k, v1);
    var j :| 0 <= j < |d| && d[j].0 == k;
    assert once[j].0 == k;
    var twice, direct := Put(once, k, v2), Put(d, k, v2);
    assert |twice| == |direct|;
    assert forall i :: 0 <= i < |twice| ==> twice[i] == direct[i];
  }

  /** `if k in d: del d[k]`: the key is deleted when present; a missing key changes nothing. */
  function Discard<K(==,!new), V>(d: seq<(K, V)>, k: K): (r: seq<(K, V)>)
    ensures Get(d, k).None? ==> r == d
    ensures DistinctKeys(d) ==>
      && DistinctKeys(r)
      && Get(r, k).None?
      && forall k' :: k' != k ==> Get(r, k') == Get(d, k')
  {
    if Get(d, k).Some? then
      var r := Remove(d, k);
      assert DistinctKeys(d) ==> Get(r, k).None? && forall k' :: k' != k ==> Get(r, k') == Get(d, k') by {
        if DistinctKeys(d) {
          RemoveGet(d, k, k);
          forall k' | k' != k ensures Get(r, k') == Get(d, k') {
            RemoveGet(d, k, k');
          }
        }
      }
      r
    else d
  }
}
