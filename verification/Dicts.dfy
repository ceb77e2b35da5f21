/** Insertion-ordered dictionaries: an entry keeps its place when its value is replaced. */
module Dicts {
  import opened Wrappers

  type Dict<K, V> = seq<(K, V)>

  predicate UniqueKeys<K(==), V>(d: Dict<K, V>) {
    forall i, j :: 0 <= i < j < |d| ==> d[i].0 != d[j].0
  }

  function Get<K(==), V>(d: Dict<K, V>, k: K): (v: Option<V>)
    ensures v.Some? ==> exists i :: 0 <= i < |d| && d[i] == (k, v.value)
    ensures v.None? <==> forall i :: 0 <= i < |d| ==> d[i].0 != k
  {
    if d == [] then None
    else if d[|d| - 1].0 == k then Some(d[|d| - 1].1)
    else Get(d[..|d| - 1], k)
  }

  predicate Has<K(==), V>(d: Dict<K, V>, k: K) {
    Get(d, k).Some?
  }

  function Replace<K(==), V>(d: Dict<K, V>, k: K, v: V): (r: Dict<K, V>)
    ensures |r| == |d| && forall i :: 0 <= i < |d| ==> r[i] == if d[i].0 == k then (k, v) else d[i]
  {
    if d == [] then []
    else
      var last := d[|d| - 1];
      Replace(d[..|d| - 1], k, v) + [if last.0 == k then (k, v) else last]
  }

  /** `d[k] = v` */
  function Put<K(==), V>(d: Dict<K, V>, k: K, v: V): (r: Dict<K, V>)
    ensures UniqueKeys(d) ==> UniqueKeys(r)
    ensures Get(d, k).None? ==> r == d + [(k, v)]
  {
    if Get(d, k).None? then d + [(k, v)] else Replace(d, k, v)
  }

  /** `r` is what is left of d without the entry of k. */
  ghost predicate Popped<K, V>(d: Dict<K, V>, k: K, r: Dict<K, V>) {
    && (Get(d, k).None? ==> r == d)
    && (forall i :: 0 <= i < |r| ==> r[i] in d)
    && (UniqueKeys(d) ==> UniqueKeys(r) && Get(r, k).None? && forall i :: 0 <= i < |d| && d[i].0 != k ==> d[i] in r)
  }

  lemma PoppedLonger<K, V>(d: Dict<K, V>, k: K, r: Dict<K, V>)
    requires d != [] && d[|d| - 1].0 != k && Popped(d[..|d| - 1], k, r)
    ensures Popped(d, k, r + [d[|d| - 1]])
  {
    var front, last, all := d[..|d| - 1], d[|d| - 1], r + [d[|d| - 1]];
    assert d == front + [last];
    if UniqueKeys(d) {
      forall i | 0 <= i < |r| ensures r[i].0 != last.0 {
        assert r[i] in front;
      }
      assert all[..|r|] == r;
    }
  }

  /** `d.pop(k, None)`, for keys that occur once. */
  function Pop<K(==), V>(d: Dict<K, V>, k: K): (r: Dict<K, V>)
    ensures Get(d, k).None? ==> r == d
    ensures forall e :: e in r ==> e in d
    ensures UniqueKeys(d) ==> UniqueKeys(r) && Get(r, k).None?
    ensures UniqueKeys(d) ==> forall e :: e in d && e.0 != k ==> e in r
  {
    if d == [] then []
    else
      var front, last := d[..|d| - 1], d[|d| - 1];
      assert d == front + [last];
      if last.0 == k then front
      else
        var r := Pop(front, k);
        PoppedLonger(d, k, r);
        r + [last]
  }

  lemma {:induction false} GetPut<K, V>(d: Dict<K, V>, k: K, v: V, q: K)
    ensures Get(Put(d, k, v), q) == if q == k then Some(v) else Get(d, q)
  {
    if Get(d, k).None? {
      assert (d + [(k, v)])[..|d|] == d;
    } else {
      GetReplace(d, k, v, q);
    }
  }

  lemma {:induction false} GetReplace<K, V>(d: Dict<K, V>, k: K, v: V, q: K)
    ensures Get(Replace(d, k, v), q) == if q == k && Get(d, k).Some? then Some(v) else Get(d, q)
  {
    if d != [] {
      var r := Replace(d, k, v);
      assert r[..|r| - 1] == Replace(d[..|d| - 1], k, v);
      GetReplace(d[..|d| - 1], k, v, q);
    }
  }

  lemma {:induction false} GetPop<K, V>(d: Dict<K, V>, k: K, q: K)
    requires UniqueKeys(d)
    ensures Get(Pop(d, k), q) == if q == k then None else Get(d, q)
  {
    if d != [] && d[|d| - 1].0 != k {
      GetPop(d[..|d| - 1], k, q);
      var r := Pop(d, k);
      assert r[..|r| - 1] == Pop(d[..|d| - 1], k);
    }
  }

  /** Pop removes the last entry with this key. */
  lemma {:induction false} PopAt<K, V>(d: Dict<K, V>, k: K, i: nat)
    requires i < |d| && d[i].0 == k && forall j :: i < j < |d| ==> d[j].0 != k
    ensures Pop(d, k) == d[..i] + d[i + 1..]
  {
    var front := d[..|d| - 1];
    if i == |d| - 1 {
      assert d[i + 1..] == [];
    } else {
      assert d[|d| - 1].0 != k;
      PopAt(front, k, i);
      calc {
        Pop(d, k);
        Pop(front, k) + [d[|d| - 1]];
        (front[..i] + front[i + 1..]) + [d[|d| - 1]];
        { assert front[..i] == d[..i] && front[i + 1..] + [d[|d| - 1]] == d[i + 1..]; }
        d[..i] + d[i + 1..];
      }
    }
  }

  lemma PopNext<K, V>(kept: Dict<K, V>, rest: Dict<K, V>)
    requires UniqueKeys(kept + rest) && rest != []
    ensures Pop(kept + rest, rest[0].0) == kept + rest[1..]
  {
    var d := kept + rest;
    assert d[|kept|] == rest[0];
    PopAt(d, rest[0].0, |kept|);
    assert d[..|kept|] == kept && d[|kept| + 1..] == rest[1..];
  }

  lemma KeepNext<T>(kept: seq<T>, rest: seq<T>)
    requires rest != []
    ensures kept + rest == (kept + [rest[0]]) + rest[1..]
  {
  }

  lemma SameKeySameEntry<K, V>(d: Dict<K, V>, i: nat, j: nat)
    requires UniqueKeys(d) && i < |d| && j < |d| && d[i].0 == d[j].0
    ensures i == j
  {
  }

  lemma {:induction false} GetAt<K, V>(d: Dict<K, V>, i: nat)
    requires UniqueKeys(d) && i < |d|
    ensures Get(d, d[i].0) == Some(d[i].1)
  {
    if i < |d| - 1 {
      GetFront(d, d[i].0);
      GetAt(d[..|d| - 1], i);
    }
  }

  // ---------------------------------------------------------------- reordering

  lemma EntryCounted<K, V>(d: Dict<K, V>, a: (K, V), b: (K, V))
    requires UniqueKeys(d) && a in d && b in d && a.0 == b.0
    ensures a == b && multiset(d)[a] == 1
  {
    var i :| 0 <= i < |d| && d[i] == a;
    assert d == d[..i] + [a] + d[i + 1..];
    assert multiset(d) == multiset(d[..i]) + multiset{a} + multiset(d[i + 1..]);
    assert a !in d[..i] && a !in d[i + 1..];
  }

  lemma TwiceCounted<T>(s: seq<T>, i: nat, j: nat)
    requires i < j < |s| && s[i] == s[j]
    ensures multiset(s)[s[i]] >= 2
  {
    assert s == s[..j] + [s[j]] + s[j + 1..];
    assert multiset(s) == multiset(s[..j]) + multiset{s[j]} + multiset(s[j + 1..]);
    assert s[..j][i] == s[i] && s[i] in multiset(s[..j]);
  }

  lemma ReorderedUnique<K, V>(d: Dict<K, V>, e: Dict<K, V>)
    requires UniqueKeys(d) && multiset(e) == multiset(d)
    ensures UniqueKeys(e)
  {
    forall i: nat, j: nat | i < j < |e| ensures e[i].0 != e[j].0 {
      assert e[i] in multiset(d) && e[j] in multiset(d);
      if e[i].0 == e[j].0 {
        EntryCounted(d, e[i], e[j]);
        TwiceCounted(e, i, j);
      }
    }
  }

  lemma ReorderedFound<K, V>(d: Dict<K, V>, e: Dict<K, V>, k: K)
    requires UniqueKeys(e) && multiset(e) == multiset(d)
    ensures Get(d, k).Some? ==> Get(e, k) == Get(d, k)
  {
    if Get(d, k).Some? {
      var x := (k, Get(d, k).value);
      assert x in multiset(e);
      var i: nat :| i < |e| && e[i] == x;
      GetAt(e, i);
    }
  }

  /** Looking a key up does not depend on the order of the entries. */
  lemma ReorderedGet<K, V>(d: Dict<K, V>, e: Dict<K, V>, k: K)
    requires UniqueKeys(d) && UniqueKeys(e) && multiset(e) == multiset(d)
    ensures Get(d, k) == Get(e, k)
  {
    ReorderedFound(d, e, k);
    ReorderedFound(e, d, k);
  }

  // ---------------------------------------------------------------- comprehensions

  /** `{k: v for k, v in d.items() if keep(k, v)}` */
  function Filter<K, V>(d: Dict<K, V>, keep: (K, V) -> bool): (r: Dict<K, V>)
    ensures forall e :: e in r ==> e in d && keep(e.0, e.1)
  {
    if d == [] then []
    else Filter(d[..|d| - 1], keep) + if keep(d[|d| - 1].0, d[|d| - 1].1) then [d[|d| - 1]] else []
  }

  lemma {:induction false} FilterUnique<K, V>(d: Dict<K, V>, keep: (K, V) -> bool)
    requires UniqueKeys(d)
    ensures UniqueKeys(Filter(d, keep))
  {
    if d != [] {
      var front, last, r := d[..|d| - 1], d[|d| - 1], Filter(d[..|d| - 1], keep);
      FilterUnique(front, keep);
      forall i | 0 <= i < |r| ensures r[i].0 != last.0 {
        assert r[i] in front;
      }
    }
  }

  lemma GetFront<K, V>(d: Dict<K, V>, k: K)
    requires UniqueKeys(d) && d != []
    ensures UniqueKeys(d[..|d| - 1])
    ensures Get(d, k) == if k == d[|d| - 1].0 then Some(d[|d| - 1].1) else Get(d[..|d| - 1], k)
    ensures Get(d[..|d| - 1], d[|d| - 1].0).None?
  {
  }

  lemma {:induction false} GetFilter<K, V>(d: Dict<K, V>, keep: (K, V) -> bool, k: K)
    requires UniqueKeys(d)
    ensures Get(Filter(d, keep), k) == if Get(d, k).Some? && keep(k, Get(d, k).value) then Get(d, k) else None
  {
    if d != [] {
      var front, last, r := d[..|d| - 1], d[|d| - 1], Filter(d[..|d| - 1], keep);
      GetFront(d, k);
      GetFilter(front, keep, k);
      if keep(last.0, last.1) {
        assert Filter(d, keep)[..|r|] == r && Filter(d, keep)[|r|] == last;
      } else {
        assert Filter(d, keep) == r;
      }
    }
  }

  /** `{k: f(v) for k, v in d.items()}` */
  function MapValues<K, V>(d: Dict<K, V>, f: V -> V): (r: Dict<K, V>)
    ensures |r| == |d| && forall i :: 0 <= i < |d| ==> r[i] == (d[i].0, f(d[i].1))
  {
    seq(|d|, i requires 0 <= i < |d| => (d[i].0, f(d[i].1)))
  }

  lemma {:induction false} GetMapValues<K, V>(d: Dict<K, V>, f: V -> V, k: K)
    ensures Get(MapValues(d, f), k) == if Get(d, k).Some? then Some(f(Get(d, k).value)) else None
  {
    if d != [] {
      assert MapValues(d, f)[..|d| - 1] == MapValues(d[..|d| - 1], f);
      GetMapValues(d[..|d| - 1], f, k);
    }
  }
}
