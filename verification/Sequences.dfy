/**
 Filtering, first-occurrence deduplication and stable sorting of sequences.
 Every function consumes its argument from the right, so that a loop over
 `s[..i]` and the function agree step by step.
 */
module Sequences {

  ghost predicate NoDup<T>(s: seq<T>) {
    forall i, j :: 0 <= i < j < |s| ==> s[i] != s[j]
  }

  /** Two enumerations of a duplicate-free collection are duplicate-free together. */
  lemma NoDupByCount<T>(s: seq<T>)
    ensures NoDup(s) <==> forall x <- s :: multiset(s)[x] == 1
  {
    if s != [] {
      var n := |s| - 1;
      NoDupByCount(s[..n]);
      assert s == s[..n] + [s[n]];
      assert multiset(s) == multiset(s[..n]) + multiset{s[n]};
      if s[n] in s[..n] {
        assert multiset(s[..n])[s[n]] >= 1;
        assert multiset(s)[s[n]] >= 2;
      } else {
        assert multiset(s[..n])[s[n]] == 0;
        forall x | x in s[..n]
          ensures multiset(s)[x] == multiset(s[..n])[x] && x in s
        {
        }
      }
    }
  }

  lemma NoDupPermutation<T>(a: seq<T>, b: seq<T>)
    requires multiset(a) == multiset(b)
    ensures NoDup(a) <==> NoDup(b)
  {
    NoDupByCount(a);
    NoDupByCount(b);
    assert forall x :: x in a <==> x in multiset(a);
    assert forall x :: x in b <==> x in multiset(b);
  }

  function Map<T, U>(f: T -> U, s: seq<T>): (r: seq<U>)
    ensures |r| == |s|
    ensures forall i :: 0 <= i < |s| ==> r[i] == f(s[i])
  {
    if s == [] then [] else Map(f, s[..|s| - 1]) + [f(s[|s| - 1])]
  }

  lemma {:induction false} MapConcat<T, U>(f: T -> U, s: seq<T>, t: seq<T>)
    ensures Map(f, s + t) == Map(f, s) + Map(f, t)
  {
  }

  lemma MapRemove<T, U>(f: T -> U, left: seq<T>, x: T, right: seq<T>)
    ensures multiset(Map(f, left + [x] + right)) == multiset(Map(f, left + right)) + multiset{f(x)}
  {
    MapConcat(f, left + [x], right);
    MapConcat(f, left, [x]);
    MapConcat(f, left, right);
    assert Map(f, [x]) == [f(x)];
  }

  lemma RemoveOne<T>(a: seq<T>, b: seq<T>) returns (k: nat)
    requires a != [] && multiset(a) == multiset(b)
    ensures k < |b| && b[k] == a[|a| - 1]
    ensures multiset(a[..|a| - 1]) == multiset(b[..k] + b[k + 1..])
  {
    var n := |a| - 1;
    assert a == a[..n] + [a[n]];
    assert a[n] in multiset(b);
    k :| 0 <= k < |b| && b[k] == a[n];
    assert b == b[..k] + [a[n]] + b[k + 1..];
    assert multiset(b) == multiset(b[..k] + b[k + 1..]) + multiset{a[n]};
    assert multiset(a) == multiset(a[..n]) + multiset{a[n]};
    assert multiset(a[..n]) == multiset(a) - multiset{a[n]};
  }

  lemma {:induction false} MapMultiset<T, U>(f: T -> U, a: seq<T>, b: seq<T>)
    requires multiset(a) == multiset(b)
    ensures multiset(Map(f, a)) == multiset(Map(f, b))
    decreases |a|
  {
    if a == [] {
      assert b == [] by { assert |multiset(b)| == |b|; }
    } else {
      var n := |a| - 1;
      var k := RemoveOne(a, b);
      var rest := b[..k] + b[k + 1..];
      MapMultiset(f, a[..n], rest);
      assert multiset(Map(f, b)) == multiset(Map(f, rest)) + multiset{f(a[n])} by {
        MapRemove(f, b[..k], b[k], b[k + 1..]);
        assert b == b[..k] + [b[k]] + b[k + 1..];
      }
    }
  }

  function Filter<T>(p: T -> bool, s: seq<T>): (r: seq<T>)
    ensures |r| <= |s|
  {
    if s == [] then
      []
    else
      var kept := Filter(p, s[..|s| - 1]);
      if p(s[|s| - 1]) then kept + [s[|s| - 1]] else kept
  }

  lemma {:induction false} FilterMembers<T(!new)>(p: T -> bool, s: seq<T>)
    ensures forall x :: x in Filter(p, s) <==> x in s && p(x)
  {
    if s != [] {
      var n := |s| - 1;
      FilterMembers(p, s[..n]);
      assert s == s[..n] + [s[n]];
    }
  }

  lemma FilterSnoc<T>(p: T -> bool, s: seq<T>, x: T)
    ensures Filter(p, s + [x]) == if p(x) then Filter(p, s) + [x] else Filter(p, s)
  {
    assert (s + [x])[..|s|] == s;
  }

  lemma {:induction false} FilterConcat<T>(p: T -> bool, s: seq<T>, t: seq<T>)
    ensures Filter(p, s + t) == Filter(p, s) + Filter(p, t)
  {
    if t == [] {
      assert s + t == s;
    } else {
      var n := |t| - 1;
      assert s + t == (s + t[..n]) + [t[n]];
      FilterConcat(p, s, t[..n]);
      FilterSnoc(p, s + t[..n], t[n]);
    }
  }

  lemma {:induction false} FilterCommutes<T>(p: T -> bool, q: T -> bool, s: seq<T>)
    ensures Filter(p, Filter(q, s)) == Filter(q, Filter(p, s))
  {
    if s != [] {
      var n := |s| - 1;
      FilterCommutes(p, q, s[..n]);
      FilterSnoc(p, Filter(q, s[..n]), s[n]);
      FilterSnoc(q, Filter(p, s[..n]), s[n]);
    }
  }

  lemma {:induction false} FilterAll<T>(p: T -> bool, s: seq<T>)
    requires forall i :: 0 <= i < |s| ==> p(s[i])
    ensures Filter(p, s) == s
  {
    if s != [] {
      var n := |s| - 1;
      FilterAll(p, s[..n]);
      assert s == s[..n] + [s[n]];
    }
  }

  lemma {:induction false} FilterNone<T>(p: T -> bool, s: seq<T>)
    requires forall i :: 0 <= i < |s| ==> !p(s[i])
    ensures Filter(p, s) == []
  {
    if s != [] {
      FilterNone(p, s[..|s| - 1]);
    }
  }

  lemma {:induction false} FilterNoDup<T(!new)>(p: T -> bool, s: seq<T>)
    requires NoDup(s)
    ensures NoDup(Filter(p, s))
  {
    if s != [] {
      var n := |s| - 1;
      FilterNoDup(p, s[..n]);
      FilterMembers(p, s[..n]);
      var kept := Filter(p, s[..n]);
      forall i | 0 <= i < |kept| ensures kept[i] != s[n] {
        assert kept[i] in kept;
      }
    }
  }

  function Keys<T, K(==)>(key: T -> K, s: seq<T>): set<K> {
    if s == [] then {} else Keys(key, s[..|s| - 1]) + {key(s[|s| - 1])}
  }

  lemma {:induction false} KeysMembers<T, K>(key: T -> K, s: seq<T>)
    ensures forall x <- s :: key(x) in Keys(key, s)
    ensures forall k <- Keys(key, s) :: exists i :: 0 <= i < |s| && key(s[i]) == k
  {
    if s != [] {
      var n := |s| - 1;
      KeysMembers(key, s[..n]);
      assert s == s[..n] + [s[n]];
      forall k | k in Keys(key, s)
        ensures exists i :: 0 <= i < |s| && key(s[i]) == k
      {
        if k != key(s[n]) {
          var i :| 0 <= i < n && key(s[..n][i]) == k;
          assert key(s[i]) == k;
        }
      }
    }
  }

  /** Keeps the first element of every key class. */
  function Dedup<T, K(==)>(key: T -> K, s: seq<T>): (r: seq<T>)
    ensures |r| <= |s|
  {
    if s == [] then
      []
    else
      var n := |s| - 1;
      var kept := Dedup(key, s[..n]);
      if key(s[n]) in Keys(key, s[..n]) then kept else kept + [s[n]]
  }

  lemma {:induction false} DedupMembers<T(!new), K>(key: T -> K, s: seq<T>)
    ensures forall x :: x in Dedup(key, s) ==> x in s
    ensures Keys(key, Dedup(key, s)) == Keys(key, s)
  {
    if s != [] {
      var n := |s| - 1;
      var kept := Dedup(key, s[..n]);
      DedupMembers(key, s[..n]);
      assert s == s[..n] + [s[n]];
      assert (kept + [s[n]])[..|kept|] == kept;
    }
  }

  /** Exactly the first element of every key class is kept. */
  lemma {:induction false} DedupFirst<T(!new), K>(key: T -> K, s: seq<T>)
    ensures forall x :: x in Dedup(key, s) <==> exists i :: 0 <= i < |s| && s[i] == x && FirstOfKey(key, s, i)
  {
    if s != [] {
      var n := |s| - 1;
      DedupFirst(key, s[..n]);
      KeysMembers(key, s[..n]);
      assert FirstOfKey(key, s, n) <==> key(s[n]) !in Keys(key, s[..n]) by {
        if key(s[n]) in Keys(key, s[..n]) {
          var i :| 0 <= i < n && key(s[..n][i]) == key(s[n]);
          assert key(s[i]) == key(s[n]);
        } else {
          forall j | 0 <= j < n ensures key(s[j]) != key(s[n]) { assert s[..n][j] in s[..n]; }
        }
      }
      forall i: nat | i < n ensures FirstOfKey(key, s[..n], i) <==> FirstOfKey(key, s, i) { }
      forall x ensures x in Dedup(key, s) <==> exists i :: 0 <= i < |s| && s[i] == x && FirstOfKey(key, s, i) {
        if x in Dedup(key, s[..n]) {
          var i :| 0 <= i < n && s[..n][i] == x && FirstOfKey(key, s[..n], i);
          assert s[i] == x && FirstOfKey(key, s, i);
        }
        if i :| 0 <= i < n && s[i] == x && FirstOfKey(key, s, i) { assert s[..n][i] == x && FirstOfKey(key, s[..n], i); }
      }
    }
  }

  ghost predicate FirstOfKey<T, K>(key: T -> K, s: seq<T>, i: int) {
    0 <= i < |s| && forall j :: 0 <= j < i ==> key(s[j]) != key(s[i])
  }

  lemma {:induction false} DedupDistinctKeys<T(!new), K>(key: T -> K, s: seq<T>)
    ensures forall i, j :: 0 <= i < j < |Dedup(key, s)| ==> key(Dedup(key, s)[i]) != key(Dedup(key, s)[j])
  {
    if s != [] {
      var n := |s| - 1;
      var kept := Dedup(key, s[..n]);
      DedupDistinctKeys(key, s[..n]);
      DedupMembers(key, s[..n]);
      if key(s[n]) !in Keys(key, s[..n]) {
        forall i | 0 <= i < |kept| ensures key(kept[i]) != key(s[n]) {
          assert key(kept[i]) in Keys(key, kept) by {
            KeysMembers(key, kept);
            assert kept[i] in kept;
          }
        }
      }
    }
  }

  lemma {:induction false} KeysFilter<T(!new), K(!new)>(key: T -> K, p: T -> bool, s: seq<T>, x: T)
    requires forall a, b :: key(a) == key(b) ==> p(a) == p(b)
    requires p(x)
    ensures key(x) in Keys(key, Filter(p, s)) <==> key(x) in Keys(key, s)
  {
    if s != [] {
      var n := |s| - 1;
      KeysFilter(key, p, s[..n], x);
      var f := Filter(p, s[..n]);
      assert (f + [s[n]])[..|f|] == f;
    }
  }

  /** Deduplication commutes with a filter that never splits a key class. */
  lemma {:induction false} DedupFilter<T(!new), K(!new)>(key: T -> K, p: T -> bool, s: seq<T>)
    requires forall a, b :: key(a) == key(b) ==> p(a) == p(b)
    ensures Dedup(key, Filter(p, s)) == Filter(p, Dedup(key, s))
  {
    if s != [] {
      var n := |s| - 1;
      DedupFilter(key, p, s[..n]);
      FilterSnoc(p, Dedup(key, s[..n]), s[n]);
      if p(s[n]) {
        var f := Filter(p, s[..n]);
        assert (f + [s[n]])[..|f|] == f;
        KeysFilter(key, p, s[..n], s[n]);
      }
    }
  }

  /** Sorted with respect to a total preorder. */
  ghost predicate Sorted<T(!new)>(le: (T, T) -> bool, s: seq<T>) {
    forall i, j :: 0 <= i < j < |s| ==> le(s[i], s[j])
  }

  ghost predicate TotalPreorder<T(!new)>(le: (T, T) -> bool) {
    && (forall x, y :: le(x, y) || le(y, x))
    && (forall x, y, z :: le(x, y) && le(y, z) ==> le(x, z))
  }

  /** Puts `x` behind every element not greater than it. */
  function InsertAfter<T(!new)>(le: (T, T) -> bool, s: seq<T>, x: T): (r: seq<T>)
    ensures multiset(r) == multiset(s) + multiset{x}
  {
    if s == [] || le(s[|s| - 1], x) then
      s + [x]
    else
      var n := |s| - 1;
      assert s == s[..n] + [s[n]];
      InsertAfter(le, s[..n], x) + [s[n]]
  }

  lemma {:induction false} InsertAfterSorted<T(!new)>(le: (T, T) -> bool, s: seq<T>, x: T)
    requires TotalPreorder(le) && Sorted(le, s)
    ensures Sorted(le, InsertAfter(le, s, x))
  {
    if s != [] && !le(s[|s| - 1], x) {
      var n := |s| - 1;
      InsertAfterSorted(le, s[..n], x);
      var r := InsertAfter(le, s[..n], x);
      assert le(x, s[n]);
      forall i | 0 <= i < |r| ensures le(r[i], s[n]) {
        assert r[i] in multiset(s[..n]) + multiset{x} by { assert r[i] in multiset(r); }
        if r[i] != x {
          assert r[i] in s[..n];
          var k :| 0 <= k < n && s[..n][k] == r[i];
          assert le(s[k], s[n]);
        }
      }
    }
  }

  lemma InsertAfterAll<T(!new)>(le: (T, T) -> bool, s: seq<T>, x: T)
    requires forall i :: 0 <= i < |s| ==> le(s[i], x)
    ensures InsertAfter(le, s, x) == s + [x]
  {
  }

  lemma InsertAfterLast<T(!new)>(le: (T, T) -> bool, p: T -> bool, s: seq<T>, x: T)
    requires TotalPreorder(le) && Sorted(le, s)
    requires s == [] || le(s[|s| - 1], x)
    ensures InsertAfter(le, Filter(p, s), x) == Filter(p, s) + [x]
  {
    var kept := Filter(p, s);
    forall y | y in s ensures le(y, x) {
      var k :| 0 <= k < |s| && s[k] == y;
      LastBound(le, s, x, k);
    }
    FilterMembers(p, s);
    assert forall y :: y in kept ==> y in s;
    forall i | 0 <= i < |kept| ensures le(kept[i], x) { assert kept[i] in kept; }
    InsertAfterAll(le, kept, x);
  }

  lemma LastBound<T(!new)>(le: (T, T) -> bool, s: seq<T>, x: T, k: nat)
    requires TotalPreorder(le) && Sorted(le, s) && k < |s| && le(s[|s| - 1], x)
    ensures le(s[k], x)
  {
    if k < |s| - 1 { assert le(s[k], s[|s| - 1]); }
  }

  lemma InsertAfterStep<T(!new)>(le: (T, T) -> bool, s: seq<T>, y: T, x: T)
    requires !le(y, x)
    ensures InsertAfter(le, s + [y], x) == InsertAfter(le, s, x) + [y]
  {
    assert (s + [y])[..|s|] == s;
  }

  /** Insertion keeps the relative order of the elements already placed. */
  lemma {:induction false} InsertAfterFilter<T(!new)>(le: (T, T) -> bool, p: T -> bool, s: seq<T>, x: T)
    requires TotalPreorder(le) && Sorted(le, s)
    ensures Filter(p, InsertAfter(le, s, x)) ==
            if p(x) then InsertAfter(le, Filter(p, s), x) else Filter(p, s)
  {
    if s == [] || le(s[|s| - 1], x) {
      InsertAfterLast(le, p, s, x);
      FilterSnoc(p, s, x);
    } else {
      var n := |s| - 1;
      var f := Filter(p, s[..n]);
      InsertAfterFilter(le, p, s[..n], x);
      FilterSnoc(p, InsertAfter(le, s[..n], x), s[n]);
      InsertAfterStep(le, f, s[n], x);
    }
  }

  /** Stable sort: elements equal under the preorder keep their order of arrival. */
  function StableSort<T(!new)>(le: (T, T) -> bool, s: seq<T>): (r: seq<T>)
    ensures multiset(r) == multiset(s)
  {
    if s == [] then
      []
    else
      var n := |s| - 1;
      assert s == s[..n] + [s[n]];
      InsertAfter(le, StableSort(le, s[..n]), s[n])
  }

  lemma {:induction false} StableSortSorted<T(!new)>(le: (T, T) -> bool, s: seq<T>)
    requires TotalPreorder(le)
    ensures Sorted(le, StableSort(le, s))
  {
    if s != [] {
      var n := |s| - 1;
      StableSortSorted(le, s[..n]);
      InsertAfterSorted(le, StableSort(le, s[..n]), s[n]);
    }
  }

  /** Stability in its strongest form: sorting commutes with every filter. */
  lemma {:induction false} StableSortFilter<T(!new)>(le: (T, T) -> bool, p: T -> bool, s: seq<T>)
    requires TotalPreorder(le)
    ensures StableSort(le, Filter(p, s)) == Filter(p, StableSort(le, s))
  {
    if s != [] {
      var n := |s| - 1;
      StableSortFilter(le, p, s[..n]);
      StableSortSorted(le, s[..n]);
      InsertAfterFilter(le, p, StableSort(le, s[..n]), s[n]);
      var f := Filter(p, s[..n]);
      assert (f + [s[n]])[..|f|] == f;
    }
  }
}
