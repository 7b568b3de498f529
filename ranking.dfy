/** Python's `sorted(xs, key=key, reverse=True)`: a stable sort into
    descending key order. Elements with equal keys keep their input order. */
module Ranking {

  ghost predicate Descending<T>(s: seq<T>, key: T -> real)
  {
    forall i, j :: 0 <= i < j < |s| ==> key(s[i]) >= key(s[j])
  }

  ghost predicate AllAtMost<T>(s: seq<T>, key: T -> real, bound: real)
  {
    forall i :: 0 <= i < |s| ==> key(s[i]) <= bound
  }

  /** Puts `x` in front of the first element whose key is not larger than its own. */
  function Insert<T>(x: T, s: seq<T>, key: T -> real): (r: seq<T>)
    ensures |r| == |s| + 1
    ensures multiset(r) == multiset{x} + multiset(s)
  {
    if s == [] || key(s[0]) <= key(x) then
      [x] + s
    else
      assert s == [s[0]] + s[1..];
      [s[0]] + Insert(x, s[1..], key)
  }

  /** The stable descending sort, by insertion from the back of the input. */
  function SortDescending<T>(s: seq<T>, key: T -> real): (r: seq<T>)
    ensures |r| == |s|
    ensures multiset(r) == multiset(s)
  {
    if s == [] then []
    else
      assert s == [s[0]] + s[1..];
      Insert(s[0], SortDescending(s[1..], key), key)
  }

  lemma {:induction false} InsertBounded<T>(x: T, s: seq<T>, key: T -> real, bound: real)
    requires AllAtMost(s, key, bound) && key(x) <= bound
    ensures AllAtMost(Insert(x, s, key), key, bound)
  {
    if !(s == [] || key(s[0]) <= key(x)) {
      InsertBounded(x, s[1..], key, bound);
    }
  }

  /** Prepending an element no smaller than the rest keeps the order. */
  lemma DescendingCons<T>(x: T, s: seq<T>, key: T -> real)
    requires Descending(s, key) && AllAtMost(s, key, key(x))
    ensures Descending([x] + s, key)
  {
    var r := [x] + s;
    forall i, j | 0 <= i < j < |r| ensures key(r[i]) >= key(r[j]) {
      assert r[j] == s[j - 1];
      if i > 0 {
        assert r[i] == s[i - 1];
      }
    }
  }

  lemma {:induction false} InsertKeepsDescending<T>(x: T, s: seq<T>, key: T -> real)
    requires Descending(s, key)
    ensures Descending(Insert(x, s, key), key)
  {
    if s == [] || key(s[0]) <= key(x) {
      DescendingCons(x, s, key);
    } else {
      InsertKeepsDescending(x, s[1..], key);
      InsertBounded(x, s[1..], key, key(s[0]));
      DescendingCons(s[0], Insert(x, s[1..], key), key);
    }
  }

  /** The result is in descending key order and is a permutation of the input. */
  lemma {:induction false} SortIsSorted<T>(s: seq<T>, key: T -> real)
    ensures Descending(SortDescending(s, key), key)
    ensures multiset(SortDescending(s, key)) == multiset(s)
  {
    if s != [] {
      SortIsSorted(s[1..], key);
      InsertKeepsDescending(s[0], SortDescending(s[1..], key), key);
    }
  }

  /** The subsequence of `s` whose key equals `v`, in order. */
  function WithKey<T>(s: seq<T>, key: T -> real, v: real): seq<T>
  {
    if s == [] then []
    else if key(s[0]) == v then [s[0]] + WithKey(s[1..], key, v)
    else WithKey(s[1..], key, v)
  }

  /** Filtering a sequence with a new head filters the head, then the rest. */
  lemma WithKeyCons<T>(x: T, s: seq<T>, key: T -> real, v: real)
    ensures key(x) == v ==> WithKey([x] + s, key, v) == [x] + WithKey(s, key, v)
    ensures key(x) != v ==> WithKey([x] + s, key, v) == WithKey(s, key, v)
  {
    assert ([x] + s)[0] == x && ([x] + s)[1..] == s;
  }

  /** Inserting `x` adds it to its own key class, in front, and changes no other class. */
  lemma {:induction false} WithKeyInsert<T>(x: T, s: seq<T>, key: T -> real, v: real)
    ensures key(x) == v ==> WithKey(Insert(x, s, key), key, v) == [x] + WithKey(s, key, v)
    ensures key(x) != v ==> WithKey(Insert(x, s, key), key, v) == WithKey(s, key, v)
  {
    if s == [] || key(s[0]) <= key(x) {
      WithKeyCons(x, s, key, v);
    } else {
      var rest := Insert(x, s[1..], key);
      WithKeyInsert(x, s[1..], key, v);
      WithKeyCons(s[0], rest, key, v);
      if key(x) == v {
        assert key(s[0]) != v;
      }
    }
  }

  /** Stability: restricted to any one key value, the sorted order is the input order. */
  lemma {:induction false} SortIsStable<T>(s: seq<T>, key: T -> real, v: real)
    ensures WithKey(SortDescending(s, key), key, v) == WithKey(s, key, v)
  {
    if s != [] {
      WithKeyInsert(s[0], SortDescending(s[1..], key), key, v);
      SortIsStable(s[1..], key, v);
    }
  }

  /** A prefix of a descending sequence outranks the rest: nothing left out
      has a larger key than anything kept. */
  lemma PrefixOutranksRest<T>(s: seq<T>, n: nat, key: T -> real)
    requires n <= |s| && Descending(s, key)
    ensures forall p, q :: p in s && p !in s[..n] && q in s[..n] ==> key(p) <= key(q)
  {
    forall p, q | p in s && p !in s[..n] && q in s[..n] ensures key(p) <= key(q) {
      var i :| 0 <= i < n && s[..n][i] == q;
      assert s[i] == q;
    }
  }

  /** The first `n` of the sorted input, as a leaderboard shows them: `n`
      elements of the input, in descending key order, none outranked by an
      element left out, and each key class a prefix of that class in input order. */
  lemma {:induction false} SortedPrefix<T>(s: seq<T>, n: nat, key: T -> real, v: real)
    requires n <= |s|
    ensures var top := SortDescending(s, key)[..n];
      && |top| == n
      && Descending(top, key)
      && (forall p :: p in top ==> p in s)
      && (forall p, q :: p in s && p !in top && q in top ==> key(p) <= key(q))
      && WithKey(top, key, v) <= WithKey(s, key, v)
  {
    var sorted := SortDescending(s, key);
    SortIsSorted(s, key);
    SortIsStable(s, key, v);
    PrefixOutranksRest(sorted, n, key);
    WithKeyOfPrefix(sorted, n, key, v);
    SameElements(s, sorted, n);
  }

  /** A permutation has the same elements, so a prefix of it holds only elements of the original. */
  lemma SameElements<T>(s: seq<T>, t: seq<T>, n: nat)
    requires multiset(s) == multiset(t) && n <= |t|
    ensures forall p :: p in t[..n] ==> p in s
    ensures forall p :: p in s ==> p in t
  {
    forall p | p in t[..n] ensures p in s {
      assert p in multiset(t);
    }
    forall p | p in s ensures p in t {
      assert p in multiset(s);
    }
  }

  /** Cutting a sequence short cuts each of its key classes short. */
  lemma {:induction false} WithKeyOfPrefix<T>(s: seq<T>, n: nat, key: T -> real, v: real)
    requires n <= |s|
    ensures WithKey(s[..n], key, v) <= WithKey(s, key, v)
  {
    if n > 0 {
      assert s[..n][1..] == s[1..][..n - 1];
      WithKeyOfPrefix(s[1..], n - 1, key, v);
    }
  }
}
