/**
 * Python's `sorted(s, key=...)`: a stable sort by a key. It is modelled by insertion
 * sort; `StableSortUnique` shows that any sorted, order-keeping rearrangement (the one
 * Python's own algorithm computes included) is that same sequence.
 */
module Sorting {

  /** A total order on keys: reflexive, antisymmetric, transitive and total. */
  ghost predicate TotalOrder<K(!new)>(le: (K, K) -> bool) {
    (forall a :: le(a, a))
    && (forall a, b :: le(a, b) && le(b, a) ==> a == b)
    && (forall a, b, c :: le(a, b) && le(b, c) ==> le(a, c))
    && (forall a, b :: le(a, b) || le(b, a))
  }

  predicate SortedBy<T, K>(s: seq<T>, key: T -> K, le: (K, K) -> bool) {
    forall i, j :: 0 <= i < j < |s| ==> le(key(s[i]), key(s[j]))
  }

  /** The elements whose key is k, in their order in s. */
  ghost function KeyFilter<T, K>(s: seq<T>, key: T -> K, k: K): seq<T> {
    if s == [] then [] else (if key(s[0]) == k then [s[0]] else []) + KeyFilter(s[1..], key, k)
  }

  /** x placed before the first element whose key is not smaller than its own. */
  function Insert<T, K>(x: T, s: seq<T>, key: T -> K, le: (K, K) -> bool): seq<T> {
    if s == [] || le(key(x), key(s[0])) then [x] + s else [s[0]] + Insert(x, s[1..], key, le)
  }

  function SortBy<T, K>(s: seq<T>, key: T -> K, le: (K, K) -> bool): seq<T> {
    if s == [] then [] else Insert(s[0], SortBy(s[1..], key, le), key, le)
  }

  lemma {:induction false} InsertPermutation<T, K>(x: T, s: seq<T>, key: T -> K, le: (K, K) -> bool)
    ensures multiset(Insert(x, s, key, le)) == multiset(s) + multiset{x}
  {
    if s != [] && !le(key(x), key(s[0])) {
      InsertPermutation(x, s[1..], key, le);
      assert s == [s[0]] + s[1..];
    }
  }

  /** The sorted sequence holds the same elements, as often, as the input. */
  lemma {:induction false} SortByPermutation<T, K>(s: seq<T>, key: T -> K, le: (K, K) -> bool)
    ensures multiset(SortBy(s, key, le)) == multiset(s)
  {
    if s != [] {
      SortByPermutation(s[1..], key, le);
      InsertPermutation(s[0], SortBy(s[1..], key, le), key, le);
      assert s == [s[0]] + s[1..];
    }
  }

  lemma {:induction false} InsertSorted<T, K(!new)>(x: T, s: seq<T>, key: T -> K, le: (K, K) -> bool)
    requires TotalOrder(le) && SortedBy(s, key, le)
    ensures SortedBy(Insert(x, s, key, le), key, le)
    ensures multiset(Insert(x, s, key, le)) == multiset(s) + multiset{x}
  {
    InsertPermutation(x, s, key, le);
    if s != [] && !le(key(x), key(s[0])) {
      InsertSorted(x, s[1..], key, le);
      var r := Insert(x, s[1..], key, le);
      assert multiset(r) == multiset(s[1..]) + multiset{x};
      forall j | 0 <= j < |r|
        ensures le(key(s[0]), key(r[j]))
      {
        assert r[j] in multiset(r);
        if r[j] == x {
        } else {
          assert r[j] in multiset(s[1..]);
          var m :| 0 <= m < |s[1..]| && s[1..][m] == r[j];
          assert s[m + 1] == r[j];
        }
      }
    }
  }

  /** The result is in ascending key order. */
  lemma {:induction false} SortBySorted<T, K(!new)>(s: seq<T>, key: T -> K, le: (K, K) -> bool)
    requires TotalOrder(le)
    ensures SortedBy(SortBy(s, key, le), key, le)
  {
    if s != [] {
      SortBySorted(s[1..], key, le);
      InsertSorted(s[0], SortBy(s[1..], key, le), key, le);
    }
  }

  lemma {:induction false} InsertStable<T, K>(x: T, s: seq<T>, key: T -> K, le: (K, K) -> bool, k: K)
    requires forall a :: le(a, a)
    ensures KeyFilter(Insert(x, s, key, le), key, k)
            == (if key(x) == k then [x] else []) + KeyFilter(s, key, k)
  {
    if s != [] && !le(key(x), key(s[0])) {
      InsertStable(x, s[1..], key, le, k);
      var r := Insert(x, s, key, le);
      assert r[1..] == Insert(x, s[1..], key, le);
    } else {
      var r := Insert(x, s, key, le);
      assert r[1..] == s;
    }
  }

  /** Stability: the elements with any one key keep the order they had in the input. */
  lemma {:induction false} SortByStable<T, K>(s: seq<T>, key: T -> K, le: (K, K) -> bool, k: K)
    requires forall a :: le(a, a)
    ensures KeyFilter(SortBy(s, key, le), key, k) == KeyFilter(s, key, k)
  {
    if s != [] {
      SortByStable(s[1..], key, le, k);
      InsertStable(s[0], SortBy(s[1..], key, le), key, le, k);
    }
  }

  lemma KeyFilterHead<T, K>(s: seq<T>, key: T -> K)
    requires s != []
    ensures KeyFilter(s, key, key(s[0])) != []
  {
  }

  lemma {:induction false} KeyFilterWitness<T, K>(s: seq<T>, key: T -> K, k: K)
    requires KeyFilter(s, key, k) != []
    ensures exists i :: 0 <= i < |s| && key(s[i]) == k
  {
    if key(s[0]) != k {
      KeyFilterWitness(s[1..], key, k);
      var i :| 0 <= i < |s[1..]| && key(s[1..][i]) == k;
      assert key(s[i + 1]) == k;
    }
  }

  /**
   * A stable sort has only one possible result: two sequences sorted by the key, with the
   * same elements in the same order for every key, are equal.
   */
  lemma {:induction false} StableSortUnique<T, K(!new)>(a: seq<T>, b: seq<T>, key: T -> K, le: (K, K) -> bool)
    requires TotalOrder(le)
    requires SortedBy(a, key, le) && SortedBy(b, key, le)
    requires forall k :: KeyFilter(a, key, k) == KeyFilter(b, key, k)
    ensures a == b
    decreases |a|
  {
    if a == [] && b == [] {
    } else if a == [] || b == [] {
      KeyFilterHead(if a == [] then b else a, key);
      assert false;
    } else {
      var ka, kb := key(a[0]), key(b[0]);
      assert KeyFilter(a, key, ka)[0] == a[0];
      KeyFilterWitness(b, key, ka);
      var i :| 0 <= i < |b| && key(b[i]) == ka;
      assert le(kb, ka) by { if i > 0 { assert le(key(b[0]), key(b[i])); } }
      assert KeyFilter(b, key, kb)[0] == b[0];
      KeyFilterWitness(a, key, kb);
      var j :| 0 <= j < |a| && key(a[j]) == kb;
      assert le(ka, kb) by { if j > 0 { assert le(key(a[0]), key(a[j])); } }
      assert ka == kb;
      assert a[0] == KeyFilter(a, key, ka)[0] == KeyFilter(b, key, ka)[0] == b[0];
      forall k
        ensures KeyFilter(a[1..], key, k) == KeyFilter(b[1..], key, k)
      {
        assert KeyFilter(a, key, k) == KeyFilter(b, key, k);
        assert KeyFilter(a, key, k) == (if ka == k then [a[0]] else []) + KeyFilter(a[1..], key, k);
        assert KeyFilter(b, key, k) == (if kb == k then [b[0]] else []) + KeyFilter(b[1..], key, k);
        if ka == k {
          assert KeyFilter(a[1..], key, k) == KeyFilter(a, key, k)[1..];
          assert KeyFilter(b[1..], key, k) == KeyFilter(b, key, k)[1..];
        } else {
          assert kb != k;
          assert [] + KeyFilter(a[1..], key, k) == KeyFilter(a[1..], key, k);
          assert [] + KeyFilter(b[1..], key, k) == KeyFilter(b[1..], key, k);
        }
      }
      StableSortUnique(a[1..], b[1..], key, le);
      assert a == [a[0]] + a[1..] && b == [b[0]] + b[1..];
    }
  }

  /** Python's `<=` on strings: code point by code point, a proper prefix first. */
  predicate StrLe(a: string, b: string) {
    if a == [] then true
    else if b == [] then false
    else if a[0] != b[0] then a[0] < b[0]
    else StrLe(a[1..], b[1..])
  }

  lemma {:induction false} StrLeFacts(a: string, b: string, c: string)
    ensures StrLe(a, a)
    ensures StrLe(a, b) && StrLe(b, a) ==> a == b
    ensures StrLe(a, b) && StrLe(b, c) ==> StrLe(a, c)
    ensures StrLe(a, b) || StrLe(b, a)
  {
    if a != [] && b != [] && c != [] {
      StrLeFacts(a[1..], b[1..], c[1..]);
      assert a == [a[0]] + a[1..] && b == [b[0]] + b[1..];
    } else if a != [] && b != [] {
      StrLeFacts(a[1..], b[1..], a[1..]);
      assert a == [a[0]] + a[1..] && b == [b[0]] + b[1..];
    } else if a != [] {
      StrLeFacts(a[1..], a[1..], a[1..]);
    }
  }

  /** The order of strings is a total order, so sorting by a string key is well defined. */
  lemma StrLeTotalOrder()
    ensures TotalOrder(StrLe)
  {
    forall a, b, c
      ensures StrLe(a, a)
      ensures StrLe(a, b) && StrLe(b, a) ==> a == b
      ensures StrLe(a, b) && StrLe(b, c) ==> StrLe(a, c)
      ensures StrLe(a, b) || StrLe(b, a)
    {
      StrLeFacts(a, b, c);
    }
  }
}
