/**
 * The sort both dashboard projectors use: `[...xs].sort((a, b) => key(b) - key(a))`.
 * JavaScript's Array.prototype.sort is stable, so with that comparator the result is
 * the stable descending sort by `key`. It is modelled as an insertion sort and proved
 * sorted, a permutation of its input, stable, and the only sequence with all three
 * properties.
 */
module StableSort {

  /** Non-increasing by `key`: what a comparator `(a, b) => key(b) - key(a)` asks for. */
  predicate SortedDesc<T>(s: seq<T>, key: T -> real)
  {
    forall i, j :: 0 <= i < j < |s| ==> key(s[i]) >= key(s[j])
  }

  /** The elements of `s` whose key is `k`, in the order of `s`. */
  function KeyFilter<T>(s: seq<T>, key: T -> real, k: real): seq<T>
  {
    if s == [] then []
    else (if key(s[0]) == k then [s[0]] else []) + KeyFilter(s[1..], key, k)
  }

  /** Putting in front an element whose key is not below the head keeps a sequence sorted. */
  lemma SortedCons<T>(y: T, t: seq<T>, key: T -> real)
    ensures SortedDesc(t, key) && (t != [] ==> key(y) >= key(t[0])) ==> SortedDesc([y] + t, key)
  {
    if SortedDesc(t, key) && (t != [] ==> key(y) >= key(t[0])) {
      var r := [y] + t;
      forall i, j | 0 <= i < j < |r|
        ensures key(r[i]) >= key(r[j])
      {
        if i == 0 {
          assert key(t[0]) >= key(t[j - 1]) || j == 1;
        } else {
          assert r[i] == t[i - 1] && r[j] == t[j - 1];
        }
      }
    }
  }

  /**
   * Inserts `x` in front of the first element whose key is not greater than its own,
   * so `x` stays ahead of the elements with an equal key.
   */
  function Insert<T>(x: T, s: seq<T>, key: T -> real): (r: seq<T>)
    ensures |r| == |s| + 1
    ensures multiset(r) == multiset(s) + multiset{x}
    ensures r[0] == x || (s != [] && r[0] == s[0])
    ensures SortedDesc(s, key) ==> SortedDesc(r, key)
  {
    if s == [] || key(x) >= key(s[0]) then
      SortedCons(x, s, key);
      [x] + s
    else
      assert s == [s[0]] + s[1..];
      var rest := Insert(x, s[1..], key);
      assert SortedDesc(s, key) ==> SortedDesc(s[1..], key) && key(s[0]) >= key(rest[0]);
      SortedCons(s[0], rest, key);
      [s[0]] + rest
  }

  /** The stable sort, descending by `key`. */
  function SortDesc<T>(s: seq<T>, key: T -> real): (r: seq<T>)
    ensures |r| == |s|
    ensures multiset(r) == multiset(s)
    ensures SortedDesc(r, key)
  {
    if s == [] then []
    else
      assert s == [s[0]] + s[1..];
      Insert(s[0], SortDesc(s[1..], key), key)
  }

  lemma {:induction false} KeyFilterAppend<T>(a: seq<T>, b: seq<T>, key: T -> real, k: real)
    ensures KeyFilter(a + b, key, k) == KeyFilter(a, key, k) + KeyFilter(b, key, k)
  {
    if a != [] {
      assert (a + b)[0] == a[0];
      assert (a + b)[1..] == a[1..] + b;
      KeyFilterAppend(a[1..], b, key, k);
    } else {
      assert a + b == b;
    }
  }

  /** Inserting `x` puts it first among the elements that share its key. */
  lemma {:induction false} InsertKeyFilter<T>(x: T, s: seq<T>, key: T -> real, k: real)
    ensures KeyFilter(Insert(x, s, key), key, k)
         == (if key(x) == k then [x] else []) + KeyFilter(s, key, k)
  {
    if s == [] || key(x) >= key(s[0]) {
      assert ([x] + s)[1..] == s;
    } else {
      var r := Insert(x, s, key);
      assert r[1..] == Insert(x, s[1..], key);
      InsertKeyFilter(x, s[1..], key, k);
    }
  }

  /** Stability: for every key, the elements with that key keep their input order. */
  lemma {:induction false} SortDescStable<T>(s: seq<T>, key: T -> real, k: real)
    ensures KeyFilter(SortDesc(s, key), key, k) == KeyFilter(s, key, k)
  {
    if s != [] {
      SortDescStable(s[1..], key, k);
      InsertKeyFilter(s[0], SortDesc(s[1..], key), key, k);
    }
  }

  lemma {:induction false} KeyFilterHasAll<T>(s: seq<T>, key: T -> real, i: nat)
    requires i < |s|
    ensures s[i] in KeyFilter(s, key, key(s[i]))
  {
    if i > 0 {
      KeyFilterHasAll(s[1..], key, i - 1);
    }
  }

  lemma {:induction false} KeyFilterMembers<T>(s: seq<T>, key: T -> real, k: real, x: T)
    requires x in KeyFilter(s, key, k)
    ensures x in s && key(x) == k
  {
    if s != [] && !(key(s[0]) == k && x == s[0]) {
      KeyFilterMembers(s[1..], key, k, x);
    }
  }

  /** A prefix of a descending sequence is descending and takes nothing the sequence does not hold. */
  lemma SortedPrefix<T>(s: seq<T>, key: T -> real, n: nat)
    requires SortedDesc(s, key) && n <= |s|
    ensures SortedDesc(s[..n], key)
    ensures multiset(s[..n]) <= multiset(s)
  {
    assert s == s[..n] + s[n..];
    assert multiset(s) == multiset(s[..n]) + multiset(s[n..]);
  }

  /** In a descending sequence, nothing after position `n - 1` has a greater key. */
  lemma SortedSuffixBelow<T>(s: seq<T>, key: T -> real, n: nat)
    requires SortedDesc(s, key) && 0 < n <= |s|
    ensures forall v :: v in multiset(s[n..]) ==> key(v) <= key(s[n - 1])
  {
    forall v | v in multiset(s[n..])
      ensures key(v) <= key(s[n - 1])
    {
      assert v in s[n..];
      var i :| 0 <= i < |s| - n && s[n..][i] == v;
      assert s[n + i] == v;
    }
  }

  /** `a` and `b` hold, for every key, the same elements in the same order. */
  ghost predicate SameKeyFilters<T>(a: seq<T>, b: seq<T>, key: T -> real)
  {
    forall k :: KeyFilter(a, key, k) == KeyFilter(b, key, k)
  }

  /** A non-empty sequence has an element with the key of its head, so its filter for that key is not empty. */
  lemma HeadKeyFilterNonEmpty<T>(s: seq<T>, key: T -> real)
    requires s != []
    ensures KeyFilter(s, key, key(s[0])) != [] && KeyFilter(s, key, key(s[0]))[0] == s[0]
  {
  }

  /** Sorted sequences with the same filters start with the same element. */
  lemma {:induction false} SortedHeadsAgree<T>(a: seq<T>, b: seq<T>, key: T -> real)
    requires a != [] && b != []
    requires SortedDesc(a, key) && SortedDesc(b, key) && SameKeyFilters(a, b, key)
    ensures a[0] == b[0]
  {
    var ma, mb := key(a[0]), key(b[0]);
    KeyFilterHasAll(a, key, 0);
    assert a[0] in KeyFilter(b, key, ma);
    KeyFilterMembers(b, key, ma, a[0]);
    KeyFilterHasAll(b, key, 0);
    assert b[0] in KeyFilter(a, key, mb);
    KeyFilterMembers(a, key, mb, b[0]);
    assert ma == mb;
    HeadKeyFilterNonEmpty(a, key);
    HeadKeyFilterNonEmpty(b, key);
    assert KeyFilter(a, key, ma) == KeyFilter(b, key, ma);
  }

  /** Dropping a common head keeps the filters equal. */
  lemma SameKeyFiltersTail<T>(a: seq<T>, b: seq<T>, key: T -> real)
    requires a != [] && b != [] && a[0] == b[0] && SameKeyFilters(a, b, key)
    ensures SameKeyFilters(a[1..], b[1..], key)
  {
    forall k
      ensures KeyFilter(a[1..], key, k) == KeyFilter(b[1..], key, k)
    {
      var head := if key(a[0]) == k then [a[0]] else [];
      assert KeyFilter(a, key, k) == head + KeyFilter(a[1..], key, k);
      assert KeyFilter(b, key, k) == head + KeyFilter(b[1..], key, k);
      assert KeyFilter(a[1..], key, k) == (head + KeyFilter(a[1..], key, k))[|head|..];
      assert KeyFilter(b[1..], key, k) == (head + KeyFilter(b[1..], key, k))[|head|..];
    }
  }

  /** Only the empty sequence has every filter empty. */
  lemma EmptyFilters<T>(a: seq<T>, b: seq<T>, key: T -> real)
    requires a == [] && SameKeyFilters(a, b, key)
    ensures b == []
  {
    if b != [] {
      HeadKeyFilterNonEmpty(b, key);
    }
  }

  /**
   * Two sequences that are sorted descending and agree on every key's filter are
   * equal; so sortedness and stability together fix the output of the sort.
   */
  lemma {:induction false} SortedStableUnique<T>(a: seq<T>, b: seq<T>, key: T -> real)
    requires SortedDesc(a, key) && SortedDesc(b, key)
    requires SameKeyFilters(a, b, key)
    ensures a == b
    decreases |a|
  {
    if a == [] {
      EmptyFilters(a, b, key);
    } else if b == [] {
      EmptyFilters(b, a, key);
    } else {
      SortedHeadsAgree(a, b, key);
      SameKeyFiltersTail(a, b, key);
      assert SortedDesc(a[1..], key) && SortedDesc(b[1..], key);
      SortedStableUnique(a[1..], b[1..], key);
      assert a == [a[0]] + a[1..] && b == [b[0]] + b[1..];
    }
  }

  /**
   * The stable descending sort, characterised: a sequence is `SortDesc(s, key)` exactly
   * when it is sorted descending and keeps, for every key, the input order.
   */
  lemma SortDescCharacterised<T>(s: seq<T>, r: seq<T>, key: T -> real)
    ensures r == SortDesc(s, key) <==> SortedDesc(r, key) && SameKeyFilters(r, s, key)
  {
    forall k
      ensures KeyFilter(SortDesc(s, key), key, k) == KeyFilter(s, key, k)
    {
      SortDescStable(s, key, k);
    }
    if SortedDesc(r, key) && SameKeyFilters(r, s, key) {
      SortedStableUnique(r, SortDesc(s, key), key);
    }
  }

  /** Sorting a sequence that is already descending changes nothing, ties included. */
  lemma SortDescOfSorted<T>(s: seq<T>, key: T -> real)
    requires SortedDesc(s, key)
    ensures SortDesc(s, key) == s
  {
    SortDescCharacterised(s, s, key);
  }
}
