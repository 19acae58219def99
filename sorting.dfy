/** Python's `list.sort(key=..., reverse=True)`: a stable sort in descending key order.
    Keys are integer sequences compared lexicographically, which covers both the
    `datetime` keys (year, month, day, hour, minute) and string keys (code points). */
module Sorting {

  /** Lexicographic order on keys; a proper prefix sorts first. */
  predicate KeyLe(a: seq<int>, b: seq<int>)
    decreases |a|
  {
    a == [] || (b != [] && (a[0] < b[0] || (a[0] == b[0] && KeyLe(a[1..], b[1..]))))
  }

  lemma {:induction false} KeyLeReflexive(a: seq<int>)
    ensures KeyLe(a, a)
    decreases |a|
  {
    if a != [] {
      KeyLeReflexive(a[1..]);
    }
  }

  lemma {:induction false} KeyLeTotal(a: seq<int>, b: seq<int>)
    ensures KeyLe(a, b) || KeyLe(b, a)
    decreases |a|
  {
    if a != [] && b != [] && a[0] == b[0] {
      KeyLeTotal(a[1..], b[1..]);
    }
  }

  lemma {:induction false} KeyLeTransitive(a: seq<int>, b: seq<int>, c: seq<int>)
    requires KeyLe(a, b) && KeyLe(b, c)
    ensures KeyLe(a, c)
    decreases |a|
  {
    if a != [] && a[0] == b[0] && b[0] == c[0] {
      KeyLeTransitive(a[1..], b[1..], c[1..]);
    }
  }

  lemma {:induction false} KeyLeAntisymmetric(a: seq<int>, b: seq<int>)
    requires KeyLe(a, b) && KeyLe(b, a)
    ensures a == b
    decreases |a|
  {
    if a != [] {
      KeyLeAntisymmetric(a[1..], b[1..]);
      assert a == [a[0]] + a[1..] && b == [b[0]] + b[1..];
    }
  }

  /** Every pair of positions is in descending key order. */
  ghost predicate SortedDesc<T>(s: seq<T>, key: T -> seq<int>) {
    forall i, j :: 0 <= i < j < |s| ==> KeyLe(key(s[j]), key(s[i]))
  }

  /** The elements of `s` whose key is `k`, in their order in `s`. */
  function Filter<T>(s: seq<T>, key: T -> seq<int>, k: seq<int>): seq<T> {
    if s == [] then [] else (if key(s[0]) == k then [s[0]] else []) + Filter(s[1..], key, k)
  }

  /** Inserts `x` after every element whose key is at least its own. */
  function InsertDesc<T>(x: T, s: seq<T>, key: T -> seq<int>): (r: seq<T>)
    ensures |r| == |s| + 1
  {
    if s == [] then [x]
    else if KeyLe(key(x), key(s[0])) then [s[0]] + InsertDesc(x, s[1..], key)
    else [x] + s
  }

  /** Insertion sort, taking the elements in list order: the sorted result of the whole list
      is the last element inserted into the sorted result of the others. */
  function SortDesc<T>(s: seq<T>, key: T -> seq<int>): (r: seq<T>)
    ensures |r| == |s|
  {
    if s == [] then []
    else InsertDesc(s[|s| - 1], SortDesc(s[..|s| - 1], key), key)
  }

  lemma {:induction false} InsertDescPermutation<T>(x: T, s: seq<T>, key: T -> seq<int>)
    ensures multiset(InsertDesc(x, s, key)) == multiset(s) + multiset{x}
    decreases |s|
  {
    if s != [] && KeyLe(key(x), key(s[0])) {
      InsertDescPermutation(x, s[1..], key);
      assert s == [s[0]] + s[1..];
    }
  }

  /** The sort only reorders: the result is a permutation of the input. */
  lemma {:induction false} SortDescPermutation<T>(s: seq<T>, key: T -> seq<int>)
    ensures multiset(SortDesc(s, key)) == multiset(s)
    decreases |s|
  {
    if s != [] {
      SortDescPermutation(s[..|s| - 1], key);
      InsertDescPermutation(s[|s| - 1], SortDesc(s[..|s| - 1], key), key);
      assert s == s[..|s| - 1] + [s[|s| - 1]];
    }
  }

  /** `s[:n]`. */
  function Top<T>(s: seq<T>, n: nat): (r: seq<T>)
    ensures |r| == (if |s| <= n then |s| else n) && r <= s
  {
    if |s| <= n then s else s[..n]
  }

  lemma {:induction false} InsertDescSorted<T>(x: T, s: seq<T>, key: T -> seq<int>)
    requires SortedDesc(s, key)
    ensures SortedDesc(InsertDesc(x, s, key), key)
    decreases |s|
  {
    if s == [] {
    } else if KeyLe(key(x), key(s[0])) {
      var rest := InsertDesc(x, s[1..], key);
      InsertDescSorted(x, s[1..], key);
      InsertDescPermutation(x, s[1..], key);
      var r := [s[0]] + rest;
      forall j | 0 < j < |r| ensures KeyLe(key(r[j]), key(r[0])) {
        assert r[j] in multiset(rest);
        assert r[j] in multiset(s[1..]) || r[j] == x;
        if r[j] != x {
          var m :| 0 <= m < |s[1..]| && s[1..][m] == r[j];
          assert s[m + 1] == r[j];
        }
      }
    } else {
      KeyLeTotal(key(x), key(s[0]));
      var r := [x] + s;
      forall j | 0 < j < |r| ensures KeyLe(key(r[j]), key(r[0])) {
        if j > 1 {
          KeyLeTransitive(key(s[j - 1]), key(s[0]), key(x));
        }
      }
    }
  }

  /** The result of the sort is in descending key order. */
  lemma {:induction false} SortDescSorted<T>(s: seq<T>, key: T -> seq<int>)
    ensures SortedDesc(SortDesc(s, key), key)
    decreases |s|
  {
    if s != [] {
      SortDescSorted(s[..|s| - 1], key);
      InsertDescSorted(s[|s| - 1], SortDesc(s[..|s| - 1], key), key);
    }
  }

  lemma {:induction false} FilterAppend<T>(a: seq<T>, b: seq<T>, key: T -> seq<int>, k: seq<int>)
    ensures Filter(a + b, key, k) == Filter(a, key, k) + Filter(b, key, k)
    decreases |a|
  {
    if a == [] {
      assert a + b == b;
    } else {
      var head := if key(a[0]) == k then [a[0]] else [];
      assert (a + b)[0] == a[0] && (a + b)[1..] == a[1..] + b;
      assert Filter(a + b, key, k) == head + Filter(a[1..] + b, key, k);
      FilterAppend(a[1..], b, key, k);
      assert Filter(a, key, k) == head + Filter(a[1..], key, k);
    }
  }

  lemma {:induction false} FilterNone<T>(s: seq<T>, key: T -> seq<int>, k: seq<int>)
    requires forall i :: 0 <= i < |s| ==> key(s[i]) != k
    ensures Filter(s, key, k) == []
    decreases |s|
  {
    if s != [] {
      FilterNone(s[1..], key, k);
    }
  }

  /** In a descending list no element has a key above the head's. */
  lemma KeysBelowHead<T>(s: seq<T>, key: T -> seq<int>, k: seq<int>)
    requires SortedDesc(s, key) && s != [] && !KeyLe(k, key(s[0]))
    ensures forall i :: 0 <= i < |s| ==> key(s[i]) != k
  {
    KeyLeReflexive(k);
    forall i | 0 <= i < |s| ensures key(s[i]) != k {
      if i > 0 {
        assert KeyLe(key(s[i]), key(s[0]));
      }
    }
  }

  /** Putting `x` in front of a descending list whose head key is below its own does not
      reorder the elements that share a key. */
  lemma FilterInFront<T>(x: T, s: seq<T>, key: T -> seq<int>, k: seq<int>)
    requires SortedDesc(s, key) && s != [] && !KeyLe(key(x), key(s[0]))
    ensures Filter([x] + s, key, k) == Filter(s, key, k) + (if key(x) == k then [x] else [])
  {
    var r := [x] + s;
    assert r[0] == x && r[1..] == s;
    if key(x) == k {
      KeysBelowHead(s, key, k);
      FilterNone(s, key, k);
    }
  }

  lemma {:induction false} InsertDescFilter<T>(x: T, s: seq<T>, key: T -> seq<int>, k: seq<int>)
    requires SortedDesc(s, key)
    ensures Filter(InsertDesc(x, s, key), key, k)
         == Filter(s, key, k) + (if key(x) == k then [x] else [])
    decreases |s|
  {
    var fx := if key(x) == k then [x] else [];
    if s == [] {
      assert Filter([x], key, k) == fx + Filter([], key, k);
    } else if KeyLe(key(x), key(s[0])) {
      var rest := InsertDesc(x, s[1..], key);
      var r := [s[0]] + rest;
      assert InsertDesc(x, s, key) == r;
      var f0 := if key(s[0]) == k then [s[0]] else [];
      InsertDescFilter(x, s[1..], key, k);
      assert r[0] == s[0] && r[1..] == rest;
      calc {
        Filter(r, key, k);
        f0 + Filter(rest, key, k);
        f0 + (Filter(s[1..], key, k) + fx);
        (f0 + Filter(s[1..], key, k)) + fx;
        Filter(s, key, k) + fx;
      }
    } else {
      assert InsertDesc(x, s, key) == [x] + s;
      FilterInFront(x, s, key, k);
    }
  }

  /** Stability: among elements with equal keys the sort keeps the original order, i.e. for
      every key value the sorted list and the input list hold the same elements with that
      key, in the same order. */
  lemma {:induction false} SortDescStable<T>(s: seq<T>, key: T -> seq<int>, k: seq<int>)
    ensures Filter(SortDesc(s, key), key, k) == Filter(s, key, k)
    decreases |s|
  {
    if s != [] {
      var init := s[..|s| - 1];
      var x := s[|s| - 1];
      var fx := if key(x) == k then [x] else [];
      SortDescStable(init, key, k);
      SortDescSorted(init, key);
      InsertDescFilter(x, SortDesc(init, key), key, k);
      assert s == init + [x];
      FilterAppend(init, [x], key, k);
      assert Filter([x], key, k) == fx + Filter([], key, k);
      calc {
        Filter(SortDesc(s, key), key, k);
        Filter(InsertDesc(x, SortDesc(init, key), key), key, k);
        Filter(SortDesc(init, key), key, k) + fx;
        Filter(init, key, k) + Filter([x], key, k);
        Filter(s, key, k);
      }
    }
  }

  /** Position of the first element of `s` whose key is `k`. */
  lemma {:induction false} FilterHead<T>(s: seq<T>, key: T -> seq<int>, k: seq<int>) returns (i: nat)
    requires Filter(s, key, k) != []
    ensures i < |s| && s[i] == Filter(s, key, k)[0] && key(s[i]) == k
    ensures forall j :: 0 <= j < i ==> key(s[j]) != k
    decreases |s|
  {
    if key(s[0]) == k {
      i := 0;
    } else {
      var i' := FilterHead(s[1..], key, k);
      i := i' + 1;
    }
  }

  /** After the descending stable sort, the head (`trams[0]`) holds a largest key, and it
      is the first element of the original list with that key. */
  lemma HeadIsFirstMaximal<T>(s: seq<T>, key: T -> seq<int>) returns (i: nat)
    requires s != []
    ensures i < |s| && SortDesc(s, key) != [] && s[i] == SortDesc(s, key)[0]
    ensures forall j :: 0 <= j < |s| ==> KeyLe(key(s[j]), key(s[i]))
    ensures forall j :: 0 <= j < i ==> key(s[j]) != key(s[i])
  {
    var r := SortDesc(s, key);
    SortDescPermutation(s, key);
    var k := key(r[0]);
    SortDescStable(s, key, k);
    assert Filter(r, key, k) == [r[0]] + Filter(r[1..], key, k);
    i := FilterHead(s, key, k);
    SortDescSorted(s, key);
    forall j | 0 <= j < |s| ensures KeyLe(key(s[j]), key(s[i])) {
      assert s[j] in multiset(r);
      var m :| 0 <= m < |r| && r[m] == s[j];
      if m == 0 {
        KeyLeReflexive(k);
      }
    }
  }

  /** Taking the first `n` of the sorted list keeps the `n` largest keys: nothing left out
      has a larger key than anything kept. */
  lemma TopKeepsLargest<T>(s: seq<T>, key: T -> seq<int>, n: nat, i: nat, j: nat)
    requires i < |Top(SortDesc(s, key), n)| <= j < |SortDesc(s, key)|
    ensures KeyLe(key(SortDesc(s, key)[j]), key(Top(SortDesc(s, key), n)[i]))
  {
    SortDescSorted(s, key);
  }

  /** The loop the source runs: an insertion per element, in list order. */
  method SortDescending<T>(s: seq<T>, key: T -> seq<int>) returns (r: seq<T>)
    ensures r == SortDesc(s, key)
  {
    r := [];
    var i := 0;
    while i < |s|
      invariant 0 <= i <= |s|
      invariant r == SortDesc(s[..i], key)
    {
      assert s[..i + 1][..i] == s[..i];
      r := InsertDesc(s[i], r, key);
      i := i + 1;
    }
    assert s[..|s|] == s;
  }
}
