/** `Array.prototype.sort(cmp)` with a comparator of the form `(a, b) => key(a) - key(b)`. Since
    ECMAScript 2019 the sort is stable, so the result is determined: elements are ordered by key,
    and elements with equal keys keep their input order. This module gives that result as an
    insertion sort and proves it ordered, a permutation, and the identity on already-ordered input. */
module Sorting {

  ghost predicate SortedBy<T>(s: seq<T>, key: T -> real) {
    forall i, j :: 0 <= i < j < |s| ==> key(s[i]) <= key(s[j])
  }

  /** Where `Insert` puts `x`: after the last element, scanning from the back, whose key is at most
      `key(x)`. */
  function InsertPos<T>(s: seq<T>, x: T, key: T -> real): (k: nat)
    ensures k <= |s|
  {
    if |s| == 0 || key(s[|s| - 1]) <= key(x) then |s| else InsertPos(s[..|s| - 1], x, key)
  }

  /** `x` placed at its insertion position. */
  function Insert<T>(s: seq<T>, x: T, key: T -> real): (r: seq<T>)
    ensures |r| == |s| + 1
  {
    var k := InsertPos(s, x, key);
    s[..k] + [x] + s[k..]
  }

  /** Every element after the insertion position has a larger key than `x`, and the one just before
      it does not. */
  lemma {:induction false} InsertPosBounds<T>(s: seq<T>, x: T, key: T -> real)
    ensures forall i :: InsertPos(s, x, key) <= i < |s| ==> key(x) < key(s[i])
    ensures InsertPos(s, x, key) > 0 ==> key(s[InsertPos(s, x, key) - 1]) <= key(x)
  {
    if |s| > 0 && key(s[|s| - 1]) > key(x) {
      var init := s[..|s| - 1];
      InsertPosBounds(init, x, key);
      assert forall i :: 0 <= i < |init| ==> init[i] == s[i];
    }
  }

  lemma InsertPermutes<T>(s: seq<T>, x: T, key: T -> real)
    ensures multiset(Insert(s, x, key)) == multiset(s) + multiset{x}
  {
    var k := InsertPos(s, x, key);
    assert s == s[..k] + s[k..];
  }

  /** The stable sort of `s` in ascending key order. */
  function SortBy<T>(s: seq<T>, key: T -> real): (r: seq<T>)
    ensures |r| == |s|
    ensures multiset(r) == multiset(s)
  {
    if |s| == 0 then []
    else
      var init, last := s[..|s| - 1], s[|s| - 1];
      var sorted := SortBy(init, key);
      InsertPermutes(sorted, last, key);
      assert s == init + [last];
      Insert(sorted, last, key)
  }

  lemma InsertSorted<T>(s: seq<T>, x: T, key: T -> real)
    requires SortedBy(s, key)
    ensures SortedBy(Insert(s, x, key), key)
  {
    InsertPosBounds(s, x, key);
    var k := InsertPos(s, x, key);
    var r := Insert(s, x, key);
    assert forall i :: 0 <= i < k ==> r[i] == s[i];
    assert r[k] == x;
    assert forall i :: k < i < |r| ==> r[i] == s[i - 1];
    forall i, j | 0 <= i < j < |r|
      ensures key(r[i]) <= key(r[j])
    {
      if j < k {
      } else if i < k && j == k {
        assert key(s[i]) <= key(s[k - 1]);
      } else if i < k {
        assert key(s[i]) <= key(s[j - 1]);
      } else if i == k {
      } else {
        assert key(s[i - 1]) <= key(s[j - 1]);
      }
    }
  }

  lemma {:induction false} SortBySorted<T>(s: seq<T>, key: T -> real)
    ensures SortedBy(SortBy(s, key), key)
  {
    if |s| > 0 {
      SortBySorted(s[..|s| - 1], key);
      InsertSorted(SortBy(s[..|s| - 1], key), s[|s| - 1], key);
    }
  }

  /** Input already in key order is left as it is; in particular a comparator that always answers 0
      leaves the array unchanged. */
  lemma {:induction false} SortByOrdered<T>(s: seq<T>, key: T -> real)
    requires SortedBy(s, key)
    ensures SortBy(s, key) == s
  {
    if |s| > 0 {
      var init, last := s[..|s| - 1], s[|s| - 1];
      assert SortedBy(init, key) by {
        forall i, j | 0 <= i < j < |init| ensures key(init[i]) <= key(init[j]) {
          assert init[i] == s[i] && init[j] == s[j];
        }
      }
      SortByOrdered(init, key);
      assert InsertPos(init, last, key) == |init| by {
        if |init| > 0 {
          assert init[|init| - 1] == s[|s| - 2];
          assert key(s[|s| - 2]) <= key(s[|s| - 1]);
        }
      }
      assert init[..|init|] + [last] + init[|init|..] == s;
    }
  }

  lemma SortByConstantKey<T>(s: seq<T>, key: T -> real)
    requires forall i, j :: 0 <= i < |s| && 0 <= j < |s| ==> key(s[i]) == key(s[j])
    ensures SortBy(s, key) == s
  {
    SortByOrdered(s, key);
  }
}
