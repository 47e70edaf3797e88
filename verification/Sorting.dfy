/** Stable sorting by a comparison, as Python's sorted(). */
module Sorting {
  /** Insert after everything it does not come before. */
  function Insert<T>(x: T, s: seq<T>, before: (T, T) -> bool): seq<T> {
    if s != [] && before(x, s[|s| - 1]) then Insert(x, s[..|s| - 1], before) + [s[|s| - 1]] else s + [x]
  }

  function Sorted<T>(s: seq<T>, before: (T, T) -> bool): seq<T> {
    if s == [] then [] else Insert(s[|s| - 1], Sorted(s[..|s| - 1], before), before)
  }

  /** `before` compares the elements of `s` by some key. */
  ghost predicate Ranks<T>(s: seq<T>, before: (T, T) -> bool) {
    && (forall a, b, c :: a in s && b in s && c in s && before(a, c) ==> before(a, b) || before(b, c))
    && (forall a, b :: a in s && b in s && before(a, b) ==> !before(b, a))
  }

  ghost predicate InOrder<T>(s: seq<T>, before: (T, T) -> bool) {
    forall i, j :: 0 <= i < j < |s| ==> !before(s[j], s[i])
  }

  lemma {:induction false} InsertKeeps<T>(x: T, s: seq<T>, before: (T, T) -> bool)
    ensures multiset(Insert(x, s, before)) == multiset(s) + multiset{x}
    ensures |Insert(x, s, before)| == |s| + 1
  {
    if s != [] {
      var n := |s| - 1;
      assert s == s[..n] + [s[n]];
      InsertKeeps(x, s[..n], before);
    }
  }

  lemma {:induction false} SortedKeeps<T>(s: seq<T>, before: (T, T) -> bool)
    ensures multiset(Sorted(s, before)) == multiset(s)
    ensures |Sorted(s, before)| == |s|
    ensures forall x :: x in Sorted(s, before) <==> x in s
  {
    if s != [] {
      var n := |s| - 1;
      assert s == s[..n] + [s[n]];
      SortedKeeps(s[..n], before);
      InsertKeeps(s[n], Sorted(s[..n], before), before);
    }
    forall x ensures x in Sorted(s, before) <==> x in s {
      assert x in multiset(Sorted(s, before)) <==> x in multiset(s);
    }
  }

  lemma {:induction false} InsertOrdered<T>(x: T, s: seq<T>, before: (T, T) -> bool)
    requires Ranks(s + [x], before) && InOrder(s, before)
    ensures InOrder(Insert(x, s, before), before)
  {
    if s != [] {
      var n := |s| - 1;
      assert s[n] in s + [x] && x in s + [x];
      if before(x, s[n]) {
        var front := s[..n];
        assert forall y :: y in front + [x] ==> y in s + [x];
        InsertOrdered(x, front, before);
        InsertKeeps(x, front, before);
        var t := Insert(x, front, before);
        forall i | 0 <= i < |t| ensures !before(s[n], t[i]) {
          assert t[i] in multiset(t);
          assert t[i] in front || t[i] == x;
        }
      } else {
        forall i | 0 <= i < n ensures !before(x, s[i]) {
          assert s[i] in s + [x];
          assert !before(s[n], s[i]);
        }
      }
    }
  }

  /** The result is in order when the comparison is one by key. */
  lemma {:induction false} SortedOrders<T>(s: seq<T>, before: (T, T) -> bool)
    requires Ranks(s, before)
    ensures InOrder(Sorted(s, before), before)
  {
    if s != [] {
      var n := |s| - 1;
      var front := s[..n];
      assert forall x :: x in front ==> x in s;
      SortedOrders(front, before);
      SortedKeeps(front, before);
      var sorted := Sorted(front, before);
      forall x | x in sorted + [s[n]] ensures x in s {
        if x in sorted {
          assert x in multiset(sorted);
          assert x in multiset(front);
        } else {
          assert x == s[n];
        }
      }
      InsertOrdered(s[n], sorted, before);
    }
  }
}
