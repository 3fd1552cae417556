/** Stable sorting by a numeric key: what the array sorts and the ordered queries of the sources do. */
module Sorting {
  import opened Options

  predicate Ordered<T>(s: seq<T>, key: T -> int) {
    forall i, j :: 0 <= i < j < |s| ==> key(s[i]) <= key(s[j])
  }

  // Before everything that is not smaller, so equal keys keep their order.
  function InsertedBy<T>(s: seq<T>, x: T, key: T -> int): seq<T> {
    if s == [] || key(x) <= key(s[0]) then [x] + s else [s[0]] + InsertedBy(s[1..], x, key)
  }

  function SortedBy<T>(s: seq<T>, key: T -> int): seq<T> {
    if s == [] then [] else InsertedBy(SortedBy(s[1..], key), s[0], key)
  }

  lemma {:induction false} InsertedElements<T>(s: seq<T>, x: T, key: T -> int)
    ensures multiset(InsertedBy(s, x, key)) == multiset(s) + multiset{x}
  {
    if s == [] || key(x) <= key(s[0]) {
    } else {
      InsertedElements(s[1..], x, key);
      assert s == [s[0]] + s[1..];
    }
  }

  lemma {:induction false} InsertedOrdered<T>(s: seq<T>, x: T, key: T -> int)
    requires Ordered(s, key)
    ensures Ordered(InsertedBy(s, x, key), key)
    ensures forall i :: 0 <= i < |InsertedBy(s, x, key)| ==>
              || key(InsertedBy(s, x, key)[i]) >= key(x)
              || (s != [] && key(InsertedBy(s, x, key)[i]) >= key(s[0]))
  {
    if s == [] || key(x) <= key(s[0]) {
    } else {
      InsertedOrdered(s[1..], x, key);
    }
  }

  // Sorting orders the elements and keeps every one of them.
  lemma {:induction false} SortedKeeps<T>(s: seq<T>, key: T -> int)
    ensures Ordered(SortedBy(s, key), key) && |SortedBy(s, key)| == |s|
    ensures multiset(SortedBy(s, key)) == multiset(s)
    ensures forall x :: x in SortedBy(s, key) <==> x in s
  {
    if s == [] {
    } else {
      SortedKeeps(s[1..], key);
      InsertedElements(SortedBy(s[1..], key), s[0], key);
      InsertedOrdered(SortedBy(s[1..], key), s[0], key);
      assert s == [s[0]] + s[1..];
    }
    assert |SortedBy(s, key)| == |multiset(SortedBy(s, key))|;
    assert forall x :: x in SortedBy(s, key) <==> x in multiset(SortedBy(s, key));
  }

  lemma {:induction false} SortedIsFixed<T>(s: seq<T>, key: T -> int)
    requires Ordered(s, key)
    ensures SortedBy(s, key) == s
  {
    if s == [] {
    } else {
      SortedIsFixed(s[1..], key);
      assert s == [s[0]] + s[1..];
    }
  }

  // ----- merging

  // Of equal keys the first sequence's come first.
  function Merged<T>(x: seq<T>, y: seq<T>, key: T -> int): seq<T> {
    if x == [] then y
    else if y == [] then x
    else if key(x[0]) <= key(y[0]) then [x[0]] + Merged(x[1..], y, key)
    else [y[0]] + Merged(x, y[1..], key)
  }

  lemma {:induction false} InsertIntoMerged<T>(x: seq<T>, y: seq<T>, h: T, key: T -> int)
    ensures InsertedBy(Merged(x, y, key), h, key) == Merged(InsertedBy(x, h, key), y, key)
    decreases |x| + |y|
  {
    if x == [] || y == [] {
      MergeOneIn(x, y, h, key);
    } else if key(x[0]) <= key(y[0]) {
      if key(h) <= key(x[0]) {
        assert ([h] + x)[1..] == x;
      } else {
        InsertIntoMerged(x[1..], y, h, key);
        assert ([x[0]] + InsertedBy(x[1..], h, key))[1..] == InsertedBy(x[1..], h, key);
        assert ([x[0]] + Merged(x[1..], y, key))[1..] == Merged(x[1..], y, key);
      }
    } else {
      assert ([y[0]] + Merged(x, y[1..], key))[1..] == Merged(x, y[1..], key);
      if key(h) <= key(y[0]) {
        assert ([h] + x)[1..] == x;
      } else {
        InsertIntoMerged(x, y[1..], h, key);
      }
    }
  }

  lemma {:induction false} MergeOneIn<T>(x: seq<T>, y: seq<T>, h: T, key: T -> int)
    requires x == [] || y == []
    ensures InsertedBy(Merged(x, y, key), h, key) == Merged(InsertedBy(x, h, key), y, key)
    decreases |y|
  {
    if y == [] {
    } else {
      assert x == [] && InsertedBy(x, h, key) == [h] && [h][1..] == [];
      if key(h) <= key(y[0]) {
      } else {
        MergeOneIn(x, y[1..], h, key);
      }
    }
  }

  // Sorting two lists together is merging them sorted.
  lemma {:induction false} SortOfBoth<T>(a: seq<T>, b: seq<T>, key: T -> int)
    ensures SortedBy(a + b, key) == Merged(SortedBy(a, key), SortedBy(b, key), key)
  {
    if a == [] {
      assert a + b == b;
    } else {
      assert (a + b)[0] == a[0] && (a + b)[1..] == a[1..] + b;
      SortOfBoth(a[1..], b, key);
      InsertIntoMerged(SortedBy(a[1..], key), SortedBy(b, key), a[0], key);
    }
  }

  function Top<T>(s: seq<T>, n: nat): seq<T> {
    s[..Min(|s|, n)]
  }

  lemma TopOfOneMore<T>(h: T, s: seq<T>, n: nat)
    requires n > 0
    ensures Top([h] + s, n) == [h] + Top(s, n - 1)
  {
  }

  lemma TopLosesHead<T>(s: seq<T>, p: nat)
    requires s != [] && p > 0
    ensures Top(s, p) != [] && Top(s, p)[0] == s[0] && Top(s, p)[1..] == Top(s[1..], p - 1)
  {
  }

  // The head of a merge depends only on the heads of what is merged.
  lemma {:induction false} TopOfMerged<T>(x: seq<T>, y: seq<T>, p: nat, q: nat, n: nat, key: T -> int)
    requires n <= p && n <= q
    ensures Top(Merged(Top(x, p), Top(y, q), key), n) == Top(Merged(x, y, key), n)
    decreases n
  {
    if n == 0 {
    } else if x == [] || y == [] {
      TopOfOneSide(x, y, p, q, n, key);
    } else {
      TopLosesHead(x, p);
      TopLosesHead(y, q);
      if key(x[0]) <= key(y[0]) {
        TopOfMerged(x[1..], y, p - 1, q, n - 1, key);
        TopOfOneMore(x[0], Merged(Top(x[1..], p - 1), Top(y, q), key), n);
        TopOfOneMore(x[0], Merged(x[1..], y, key), n);
      } else {
        TopOfMerged(x, y[1..], p, q - 1, n - 1, key);
        TopOfOneMore(y[0], Merged(Top(x, p), Top(y[1..], q - 1), key), n);
        TopOfOneMore(y[0], Merged(x, y[1..], key), n);
      }
    }
  }

  lemma TopOfOneSide<T>(x: seq<T>, y: seq<T>, p: nat, q: nat, n: nat, key: T -> int)
    requires n <= p && n <= q && (x == [] || y == [])
    ensures Top(Merged(Top(x, p), Top(y, q), key), n) == Top(Merged(x, y, key), n)
  {
    if x == [] {
      assert Merged(Top(x, p), Top(y, q), key) == Top(y, q) && Merged(x, y, key) == y;
    } else {
      assert Merged(Top(x, p), Top(y, q), key) == Top(x, p) && Merged(x, y, key) == x;
    }
  }

  lemma SameTopsMergeAlike<T>(x: seq<T>, x': seq<T>, y: seq<T>, y': seq<T>, n: nat, key: T -> int)
    requires Top(x, n) == Top(x', n) && Top(y, n) == Top(y', n)
    ensures Top(Merged(x, y, key), n) == Top(Merged(x', y', key), n)
  {
    TopOfMerged(x, y, n, n, n, key);
    TopOfMerged(x', y', n, n, n, key);
  }

  // ----- filtering

  function Kept<T>(s: seq<T>, keep: T -> bool): (r: seq<T>)
    ensures |r| <= |s|
  {
    if s == [] then []
    else if keep(s[0]) then [s[0]] + Kept(s[1..], keep)
    else Kept(s[1..], keep)
  }

  lemma {:induction false} KeptOfBoth<T>(a: seq<T>, b: seq<T>, keep: T -> bool)
    ensures Kept(a + b, keep) == Kept(a, keep) + Kept(b, keep)
  {
    if a == [] {
      assert a + b == b;
    } else {
      assert (a + b)[0] == a[0] && (a + b)[1..] == a[1..] + b;
      KeptOfBoth(a[1..], b, keep);
      assert keep(a[0]) ==> [a[0]] + (Kept(a[1..], keep) + Kept(b, keep)) == [a[0]] + Kept(a[1..], keep) + Kept(b, keep);
    }
  }

  lemma {:induction false} KeptElements<T>(s: seq<T>, keep: T -> bool)
    ensures forall x :: x in Kept(s, keep) <==> x in s && keep(x)
  {
    if s == [] {
    } else {
      KeptElements(s[1..], keep);
      assert forall x :: x in s <==> x == s[0] || x in s[1..];
    }
  }

  lemma {:induction false} NoneKept<T>(s: seq<T>, keep: T -> bool)
    requires forall i :: 0 <= i < |s| ==> !keep(s[i])
    ensures Kept(s, keep) == []
  {
    if s == [] {
    } else {
      NoneKept(s[1..], keep);
    }
  }

  lemma {:induction false} AllKept<T>(s: seq<T>, keep: T -> bool)
    requires forall i :: 0 <= i < |s| ==> keep(s[i])
    ensures Kept(s, keep) == s
  {
    if s == [] {
    } else {
      AllKept(s[1..], keep);
      assert s == [s[0]] + s[1..];
    }
  }

  // A filter that lets through only what another does makes the other redundant.
  lemma {:induction false} KeptTwice<T>(s: seq<T>, wide: T -> bool, narrow: T -> bool)
    requires forall i :: 0 <= i < |s| && narrow(s[i]) ==> wide(s[i])
    ensures Kept(Kept(s, wide), narrow) == Kept(s, narrow)
  {
    if s == [] {
    } else {
      KeptTwice(s[1..], wide, narrow);
      var rest := Kept(s[1..], wide);
      assert ([s[0]] + rest)[1..] == rest;
    }
  }

  lemma {:induction false} KeptStaysAbove<T>(s: seq<T>, key: T -> int, keep: T -> bool, low: int)
    requires forall i :: 0 <= i < |s| ==> low <= key(s[i])
    ensures Kept(s, keep) != [] ==> low <= key(Kept(s, keep)[0])
  {
    if s == [] {
    } else {
      KeptStaysAbove(s[1..], key, keep, low);
    }
  }

  lemma {:induction false} KeptOfInserted<T>(s: seq<T>, x: T, key: T -> int, keep: T -> bool)
    requires Ordered(s, key)
    ensures Kept(InsertedBy(s, x, key), keep) == if keep(x) then InsertedBy(Kept(s, keep), x, key) else Kept(s, keep)
  {
    if s == [] || key(x) <= key(s[0]) {
      assert ([x] + s)[1..] == s;
      KeptStaysAbove(s, key, keep, key(x));
    } else {
      KeptOfInserted(s[1..], x, key, keep);
      var rest := InsertedBy(s[1..], x, key);
      assert ([s[0]] + rest)[1..] == rest;
      assert keep(s[0]) ==> ([s[0]] + Kept(s[1..], keep))[1..] == Kept(s[1..], keep);
    }
  }

  // Filtering before sorting and after it come to the same.
  lemma {:induction false} KeptOfSorted<T>(s: seq<T>, key: T -> int, keep: T -> bool)
    ensures Kept(SortedBy(s, key), keep) == SortedBy(Kept(s, keep), key)
  {
    if s == [] {
    } else {
      KeptOfSorted(s[1..], key, keep);
      SortedKeeps(s[1..], key);
      KeptOfInserted(SortedBy(s[1..], key), s[0], key, keep);
      assert ([s[0]] + Kept(s[1..], keep))[1..] == Kept(s[1..], keep);
    }
  }
}
