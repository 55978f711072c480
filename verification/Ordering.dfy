/** Stable sorting by insertion. It stands for the `ORDER BY` of the store's queries and for
    Python's `sorted`, both of which keep equal elements in their original order. */
module Ordering {

  /** Puts `x` behind every element that may stand before it. */
  function Insert<T>(xs: seq<T>, x: T, le: (T, T) -> bool): (r: seq<T>)
    ensures |r| == |xs| + 1
  {
    if xs == [] then [x]
    else
      var last := xs[|xs| - 1];
      if le(last, x) then xs + [x] else Insert(xs[..|xs| - 1], x, le) + [last]
  }

  function Sort<T>(xs: seq<T>, le: (T, T) -> bool): (r: seq<T>)
    ensures |r| == |xs|
  {
    if xs == [] then [] else Insert(Sort(xs[..|xs| - 1], le), xs[|xs| - 1], le)
  }

  function Map<T, U>(f: T -> U, xs: seq<T>): (r: seq<U>)
    ensures |r| == |xs|
    ensures forall i :: 0 <= i < |xs| ==> r[i] == f(xs[i])
  {
    seq(|xs|, i requires 0 <= i < |xs| => f(xs[i]))
  }

  ghost predicate Sorted<T>(xs: seq<T>, le: (T, T) -> bool) {
    forall i, j :: 0 <= i < j < |xs| ==> le(xs[i], xs[j])
  }

  ghost predicate TotalPreorder<T(!new)>(le: (T, T) -> bool) {
    && (forall x, y :: le(x, y) || le(y, x))
    && (forall x, y, z :: le(x, y) && le(y, z) ==> le(x, z))
  }

  /** No two elements at different positions are related by `same`. */
  ghost predicate Apart<T>(xs: seq<T>, same: (T, T) -> bool) {
    forall i, j :: 0 <= i < j < |xs| ==> !same(xs[i], xs[j]) && !same(xs[j], xs[i])
  }

  lemma {:induction false} InsertMultiset<T>(xs: seq<T>, x: T, le: (T, T) -> bool)
    ensures multiset(Insert(xs, x, le)) == multiset(xs) + multiset{x}
  {
    if xs != [] {
      var n := |xs| - 1;
      assert xs == xs[..n] + [xs[n]];
      InsertMultiset(xs[..n], x, le);
    }
  }

  lemma {:induction false} SortMultiset<T>(xs: seq<T>, le: (T, T) -> bool)
    ensures multiset(Sort(xs, le)) == multiset(xs)
  {
    if xs != [] {
      var n := |xs| - 1;
      assert xs == xs[..n] + [xs[n]];
      SortMultiset(xs[..n], le);
      InsertMultiset(Sort(xs[..n], le), xs[n], le);
    }
  }

  lemma SortMember<T>(xs: seq<T>, le: (T, T) -> bool, x: T)
    ensures x in Sort(xs, le) <==> x in xs
  {
    SortMultiset(xs, le);
    assert x in Sort(xs, le) <==> x in multiset(Sort(xs, le));
    assert x in xs <==> x in multiset(xs);
  }

  lemma {:induction false} InsertSorted<T(!new)>(xs: seq<T>, x: T, le: (T, T) -> bool)
    requires TotalPreorder(le) && Sorted(xs, le)
    ensures Sorted(Insert(xs, x, le), le)
  {
    if xs != [] {
      var n := |xs| - 1;
      if le(xs[n], x) {
      } else {
        InsertSorted(xs[..n], x, le);
        InsertMultiset(xs[..n], x, le);
        var r := Insert(xs[..n], x, le);
        forall i | 0 <= i < |r| ensures le(r[i], xs[n]) {
          assert r[i] in multiset(r);
          assert r[i] in multiset(xs[..n]) || r[i] == x;
        }
      }
    }
  }

  lemma {:induction false} SortSorted<T(!new)>(xs: seq<T>, le: (T, T) -> bool)
    requires TotalPreorder(le)
    ensures Sorted(Sort(xs, le), le)
  {
    if xs != [] {
      SortSorted(xs[..|xs| - 1], le);
      InsertSorted(Sort(xs[..|xs| - 1], le), xs[|xs| - 1], le);
    }
  }

  lemma {:induction false} InsertMap<T, U>(xs: seq<T>, x: T, f: T -> U, le: (T, T) -> bool, le': (U, U) -> bool)
    requires forall i :: 0 <= i < |xs| ==> le(xs[i], x) == le'(f(xs[i]), f(x))
    ensures Insert(Map(f, xs), f(x), le') == Map(f, Insert(xs, x, le))
  {
    if xs != [] {
      var n := |xs| - 1;
      assert Map(f, xs)[..n] == Map(f, xs[..n]);
      InsertMap(xs[..n], x, f, le, le');
    }
  }

  /** Sorting commutes with a map that keeps the order. */
  lemma {:induction false} SortMap<T, U>(xs: seq<T>, f: T -> U, le: (T, T) -> bool, le': (U, U) -> bool)
    requires forall x, y :: x in xs && y in xs ==> le(x, y) == le'(f(x), f(y))
    ensures Sort(Map(f, xs), le') == Map(f, Sort(xs, le))
  {
    if xs != [] {
      var n := |xs| - 1;
      assert Map(f, xs)[..n] == Map(f, xs[..n]);
      SortMap(xs[..n], f, le, le');
      var s := Sort(xs[..n], le);
      forall i | 0 <= i < |s| ensures le(s[i], xs[n]) == le'(f(s[i]), f(xs[n])) {
        SortMember(xs[..n], le, s[i]);
        assert s[i] in xs && xs[n] in xs;
      }
      InsertMap(s, xs[n], f, le, le');
    }
  }

  lemma {:induction false} InsertMember<T>(xs: seq<T>, x: T, le: (T, T) -> bool, y: T)
    ensures y in Insert(xs, x, le) ==> y == x || y in xs
  {
    if xs != [] && !le(xs[|xs| - 1], x) { InsertMember(xs[..|xs| - 1], x, le, y); }
  }

  lemma {:induction false} InsertApart<T>(xs: seq<T>, x: T, le: (T, T) -> bool, same: (T, T) -> bool)
    requires Apart(xs, same)
    requires forall i :: 0 <= i < |xs| ==> !same(xs[i], x) && !same(x, xs[i])
    ensures Apart(Insert(xs, x, le), same)
  {
    if xs != [] {
      var n := |xs| - 1;
      if !le(xs[n], x) {
        InsertApart(xs[..n], x, le, same);
        var r := Insert(xs[..n], x, le);
        assert Insert(xs, x, le) == r + [xs[n]];
        hide Insert;
        forall i | 0 <= i < |r| ensures !same(r[i], xs[n]) && !same(xs[n], r[i]) { InsertMember(xs[..n], x, le, r[i]); }
      }
    }
  }

  /** Sorting keeps a list free of related pairs. */
  lemma {:induction false} SortApart<T>(xs: seq<T>, le: (T, T) -> bool, same: (T, T) -> bool)
    requires Apart(xs, same)
    ensures Apart(Sort(xs, le), same)
  {
    if xs != [] {
      var n := |xs| - 1;
      SortApart(xs[..n], le, same);
      var s := Sort(xs[..n], le);
      forall i | 0 <= i < |s| ensures !same(s[i], xs[n]) && !same(xs[n], s[i]) {
        SortMember(xs[..n], le, s[i]);
        var k :| 0 <= k < n && xs[k] == s[i];
      }
      InsertApart(s, xs[n], le, same);
    }
  }

  // ---- Counting ----

  function CountIf<T>(xs: seq<T>, p: T -> bool): nat {
    if xs == [] then 0 else CountIf(xs[..|xs| - 1], p) + if p(xs[|xs| - 1]) then 1 else 0
  }

  lemma {:induction false} CountInsert<T>(xs: seq<T>, x: T, le: (T, T) -> bool, p: T -> bool)
    ensures CountIf(Insert(xs, x, le), p) == CountIf(xs, p) + if p(x) then 1 else 0
  {
    var n := |xs| - 1;
    if xs == [] || le(xs[n], x) {
      assert Insert(xs, x, le) == xs + [x] && (xs + [x])[..|xs|] == xs;
    } else {
      CountInsert(xs[..n], x, le, p);
      var r := Insert(xs[..n], x, le);
      assert (r + [xs[n]])[..|r|] == r;
    }
  }

  /** Sorting keeps counts. */
  lemma {:induction false} CountSort<T>(xs: seq<T>, le: (T, T) -> bool, p: T -> bool)
    ensures CountIf(Sort(xs, le), p) == CountIf(xs, p)
  {
    if xs != [] {
      var n := |xs| - 1;
      CountSort(xs[..n], le, p);
      CountInsert(Sort(xs[..n], le), xs[n], le, p);
    }
  }

  lemma {:induction false} CountBounds<T>(xs: seq<T>, p: T -> bool, k: nat)
    requires k <= |xs|
    ensures (forall i :: 0 <= i < k ==> p(xs[i])) ==> CountIf(xs, p) >= k
    ensures (forall i :: k <= i < |xs| ==> !p(xs[i])) ==> CountIf(xs, p) <= k
    decreases |xs|
  {
    if xs != [] {
      var n := |xs| - 1;
      if k <= n { CountBounds(xs[..n], p, k); } else { CountBounds(xs[..n], p, n); }
    }
  }

  lemma {:induction false} CountSplit<T>(xs: seq<T>, i: nat, p: T -> bool)
    requires i < |xs|
    ensures CountIf(xs, p) == CountIf(xs[..i], p) + (if p(xs[i]) then 1 else 0) + CountIf(xs[i + 1..], p)
    decreases |xs|
  {
    var n := |xs| - 1;
    if i < n {
      CountSplit(xs[..n], i, p);
      assert xs[..n][..i] == xs[..i] && xs[..n][i + 1..] == xs[i + 1..][..n - i - 1];
    }
  }

  lemma {:induction false} CountSame<T>(xs: seq<T>, p: T -> bool, q: T -> bool)
    requires forall i :: 0 <= i < |xs| ==> p(xs[i]) == q(xs[i])
    ensures CountIf(xs, p) == CountIf(xs, q)
  {
    if xs != [] { CountSame(xs[..|xs| - 1], p, q); }
  }

  // ---- Positions ----

  /** In a sorted list, the new element goes behind all that may stand before it. */
  lemma {:induction false} InsertPlace<T(!new)>(xs: seq<T>, x: T, le: (T, T) -> bool) returns (p: nat)
    requires TotalPreorder(le) && Sorted(xs, le)
    ensures p <= |xs| && Insert(xs, x, le) == xs[..p] + [x] + xs[p..]
    ensures forall i :: 0 <= i < p ==> le(xs[i], x)
    ensures forall i :: p <= i < |xs| ==> !le(xs[i], x)
  {
    var n := |xs| - 1;
    if xs == [] || le(xs[n], x) {
      p := |xs|;
      assert xs[..p] + [x] + xs[p..] == xs + [x];
      forall i | 0 <= i < p ensures le(xs[i], x) { if i < n { assert le(xs[i], xs[n]); } }
    } else {
      p := InsertPlace(xs[..n], x, le);
      assert xs[..n][..p] == xs[..p] && xs[..n][p..] + [xs[n]] == xs[p..];
    }
  }

  /** How many elements sorting puts before the i-th: those before it in the list that may stand before it, and
      those behind it that must. */
  function Preceding<T>(xs: seq<T>, i: nat, le: (T, T) -> bool): nat
    requires i < |xs|
  {
    CountIf(xs[..i], (y: T) => le(y, xs[i])) + CountIf(xs[i + 1..], (y: T) => !le(xs[i], y))
  }

  lemma PrecedingMeans<T>(xs: seq<T>, i: nat, le: (T, T) -> bool, p: T -> bool)
    requires i < |xs| && !p(xs[i])
    requires forall k :: 0 <= k < i ==> p(xs[k]) == le(xs[k], xs[i])
    requires forall k :: i < k < |xs| ==> p(xs[k]) == !le(xs[i], xs[k])
    ensures CountIf(xs, p) == Preceding(xs, i, le)
  {
    CountSplit(xs, i, p);
    CountSame(xs[..i], p, (y: T) => le(y, xs[i]));
    CountSame(xs[i + 1..], p, (y: T) => !le(xs[i], y));
  }

  lemma PrecedingSplit<T(!new)>(a: seq<T>, x: T, b: seq<T>, le: (T, T) -> bool, p: T -> bool, q: T -> bool)
    requires forall y :: p(y) == le(y, x) && q(y) == !le(x, y)
    ensures Preceding(a + [x] + b, |a|, le) == CountIf(a, p) + CountIf(b, q)
  {
    var xs := a + [x] + b;
    assert xs[..|a|] == a && xs[|a| + 1..] == b && xs[|a|] == x;
    CountSame(a, p, (y: T) => le(y, xs[|a|]));
    CountSame(b, q, (y: T) => !le(xs[|a|], y));
  }

  lemma InsertCount<T(!new)>(xs: seq<T>, x: T, le: (T, T) -> bool, before: T -> bool)
    requires TotalPreorder(le) && Sorted(xs, le) && forall y :: before(y) == le(y, x)
    ensures CountIf(xs, before) <= |xs| && Insert(xs, x, le)[CountIf(xs, before)] == x
  {
    var p := InsertPlace(xs, x, le);
    CountBounds(xs, before, p);
  }

  lemma LastPosition<T(!new)>(xs: seq<T>, le: (T, T) -> bool)
    requires xs != [] && TotalPreorder(le)
    ensures var c := Preceding(xs, |xs| - 1, le);
            c < |xs| && Sort(xs, le)[c] == xs[|xs| - 1]
  {
    var n := |xs| - 1;
    var before := (y: T) => le(y, xs[n]);
    assert xs[n + 1..] == [];
    SortSorted(xs[..n], le);
    hide Insert, Sorted, TotalPreorder;
    InsertCount(Sort(xs[..n], le), xs[n], le, before);
    CountSort(xs[..n], le, before);
    CountSame(xs[..n], before, (y: T) => le(y, xs[n]));
  }

  /** A new element moves those up that it stands before. */
  lemma InsertShifts<T(!new)>(xs: seq<T>, x: T, le: (T, T) -> bool, c: nat)
    requires TotalPreorder(le) && Sorted(xs, le) && c < |xs|
    ensures Insert(xs, x, le)[if le(xs[c], x) then c else c + 1] == xs[c]
  {
    var p := InsertPlace(xs, x, le);
    assert le(xs[c], x) <==> c < p;
    hide Insert, Sorted, TotalPreorder;
    assert c >= p ==> (xs[..p] + [x] + xs[p..])[c + 1] == xs[c];
  }

  lemma PrecedingLonger<T>(xs: seq<T>, x: T, i: nat, le: (T, T) -> bool)
    requires i < |xs|
    ensures Preceding(xs + [x], i, le) == Preceding(xs, i, le) + if le(xs[i], x) then 0 else 1
  {
    var ys := xs + [x];
    var after := (y: T) => !le(xs[i], y);
    assert ys[..i] == xs[..i] && ys[i + 1..] == xs[i + 1..] + [x] && ys[i] == xs[i];
    assert (xs[i + 1..] + [x])[..|xs[i + 1..]|] == xs[i + 1..];
    CountSame(xs[..i], (y: T) => le(y, xs[i]), (y: T) => le(y, ys[i]));
    CountSame(xs[i + 1..], after, (y: T) => !le(ys[i], y));
  }

  /** Sorting puts every element where those that precede it leave it. */
  lemma {:induction false} SortPosition<T(!new)>(xs: seq<T>, i: nat, le: (T, T) -> bool)
    requires i < |xs| && TotalPreorder(le)
    ensures Preceding(xs, i, le) < |xs| && Sort(xs, le)[Preceding(xs, i, le)] == xs[i]
  {
    hide Insert, Sorted, Preceding, TotalPreorder;
    var n := |xs| - 1;
    if i == n {
      LastPosition(xs, le);
    } else {
      SortPosition(xs[..n], i, le);
      SortSorted(xs[..n], le);
      assert xs == xs[..n] + [xs[n]];
      PrecedingLonger(xs[..n], xs[n], i, le);
      InsertShifts(Sort(xs[..n], le), xs[n], le, Preceding(xs[..n], i, le));
    }
  }

  ghost predicate StrictlySorted<T>(xs: seq<T>, le: (T, T) -> bool) {
    forall i, j :: 0 <= i < j < |xs| ==> le(xs[i], xs[j]) && !le(xs[j], xs[i])
  }

  lemma WithoutLast<T>(xs: seq<T>)
    requires xs != []
    ensures multiset(xs[..|xs| - 1]) == multiset(xs) - multiset{xs[|xs| - 1]}
  {
    assert xs == xs[..|xs| - 1] + [xs[|xs| - 1]];
  }

  lemma SameLast<T>(xs: seq<T>, ys: seq<T>, le: (T, T) -> bool)
    requires |xs| == |ys| > 0 && multiset(xs) == multiset(ys)
    requires StrictlySorted(xs, le) && Sorted(ys, le)
    ensures xs[|xs| - 1] == ys[|ys| - 1]
  {
    var n := |xs| - 1;
    assert xs[n] in multiset(ys);
    assert ys[n] in multiset(xs);
    var i :| 0 <= i < |ys| && ys[i] == xs[n];
    var j :| 0 <= j < |xs| && xs[j] == ys[n];
  }

  lemma SameFront<T>(xs: seq<T>, ys: seq<T>)
    requires |xs| == |ys| > 0 && multiset(xs) == multiset(ys) && xs[|xs| - 1] == ys[|ys| - 1]
    ensures multiset(xs[..|xs| - 1]) == multiset(ys[..|ys| - 1])
  {
    WithoutLast(xs);
    WithoutLast(ys);
  }

  lemma SameWhole<T>(xs: seq<T>, ys: seq<T>)
    requires |xs| == |ys| > 0 && xs[..|xs| - 1] == ys[..|ys| - 1] && xs[|xs| - 1] == ys[|ys| - 1]
    ensures xs == ys
  {
    assert xs == xs[..|xs| - 1] + [xs[|xs| - 1]];
    assert ys == ys[..|ys| - 1] + [ys[|ys| - 1]];
  }

  /** A strictly sorted list is the only sorted list with its contents. */
  lemma {:induction false} SortedUnique<T>(xs: seq<T>, ys: seq<T>, le: (T, T) -> bool)
    requires |xs| == |ys| && multiset(xs) == multiset(ys)
    requires StrictlySorted(xs, le) && Sorted(ys, le)
    ensures xs == ys
  {
    if xs != [] {
      var n := |xs| - 1;
      SameLast(xs, ys, le);
      SameFront(xs, ys);
      SortedUnique(xs[..n], ys[..n], le);
      SameWhole(xs, ys);
    }
  }
}
