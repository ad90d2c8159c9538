/**
 `Array.prototype.sort` with the comparators the engine uses, `key(a) < key(b) ? -1 : 1`. The
 comparator never answers "equal" and the sort is stable, so elements with equal keys keep their
 order of arrival.
 */
module Sorting {

  function Insert<T>(key: T -> int, x: T, s: seq<T>): seq<T> {
    if s == [] || key(x) <= key(s[0]) then [x] + s else [s[0]] + Insert(key, x, s[1..])
  }

  function SortBy<T>(key: T -> int, s: seq<T>): seq<T> {
    if s == [] then [] else Insert(key, s[0], SortBy(key, s[1..]))
  }

  predicate Sorted<T>(key: T -> int, s: seq<T>) {
    |s| <= 1 || (key(s[0]) <= key(s[1]) && Sorted(key, s[1..]))
  }

  /** No two different elements of `s` share a key. */
  ghost predicate Separates<T>(key: T -> int, s: seq<T>) {
    forall x, y :: x in s && y in s && key(x) == key(y) ==> x == y
  }

  lemma {:induction false} InsertKeeps<T>(key: T -> int, x: T, s: seq<T>)
    ensures multiset(Insert(key, x, s)) == multiset{x} + multiset(s)
    ensures Sorted(key, s) ==> Sorted(key, Insert(key, x, s))
    ensures |Insert(key, x, s)| == |s| + 1
  {
    if !(s == [] || key(x) <= key(s[0])) {
      InsertKeeps(key, x, s[1..]);
      assert s == [s[0]] + s[1..];
      assert Insert(key, x, s)[1..] == Insert(key, x, s[1..]);
    } else {
      assert ([x] + s)[1..] == s;
    }
  }

  lemma {:induction false} SortSorts<T>(key: T -> int, s: seq<T>)
    ensures multiset(SortBy(key, s)) == multiset(s)
    ensures Sorted(key, SortBy(key, s))
    ensures |SortBy(key, s)| == |s|
  {
    if s != [] {
      SortSorts(key, s[1..]);
      InsertKeeps(key, s[0], SortBy(key, s[1..]));
      assert s == [s[0]] + s[1..];
    }
  }

  lemma {:induction false} HeadIsLeast<T>(key: T -> int, s: seq<T>, x: T)
    requires Sorted(key, s) && x in s
    ensures key(s[0]) <= key(x)
  {
    if x != s[0] {
      HeadIsLeast(key, s[1..], x);
    }
  }

  lemma SameHead<T>(key: T -> int, s: seq<T>, t: seq<T>)
    requires multiset(s) == multiset(t) && Sorted(key, s) && Sorted(key, t) && Separates(key, s) && s != [] && t != []
    ensures s[0] == t[0]
  {
    assert t[0] in multiset(s) && s[0] in multiset(t);
    HeadIsLeast(key, s, t[0]);
    HeadIsLeast(key, t, s[0]);
  }

  lemma {:induction false} SortedIsUnique<T>(key: T -> int, s: seq<T>, t: seq<T>)
    requires multiset(s) == multiset(t) && Sorted(key, s) && Sorted(key, t) && Separates(key, s)
    ensures s == t
  {
    assert |s| == |multiset(s)| == |multiset(t)| == |t|;
    if s != [] {
      SameHead(key, s, t);
      TailMultiset(s);
      TailMultiset(t);
      SortedIsUnique(key, s[1..], t[1..]);
      assert s == [s[0]] + s[1..] && t == [t[0]] + t[1..];
    }
  }

  lemma TailMultiset<T>(s: seq<T>)
    requires s != []
    ensures multiset(s[1..]) == multiset(s) - multiset{s[0]}
  {
    assert s == [s[0]] + s[1..];
  }

  function WithKey<T>(key: T -> int, s: seq<T>, k: int): seq<T> {
    if s == [] then [] else (if key(s[0]) == k then [s[0]] else []) + WithKey(key, s[1..], k)
  }

  lemma WithKeyHead<T>(key: T -> int, x: T, s: seq<T>, k: int)
    ensures WithKey(key, [x] + s, k) == (if key(x) == k then [x] else []) + WithKey(key, s, k)
  {
    assert ([x] + s)[1..] == s;
  }

  lemma {:induction false} InsertWithKey<T>(key: T -> int, x: T, s: seq<T>, k: int)
    ensures WithKey(key, Insert(key, x, s), k) == (if key(x) == k then [x] else []) + WithKey(key, s, k)
  {
    if s == [] || key(x) <= key(s[0]) {
      WithKeyHead(key, x, s, k);
    } else {
      InsertWithKey(key, x, s[1..], k);
      WithKeyHead(key, s[0], Insert(key, x, s[1..]), k);
      WithKeyHead(key, s[0], s[1..], k);
      assert s == [s[0]] + s[1..];
    }
  }

  /** Elements with the same key keep their order of arrival. */
  lemma {:induction false} SortIsStable<T>(key: T -> int, s: seq<T>, k: int)
    ensures WithKey(key, SortBy(key, s), k) == WithKey(key, s, k)
  {
    if s != [] {
      SortIsStable(key, s[1..], k);
      InsertWithKey(key, s[0], SortBy(key, s[1..]), k);
    }
  }

  ghost predicate OrderIndependent<T(!new)>(key: T -> int, s: seq<T>) {
    forall t: seq<T> :: multiset(t) == multiset(s) ==> SortBy(key, t) == SortBy(key, s)
  }

  lemma SeparatedIsOrderIndependent<T>(key: T -> int, s: seq<T>, t: seq<T>)
    requires Separates(key, s) && multiset(t) == multiset(s)
    ensures SortBy(key, t) == SortBy(key, s)
  {
    SortSorts(key, s);
    SortSorts(key, t);
    var r := SortBy(key, s);
    forall x | x in r ensures x in s { assert x in multiset(r); }
    SortedIsUnique(key, r, SortBy(key, t));
  }

  /** Sorting forgets the order of arrival exactly when no two different elements share a key. */
  lemma OrderIndependentIff<T(!new)>(key: T -> int, s: seq<T>)
    ensures OrderIndependent(key, s) <==> Separates(key, s)
  {
    if Separates(key, s) {
      forall t: seq<T> | multiset(t) == multiset(s) ensures SortBy(key, t) == SortBy(key, s) {
        SeparatedIsOrderIndependent(key, s, t);
      }
    } else {
      var x, y :| x in s && y in s && key(x) == key(y) && x != y;
      var i, j :| 0 <= i < |s| && 0 <= j < |s| && s[i] == x && s[j] == y;
      if i < j { SwapIsSeen(key, s, i, j); } else { SwapIsSeen(key, s, j, i); }
    }
  }

  lemma {:induction false} WithKeyAppend<T>(key: T -> int, s: seq<T>, t: seq<T>, k: int)
    ensures WithKey(key, s + t, k) == WithKey(key, s, k) + WithKey(key, t, k)
  {
    if s == [] {
      assert s + t == t;
    } else {
      WithKeyAppend(key, s[1..], t, k);
      WithKeyHead(key, s[0], s[1..], k);
      WithKeyHead(key, s[0], s[1..] + t, k);
      assert s == [s[0]] + s[1..] && s + t == [s[0]] + (s[1..] + t);
    }
  }

  lemma WithKeyFirst<T>(key: T -> int, u: seq<T>, x: T, v: seq<T>)
    ensures |WithKey(key, u, key(x))| < |WithKey(key, u + ([x] + v), key(x))|
    ensures WithKey(key, u + ([x] + v), key(x))[|WithKey(key, u, key(x))|] == x
  {
    WithKeyAppend(key, u, [x] + v, key(x));
    assert ([x] + v)[1..] == v;
  }

  function Around<T>(u: seq<T>, x: T, v: seq<T>, y: T, w: seq<T>): seq<T> {
    u + ([x] + (v + [y] + w))
  }

  lemma SwapKeepsMultiset<T>(u: seq<T>, x: T, v: seq<T>, y: T, w: seq<T>)
    ensures multiset(Around(u, x, v, y, w)) == multiset(Around(u, y, v, x, w))
  {
  }

  lemma SplitAround<T>(s: seq<T>, i: nat, j: nat)
    requires i < j < |s|
    ensures s == Around(s[..i], s[i], s[i + 1..j], s[j], s[j + 1..])
  {
  }

  lemma SwapIsSeen<T(!new)>(key: T -> int, s: seq<T>, i: nat, j: nat)
    requires i < j < |s| && key(s[i]) == key(s[j]) && s[i] != s[j]
    ensures !OrderIndependent(key, s)
  {
    var u, v, w := s[..i], s[i + 1..j], s[j + 1..];
    var t := Around(u, s[j], v, s[i], w);
    SplitAround(s, i, j);
    SwapKeepsMultiset(u, s[i], v, s[j], w);
    assert SortBy(key, t) != SortBy(key, s) by {
      WithKeyFirst(key, u, s[i], v + [s[j]] + w);
      WithKeyFirst(key, u, s[j], v + [s[i]] + w);
      SortIsStable(key, s, key(s[i]));
      SortIsStable(key, t, key(s[i]));
    }
  }
}
