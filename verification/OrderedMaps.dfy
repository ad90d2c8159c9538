/**
 Insertion-ordered maps. The engine keeps balances, active apps, proposals and installed apps in
 JavaScript `Map`s and string-keyed objects, and the order of their keys reaches the hashes that
 are signed, so order is part of the value here: a map is its list of entries.
 */
module OrderedMaps {

  type Entries<K, V> = seq<(K, V)>

  predicate Unique<K(==), V>(m: Entries<K, V>) {
    forall i, j :: 0 <= i < j < |m| ==> m[i].0 != m[j].0
  }

  predicate Distinct<K(==)>(s: seq<K>) {
    forall i, j :: 0 <= i < j < |s| ==> s[i] != s[j]
  }

  /** The position of `k`, or the length of the map when `k` is absent. */
  function IndexOf<K(==), V>(m: Entries<K, V>, k: K): (i: nat)
    ensures i <= |m|
    ensures i < |m| ==> m[i].0 == k
    ensures forall j :: 0 <= j < i ==> m[j].0 != k
  {
    if m == [] then 0 else if m[0].0 == k then 0 else 1 + IndexOf(m[1..], k)
  }

  predicate Has<K(==), V>(m: Entries<K, V>, k: K) {
    IndexOf(m, k) < |m|
  }

  function Get<K(==), V>(m: Entries<K, V>, k: K): V
    requires Has(m, k)
  {
    m[IndexOf(m, k)].1
  }

  function GetOr<K(==), V>(m: Entries<K, V>, k: K, default: V): V {
    if Has(m, k) then Get(m, k) else default
  }

  /** `Map.set` and property assignment: an existing key keeps its position. */
  function Set<K(==), V>(m: Entries<K, V>, k: K, v: V): (r: Entries<K, V>)
    ensures Unique(m) ==> Unique(r)
  {
    var i := IndexOf(m, k);
    if i < |m| then m[i := (k, v)] else m + [(k, v)]
  }

  function Delete<K(==), V>(m: Entries<K, V>, k: K): (r: Entries<K, V>)
    ensures Unique(m) ==> Unique(r)
  {
    var i := IndexOf(m, k);
    if i < |m| then m[..i] + m[i + 1..] else m
  }

  /** Building a map from a list of entries: on a repeated key the last value wins. */
  function FromEntries<K(==), V>(s: seq<(K, V)>): (m: Entries<K, V>)
    ensures Unique(m)
  {
    if s == [] then [] else Set(FromEntries(s[..|s| - 1]), s[|s| - 1].0, s[|s| - 1].1)
  }

  function Keys<K, V>(m: Entries<K, V>): (s: seq<K>)
    ensures |s| == |m| && forall i :: 0 <= i < |m| ==> s[i] == m[i].0
  {
    seq(|m|, i requires 0 <= i < |m| => m[i].0)
  }

  function Values<K, V>(m: Entries<K, V>): (s: seq<V>)
    ensures |s| == |m| && forall i :: 0 <= i < |m| ==> s[i] == m[i].1
  {
    seq(|m|, i requires 0 <= i < |m| => m[i].1)
  }

  function Total<K>(m: Entries<K, int>): int {
    if m == [] then 0 else m[0].1 + Total(m[1..])
  }

  lemma HasAt<K, V>(m: Entries<K, V>, i: nat)
    requires i < |m|
    ensures Has(m, m[i].0)
    ensures Unique(m) ==> IndexOf(m, m[i].0) == i && Get(m, m[i].0) == m[i].1
  {
  }

  lemma IndexIs<K, V>(m: Entries<K, V>, k: K, i: nat)
    requires i < |m| && m[i].0 == k
    requires forall j :: 0 <= j < i ==> m[j].0 != k
    ensures IndexOf(m, k) == i
  {
  }

  lemma SetGet<K, V>(m: Entries<K, V>, k: K, v: V, k': K)
    ensures Has(Set(m, k, v), k') <==> k' == k || Has(m, k')
    ensures k' == k ==> Get(Set(m, k, v), k') == v
    ensures k' != k && Has(m, k') ==> Get(Set(m, k, v), k') == Get(m, k')
  {
    var r := Set(m, k, v);
    var i, i' := IndexOf(m, k), IndexOf(m, k');
    if k' == k {
      IndexIs(r, k, i);
    } else if i' < |m| {
      IndexIs(r, k', i');
    }
  }

  /** The last entry of a unique map was added by `Set`. */
  lemma SplitLast<K, V>(m: Entries<K, V>)
    requires Unique(m) && m != []
    ensures var p, l := m[..|m| - 1], m[|m| - 1];
            Unique(p) && !Has(p, l.0) && m == Set(p, l.0, l.1)
  {
  }

  lemma GetOrSet<K, V>(m: Entries<K, V>, k: K, v: V, k': K, default: V)
    ensures GetOr(Set(m, k, v), k', default) == if k' == k then v else GetOr(m, k', default)
  {
    SetGet(m, k, v, k');
  }

  lemma DeleteGet<K, V>(m: Entries<K, V>, k: K, k': K)
    requires Unique(m)
    ensures Has(Delete(m, k), k') <==> k' != k && Has(m, k')
    ensures k' != k && Has(m, k') ==> Get(Delete(m, k), k') == Get(m, k')
  {
    var r := Delete(m, k);
    var i, i' := IndexOf(m, k), IndexOf(m, k');
    if k' != k && i' < |m| && i < |m| {
      IndexIs(r, k', if i' < i then i' else i' - 1);
    }
  }

  /** Building a map from the entries of a map gives that map, in the same order. */
  lemma FromEntriesOfUnique<K, V>(s: seq<(K, V)>)
    requires Unique(s)
    ensures FromEntries(s) == s
  {
    if s != [] {
      var p := s[..|s| - 1];
      FromEntriesOfUnique(p);
      assert !Has(p, s[|s| - 1].0);
      assert s == p + [s[|s| - 1]];
    }
  }

  lemma TotalAppend<K>(a: Entries<K, int>, b: Entries<K, int>)
    ensures Total(a + b) == Total(a) + Total(b)
  {
    if a == [] {
      assert a + b == b;
    } else {
      assert (a + b)[1..] == a[1..] + b;
      TotalAppend(a[1..], b);
    }
  }

  lemma TotalUpdate<K>(m: Entries<K, int>, i: nat, e: (K, int))
    requires i < |m|
    ensures Total(m[i := e]) == Total(m) - m[i].1 + e.1
  {
    if i > 0 {
      assert m[i := e][1..] == m[1..][i - 1 := e];
      TotalUpdate(m[1..], i - 1, e);
    } else {
      assert m[i := e][1..] == m[1..];
    }
  }

  lemma TotalSet<K>(m: Entries<K, int>, k: K, v: int)
    ensures Total(Set(m, k, v)) == Total(m) - GetOr(m, k, 0) + v
  {
    var i := IndexOf(m, k);
    if i < |m| {
      TotalUpdate(m, i, (k, v));
    } else {
      TotalAppend(m, [(k, v)]);
      assert [(k, v)][1..] == [];
    }
  }

  lemma TotalDelete<K>(m: Entries<K, int>, k: K)
    ensures Total(Delete(m, k)) == Total(m) - GetOr(m, k, 0)
  {
    var i := IndexOf(m, k);
    if i < |m| {
      assert m == m[..i] + m[i..];
      TotalAppend(m[..i], m[i..]);
      TotalAppend(m[..i], m[i + 1..]);
      assert m[i..][1..] == m[i + 1..];
    }
  }
}
