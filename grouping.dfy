/**
 * Grouping keyed values into lists by key, the way the validators and the
 * model registry build a `Map` (or record) of arrays in a `forEach`: a new
 * key opens a new group at the end, a known key appends to its group.
 */
module Grouping {
  import opened JsValues

  type Groups<K, V> = seq<(K, seq<V>)>

  /** The values carrying key `k`, in order. */
  function Values<K(==), V>(items: seq<(K, V)>, k: K): (vs: seq<V>)
    ensures |vs| <= |items|
    decreases |items|
  {
    if items == [] then []
    else
      var last := items[|items| - 1];
      Values(items[..|items| - 1], k) + (if last.0 == k then [last.1] else [])
  }

  /** The position of the group for `k`, if there is one. */
  function GroupIndex<K(==), V>(groups: Groups<K, V>, k: K): (i: Option<nat>)
    ensures i.Some? ==> i.value < |groups| && groups[i.value].0 == k
    ensures i.None? ==> forall j :: 0 <= j < |groups| ==> groups[j].0 != k
  {
    if groups == [] then None
    else if groups[0].0 == k then Some(0)
    else
      match GroupIndex(groups[1..], k)
      case None => None
      case Some(i) => Some(i + 1)
  }

  /** `if (!m.has(k)) m.set(k, []); m.get(k).push(v)` */
  function AddTo<K(==), V>(groups: Groups<K, V>, k: K, v: V): Groups<K, V> {
    match GroupIndex(groups, k)
    case Some(i) => groups[i := (k, groups[i].1 + [v])]
    case None => groups + [(k, [v])]
  }

  /** The groups after a pass over `items`. */
  function GroupBy<K(==), V>(items: seq<(K, V)>): Groups<K, V>
    decreases |items|
  {
    if items == [] then []
    else
      var last := items[|items| - 1];
      AddTo(GroupBy(items[..|items| - 1]), last.0, last.1)
  }

  ghost predicate HasGroup<K, V>(groups: Groups<K, V>, k: K) {
    exists i :: 0 <= i < |groups| && groups[i].0 == k
  }

  ghost predicate HasItemKey<K, V>(items: seq<(K, V)>, k: K) {
    exists j :: 0 <= j < |items| && items[j].0 == k
  }

  ghost predicate DistinctGroupKeys<K, V>(groups: Groups<K, V>) {
    forall i, j :: 0 <= i < j < |groups| ==> groups[i].0 != groups[j].0
  }

  /** Keys are distinct, each group holds exactly the values of its key in order, and the keys are those of the items. */
  ghost predicate GroupsOf<K(!new), V>(groups: Groups<K, V>, items: seq<(K, V)>) {
    DistinctGroupKeys(groups) &&
    (forall i :: 0 <= i < |groups| ==> groups[i].1 == Values(items, groups[i].0)) &&
    (forall k :: HasGroup(groups, k) <==> HasItemKey(items, k))
  }

  lemma HasItemKeySnoc<K, V>(items: seq<(K, V)>, x: (K, V), k: K)
    ensures HasItemKey(items + [x], k) <==> HasItemKey(items, k) || x.0 == k
  {
    if HasItemKey(items, k) {
      var j :| 0 <= j < |items| && items[j].0 == k;
      assert (items + [x])[j].0 == k;
    }
    if x.0 == k {
      assert (items + [x])[|items|].0 == k;
    }
  }

  lemma ValuesSnoc<K(!new), V>(items: seq<(K, V)>, k: K, x: (K, V))
    ensures Values(items + [x], k) == Values(items, k) + (if x.0 == k then [x.1] else [])
  {
    assert (items + [x])[..|items|] == items;
  }

  lemma {:induction false} ValuesEmptyWithoutKey<K(!new), V>(items: seq<(K, V)>, k: K)
    requires !HasItemKey(items, k)
    ensures Values(items, k) == []
    decreases |items|
  {
    if items != [] {
      var init := items[..|items| - 1];
      ValuesEmptyWithoutKey(init, k);
    }
  }

  /** Adding to a group keeps the keys, in order; a new key goes at the end. */
  lemma AddToKeys<K(!new), V>(groups: Groups<K, V>, k: K, v: V)
    ensures var g := AddTo(groups, k, v);
      (GroupIndex(groups, k).Some? ==> |g| == |groups|) &&
      (GroupIndex(groups, k).None? ==> |g| == |groups| + 1 && g[|groups|] == (k, [v])) &&
      (forall j :: 0 <= j < |groups| ==> g[j].0 == groups[j].0) &&
      (forall k' :: HasGroup(g, k') <==> HasGroup(groups, k') || k' == k)
  {
    var g := AddTo(groups, k, v);
    forall k' ensures HasGroup(g, k') <==> HasGroup(groups, k') || k' == k {
      if HasGroup(groups, k') {
        var i :| 0 <= i < |groups| && groups[i].0 == k';
        assert g[i].0 == k';
      }
      if k' == k {
        match GroupIndex(groups, k)
        case Some(i) => assert g[i].0 == k;
        case None => assert g[|groups|].0 == k;
      }
      if HasGroup(g, k') {
        var i :| 0 <= i < |g| && g[i].0 == k';
        if i < |groups| { assert groups[i].0 == k'; }
      }
    }
  }

  /** Adding to a group keeps the keys distinct. */
  lemma AddToDistinct<K(!new), V>(groups: Groups<K, V>, k: K, v: V)
    requires DistinctGroupKeys(groups)
    ensures DistinctGroupKeys(AddTo(groups, k, v))
  {
    AddToKeys(groups, k, v);
  }

  /** Adding one item keeps the grouping exact. */
  lemma AddToGroups<K(!new), V>(groups: Groups<K, V>, items: seq<(K, V)>, x: (K, V))
    requires GroupsOf(groups, items)
    ensures GroupsOf(AddTo(groups, x.0, x.1), items + [x])
  {
    var items' := items + [x];
    var g := AddTo(groups, x.0, x.1);
    AddToKeys(groups, x.0, x.1);
    AddToDistinct(groups, x.0, x.1);
    forall k ensures HasGroup(g, k) <==> HasItemKey(items', k) {
      HasItemKeySnoc(items, x, k);
    }
    forall i | 0 <= i < |g| ensures g[i].1 == Values(items', g[i].0) {
      ValuesSnoc(items, g[i].0, x);
      if GroupIndex(groups, x.0).None? && i == |groups| {
        ValuesEmptyWithoutKey(items, x.0);
      }
    }
  }

  /** The grouping of `items` is exact. */
  lemma {:induction false} GroupByGroups<K(!new), V>(items: seq<(K, V)>)
    ensures GroupsOf(GroupBy(items), items)
    decreases |items|
  {
    if items != [] {
      var init := items[..|items| - 1];
      GroupByGroups(init);
      AddToGroups(GroupBy(init), init, items[|items| - 1]);
      assert init + [items[|items| - 1]] == items;
    }
  }

  /** The pass that builds the groups item by item. */
  method GroupInPlace<K(==,!new), V>(items: seq<(K, V)>) returns (groups: Groups<K, V>)
    ensures groups == GroupBy(items)
    ensures GroupsOf(groups, items)
  {
    groups := [];
    for i := 0 to |items|
      invariant groups == GroupBy(items[..i])
    {
      assert items[..i + 1][..i] == items[..i];
      var (k, v) := items[i];
      var at := GroupIndex(groups, k);
      if at.Some? {
        groups := groups[at.value := (k, groups[at.value].1 + [v])];
      } else {
        groups := groups + [(k, [v])];
      }
    }
    assert items[..|items|] == items;
    GroupByGroups(items);
  }

  /** A group exists only for a key some item carries, so no group is empty. */
  lemma {:induction false} ValuesNonEmpty<K(!new), V>(items: seq<(K, V)>, k: K)
    requires HasItemKey(items, k)
    ensures Values(items, k) != []
    decreases |items|
  {
    var init := items[..|items| - 1];
    if items[|items| - 1].0 != k {
      var j :| 0 <= j < |items| && items[j].0 == k;
      assert init[j].0 == k;
      ValuesNonEmpty(init, k);
    }
  }

  /** `[...new Set(xs)]`: the first occurrence of every element, in order. */
  function Unique<T(==)>(xs: seq<T>): (u: seq<T>)
    ensures forall i, j :: 0 <= i < j < |u| ==> u[i] != u[j]
    ensures forall i :: 0 <= i < |xs| ==> xs[i] in u
    ensures forall i :: 0 <= i < |u| ==> u[i] in xs
    decreases |xs|
  {
    if xs == [] then []
    else
      var init := Unique(xs[..|xs| - 1]);
      var last := xs[|xs| - 1];
      assert forall i :: 0 <= i < |xs| - 1 ==> xs[..|xs| - 1][i] == xs[i];
      if last in init then init else init + [last]
  }

  /** The keys of the items, in order. */
  function ItemKeys<K, V>(items: seq<(K, V)>): (ks: seq<K>)
    ensures |ks| == |items| && forall i :: 0 <= i < |items| ==> ks[i] == items[i].0
  {
    seq(|items|, i requires 0 <= i < |items| => items[i].0)
  }

  lemma UniqueKeyIff<K, V>(items: seq<(K, V)>, k: K)
    ensures k in Unique(ItemKeys(items)) <==> HasItemKey(items, k)
  {
    if k in Unique(ItemKeys(items)) {
      var j :| 0 <= j < |items| && ItemKeys(items)[j] == k;
    }
    if HasItemKey(items, k) {
      var j :| 0 <= j < |items| && items[j].0 == k;
      assert ItemKeys(items)[j] == k;
    }
  }

  lemma AddToItemKeys<K(!new), V>(groups: Groups<K, V>, k: K, v: V)
    ensures ItemKeys(AddTo(groups, k, v)) == if HasGroup(groups, k) then ItemKeys(groups) else ItemKeys(groups) + [k]
  {
    AddToKeys(groups, k, v);
    if GroupIndex(groups, k).Some? {
      assert HasGroup(groups, k);
    }
  }

  lemma GroupByHasGroup<K(!new), V>(items: seq<(K, V)>, k: K)
    ensures HasGroup(GroupBy(items), k) <==> HasItemKey(items, k)
  {
    GroupByGroups(items);
  }

  /** The groups come in the order in which their keys first occur among the items. */
  lemma {:induction false} GroupKeysFirstOccurrence<K(!new), V>(items: seq<(K, V)>)
    ensures ItemKeys(GroupBy(items)) == Unique(ItemKeys(items))
    decreases |items|
  {
    if items != [] {
      var init := items[..|items| - 1];
      var last := items[|items| - 1];
      GroupKeysFirstOccurrence(init);
      GroupByHasGroup(init, last.0);
      UniqueKeyIff(init, last.0);
      AddToItemKeys(GroupBy(init), last.0, last.1);
      assert ItemKeys(items)[..|items| - 1] == ItemKeys(init);
    }
  }
}
