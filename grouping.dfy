/** Group-by-sum: the `reduce` into a plain object, `acc[key] = (acc[key] || 0)
    + amount`, followed by `Object.entries`. A JavaScript object enumerates
    its (non-numeric) keys in the order they were first written, so the
    groups are a sequence in order of first appearance. */
module Grouping {

  /** One summand: the key it is grouped under and its amount. */
  datatype Item<K> = Item(key: K, amount: real)

  /** One entry of the resulting object. */
  datatype Group<K> = Group(key: K, total: real)

  /** The keys of the groups, in order. */
  function Keys<K>(gs: seq<Group<K>>): (r: seq<K>)
    ensures |r| == |gs|
  {
    if gs == [] then [] else [gs[0].key] + Keys(gs[1..])
  }

  lemma {:induction false} KeysIndex<K>(gs: seq<Group<K>>, i: int)
    requires 0 <= i < |gs|
    ensures Keys(gs)[i] == gs[i].key
  {
    if i > 0 {
      KeysIndex(gs[1..], i - 1);
    }
  }

  predicate Distinct<K(==)>(ks: seq<K>) {
    forall i, j :: 0 <= i < j < |ks| ==> ks[i] != ks[j]
  }

  /** Σ total over the groups. */
  function SumGroups<K>(gs: seq<Group<K>>): real {
    if gs == [] then 0.0 else gs[0].total + SumGroups(gs[1..])
  }

  /** `acc[k] || 0`: the total of the first group with key `k`, else 0. */
  function TotalOf<K(==)>(gs: seq<Group<K>>, k: K): real {
    if gs == [] then 0.0 else if gs[0].key == k then gs[0].total else TotalOf(gs[1..], k)
  }

  /** Σ amount over the items. */
  function SumItems<K>(items: seq<Item<K>>): real {
    if items == [] then 0.0 else SumItems(items[..|items| - 1]) + items[|items| - 1].amount
  }

  /** Σ amount over the items with key `k`. */
  function SumFor<K(==)>(items: seq<Item<K>>, k: K): real {
    if items == [] then 0.0
    else
      var last := items[|items| - 1];
      SumFor(items[..|items| - 1], k) + (if last.key == k then last.amount else 0.0)
  }

  /** The distinct keys of the items, in order of first appearance. */
  function FirstKeys<K(==)>(items: seq<Item<K>>): (r: seq<K>) {
    if items == [] then []
    else
      var p := FirstKeys(items[..|items| - 1]);
      if items[|items| - 1].key in p then p else p + [items[|items| - 1].key]
  }

  /** The first-appearance keys are distinct. */
  lemma {:induction false} FirstKeysDistinct<K>(items: seq<Item<K>>)
    ensures Distinct(FirstKeys(items))
  {
    if items != [] {
      FirstKeysDistinct(items[..|items| - 1]);
    }
  }

  /** A key is among the first-appearance keys exactly when it occurs among
      the items. */
  lemma {:induction false} FirstKeysIn<K>(items: seq<Item<K>>, k: K)
    ensures k in FirstKeys(items) <==> exists i :: 0 <= i < |items| && items[i].key == k
  {
    if items != [] {
      var init := items[..|items| - 1];
      FirstKeysIn(init, k);
      if exists i :: 0 <= i < |items| && items[i].key == k {
        var i :| 0 <= i < |items| && items[i].key == k;
        if i < |items| - 1 {
          assert init[i].key == k;
        }
      }
      if k in FirstKeys(items) {
        if k in FirstKeys(init) {
          var i :| 0 <= i < |init| && init[i].key == k;
          assert items[i].key == k;
        } else {
          assert items[|items| - 1].key == k;
        }
      }
    }
  }

  /** `acc[k] = (acc[k] || 0) + v`: adds to the group with key `k`, or
      appends a new group at the end. */
  function Upsert<K(==, !new)>(gs: seq<Group<K>>, k: K, v: real): (r: seq<Group<K>>)
    ensures Keys(r) == if k in Keys(gs) then Keys(gs) else Keys(gs) + [k]
    ensures SumGroups(r) == SumGroups(gs) + v
    ensures TotalOf(r, k) == TotalOf(gs, k) + v
    ensures forall k' :: k' != k ==> TotalOf(r, k') == TotalOf(gs, k')
  {
    if gs == [] then
      [Group(k, v)]
    else if gs[0].key == k then
      assert ([Group(k, gs[0].total + v)] + gs[1..])[1..] == gs[1..];
      [Group(k, gs[0].total + v)] + gs[1..]
    else
      var rest := Upsert(gs[1..], k, v);
      assert ([gs[0]] + rest)[1..] == rest;
      [gs[0]] + rest
  }

  /** The object the `reduce` builds, as a sequence of groups. */
  function GroupSums<K(==, !new)>(items: seq<Item<K>>): (r: seq<Group<K>>)
    ensures Keys(r) == FirstKeys(items)
    ensures SumGroups(r) == SumItems(items)
    ensures forall k :: TotalOf(r, k) == SumFor(items, k)
  {
    if items == [] then []
    else
      var last := items[|items| - 1];
      Upsert(GroupSums(items[..|items| - 1]), last.key, last.amount)
  }

  /** The grouping has one entry per distinct key occurring among the items,
      in order of first appearance, and each entry's total is the sum of the
      amounts with its key. */
  lemma GroupSumsSpec<K(!new)>(items: seq<Item<K>>)
    ensures Distinct(Keys(GroupSums(items)))
    ensures forall k :: k in Keys(GroupSums(items)) <==> exists i :: 0 <= i < |items| && items[i].key == k
    ensures forall i :: 0 <= i < |GroupSums(items)| ==>
      GroupSums(items)[i].total == SumFor(items, GroupSums(items)[i].key)
  {
    var r := GroupSums(items);
    FirstKeysDistinct(items);
    forall k
      ensures k in Keys(r) <==> exists i :: 0 <= i < |items| && items[i].key == k
    {
      FirstKeysIn(items, k);
    }
    forall i | 0 <= i < |r|
      ensures r[i].total == SumFor(items, r[i].key)
    {
      KeysIndex(r, i);
      DistinctTotal(r, i);
    }
  }

  /** With distinct keys, `TotalOf` finds each group's own total. */
  lemma {:induction false} DistinctTotal<K>(gs: seq<Group<K>>, i: int)
    requires Distinct(Keys(gs))
    requires 0 <= i < |gs|
    ensures TotalOf(gs, gs[i].key) == gs[i].total
  {
    if i > 0 {
      KeysIndex(gs, 0);
      KeysIndex(gs, i);
      assert Keys(gs)[1..] == Keys(gs[1..]);
      DistinctTotal(gs[1..], i - 1);
    }
  }
}
