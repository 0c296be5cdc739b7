/** JavaScript `Map`s keyed by a string computed from each element: grouping
    a list under its keys, and indexing a list so that the last element with a
    key wins. The key function is a parameter, so these proofs never look
    inside it. */
module Keyed {
  import opened Js
  import opened Seqs

  /** A `Map` with string keys: its keys in insertion order and its entries. */
  datatype OrderedMap<V> = OrderedMap(keys: seq<string>, values: map<string, V>)

  /** The key list has no repetition and names exactly the entries. */
  predicate WellFormed<V>(m: OrderedMap<V>) {
    && Distinct(m.keys)
    && (forall i :: 0 <= i < |m.keys| ==> m.keys[i] in m.values)
    && (forall k :: k in m.values ==> k in m.keys)
  }

  /** The key of every element, in order. */
  function KeysOf<T>(s: seq<T>, key: T -> string): (ks: seq<string>)
    ensures |ks| == |s| && forall i :: 0 <= i < |s| ==> ks[i] == key(s[i])
  {
    if |s| == 0 then [] else KeysOf(s[..|s| - 1], key) + [key(s[|s| - 1])]
  }

  function HasKey<T>(key: T -> string, k: string): T -> bool {
    x => key(x) == k
  }

  /** The distinct keys are exactly the keys some element has. */
  lemma KeysOfMembers<T(!new)>(s: seq<T>, key: T -> string)
    ensures forall k :: k in Dedup(KeysOf(s, key)) <==> exists x :: x in s && key(x) == k
  {
    var ks := KeysOf(s, key);
    forall k ensures k in Dedup(ks) <==> exists x :: x in s && key(x) == k {
      if k in ks {
        var i :| 0 <= i < |ks| && ks[i] == k;
        assert s[i] in s && key(s[i]) == k;
      }
      if exists x :: x in s && key(x) == k {
        var x :| x in s && key(x) == k;
        var i :| 0 <= i < |s| && s[i] == x;
        assert ks[i] == k;
      }
    }
  }

  lemma KeysOfSnoc<T>(s: seq<T>, key: T -> string, x: T)
    ensures KeysOf(s + [x], key) == KeysOf(s, key) + [key(x)]
  {
    assert (s + [x])[..|s|] == s;
  }

  lemma DedupSnoc(s: seq<string>, y: string)
    ensures Dedup(s + [y]) == if y in Dedup(s) then Dedup(s) else Dedup(s) + [y]
  {
    assert (s + [y])[..|s|] == s;
  }

  lemma FilterSnoc<T>(s: seq<T>, p: T -> bool, x: T)
    ensures Filter(s + [x], p) == if p(x) then Filter(s, p) + [x] else Filter(s, p)
  {
    assert (s + [x])[..|s|] == s;
  }

  /** The keys of `items` in first-occurrence order, grown by one element. */
  lemma KeyListSnoc<T>(items: seq<T>, key: T -> string, x: T)
    ensures Dedup(KeysOf(items + [x], key)) ==
      if key(x) in Dedup(KeysOf(items, key)) then Dedup(KeysOf(items, key)) else Dedup(KeysOf(items, key)) + [key(x)]
  {
    KeysOfSnoc(items, key, x);
    DedupSnoc(KeysOf(items, key), key(x));
  }

  // ---------------------------------------------------------------------------
  // Grouping

  /** `groups` holds, under each key of `items` in first-occurrence order, the
      elements with that key in their original order. */
  ghost predicate IsGrouping<T>(groups: OrderedMap<seq<T>>, items: seq<T>, key: T -> string) {
    && WellFormed(groups)
    && groups.keys == Dedup(KeysOf(items, key))
    && forall k :: k in groups.values ==> groups.values[k] == Filter(items, HasKey(key, k))
  }

  /** `m.get(k) || []`. */
  function GroupOf<T>(m: OrderedMap<seq<T>>, k: string): seq<T> {
    if k in m.values then m.values[k] else []
  }

  /** `if (!m.has(k)) m.set(k, []); m.get(k).push(x)`. */
  function Push<T>(m: OrderedMap<seq<T>>, k: string, x: T): OrderedMap<seq<T>> {
    var ready := if k in m.values then m else OrderedMap(m.keys + [k], m.values[k := []]);
    ready.(values := ready.values[k := ready.values[k] + [x]])
  }

  /** A new key goes to the end of the key list; the map stays well formed. */
  lemma PushWellFormed<T>(m: OrderedMap<seq<T>>, k: string, x: T)
    requires WellFormed(m)
    ensures WellFormed(Push(m, k, x))
  {
    if k !in m.values {
      DistinctSnoc(m.keys, k);
    }
  }

  /** Pushing the next element onto its key's group keeps the grouping exact. */
  lemma PushStep<T>(groups: OrderedMap<seq<T>>, all: seq<T>, i: nat, key: T -> string)
    requires i < |all| && IsGrouping(groups, all[..i], key)
    ensures IsGrouping(Push(groups, key(all[i]), all[i]), all[..i + 1], key)
  {
    assert all[..i + 1] == all[..i] + [all[i]];
    PushAppends(groups, all[..i], key, all[i]);
  }

  lemma PushAppends<T>(groups: OrderedMap<seq<T>>, items: seq<T>, key: T -> string, x: T)
    requires IsGrouping(groups, items, key)
    ensures IsGrouping(Push(groups, key(x), x), items + [x], key)
  {
    PushWellFormed(groups, key(x), x);
    KeyListSnoc(items, key, x);
    PushGroups(groups, items, key, x);
  }

  /** After the push every group is the filter of the grown list by its key. */
  lemma PushGroups<T>(groups: OrderedMap<seq<T>>, items: seq<T>, key: T -> string, x: T)
    requires IsGrouping(groups, items, key)
    ensures forall j :: j in Push(groups, key(x), x).values ==>
      Push(groups, key(x), x).values[j] == Filter(items + [x], HasKey(key, j))
  {
    var k := key(x);
    var g := Push(groups, k, x);
    if k !in groups.values {
      NoneWithKey(items, key, k);
    }
    assert GroupOf(groups, k) == Filter(items, HasKey(key, k));
    forall j | j in g.values ensures g.values[j] == Filter(items + [x], HasKey(key, j)) {
      FilterSnoc(items, HasKey(key, j), x);
    }
  }

  /** The loop filling the map: every element pushed onto its key's group, in order. */
  method GroupBy<T>(items: seq<T>, key: T -> string) returns (groups: OrderedMap<seq<T>>)
    ensures IsGrouping(groups, items, key)
  {
    groups := OrderedMap([], map[]);
    for i := 0 to |items|
      invariant IsGrouping(groups, items[..i], key)
    {
      var x := items[i];
      var k := key(x);
      ghost var before := groups;
      if k !in groups.values {
        groups := OrderedMap(groups.keys + [k], groups.values[k := []]);
      }
      groups := groups.(values := groups.values[k := groups.values[k] + [x]]);
      assert groups == Push(before, k, x);
      PushStep(before, items, i, key);
    }
    assert items[..|items|] == items;
  }

  /** A key that no element has selects nothing. */
  lemma NoneWithKey<T>(items: seq<T>, key: T -> string, k: string)
    requires k !in Dedup(KeysOf(items, key))
    ensures Filter(items, HasKey(key, k)) == []
  {
    forall i | 0 <= i < |items| ensures !HasKey(key, k)(items[i]) {
      assert KeysOf(items, key)[i] == key(items[i]);
    }
    FilterKeepsNone(items, HasKey(key, k));
  }

  /** Each element is in exactly one group, its own key's. */
  lemma InOwnGroupOnly<T>(items: seq<T>, key: T -> string, x: T, k: string)
    requires x in items
    ensures x in Filter(items, HasKey(key, k)) <==> k == key(x)
  {
    FilterMembers(items, HasKey(key, k));
  }

  /** The total size of the groups of the keys `ks`. */
  function GroupSizes<T>(ks: seq<string>, items: seq<T>, key: T -> string): nat {
    if |ks| == 0 then 0 else GroupSizes(ks[..|ks| - 1], items, key) + |Filter(items, HasKey(key, ks[|ks| - 1]))|
  }

  /** The groups of all the keys together hold every element exactly once. */
  lemma {:induction false} GroupSizesSum<T>(items: seq<T>, key: T -> string)
    ensures GroupSizes(Dedup(KeysOf(items, key)), items, key) == |items|
  {
    if |items| > 0 {
      var init, x := items[..|items| - 1], items[|items| - 1];
      var ks := Dedup(KeysOf(init, key));
      GroupSizesSum(init, key);
      assert items == init + [x];
      KeyListSnoc(init, key, x);
      GroupSizesStep(ks, init, key, x);
      if key(x) !in ks {
        NoneWithKey(init, key, key(x));
        FilterSnoc(init, HasKey(key, key(x)), x);
        assert (ks + [key(x)])[..|ks|] == ks;
      }
    }
  }

  /** Adding one element adds one to its own key's group and nothing elsewhere. */
  lemma {:induction false} GroupSizesStep<T>(ks: seq<string>, init: seq<T>, key: T -> string, x: T)
    requires Distinct(ks)
    ensures GroupSizes(ks, init + [x], key) == GroupSizes(ks, init, key) + (if key(x) in ks then 1 else 0)
  {
    assert (init + [x])[..|init|] == init;
    if |ks| > 0 {
      var front := ks[..|ks| - 1];
      assert Distinct(front);
      GroupSizesStep(front, init, key, x);
      assert ks == front + [ks[|ks| - 1]];
    }
  }

  // ---------------------------------------------------------------------------
  // Indexing

  /** The index of the last element whose key is `k`. */
  function LastIndex<T>(s: seq<T>, key: T -> string, k: string): (r: Option<nat>)
    ensures r.None? ==> forall i :: 0 <= i < |s| ==> key(s[i]) != k
    ensures r.Some? ==> r.value < |s| && key(s[r.value]) == k
    ensures r.Some? ==> forall j :: r.value < j < |s| ==> key(s[j]) != k
  {
    if |s| == 0 then None
    else if key(s[|s| - 1]) == k then Some(|s| - 1)
    else LastIndex(s[..|s| - 1], key, k)
  }

  /** The last element whose key is `k`, if any. */
  function LastWith<T>(s: seq<T>, key: T -> string, k: string): (r: Option<T>)
    ensures r.None? <==> forall i :: 0 <= i < |s| ==> key(s[i]) != k
    ensures r.Some? ==> LastIndex(s, key, k).Some? && r.value == s[LastIndex(s, key, k).value]
  {
    match LastIndex(s, key, k)
    case None => None
    case Some(i) => Some(s[i])
  }

  lemma LastWithSnoc<T>(s: seq<T>, key: T -> string, x: T, k: string)
    ensures LastWith(s + [x], key, k) == if key(x) == k then Some(x) else LastWith(s, key, k)
  {
    assert (s + [x])[..|s|] == s;
  }

  /** `index` holds, under each key of `items` in first-occurrence order, the
      last element with that key. */
  ghost predicate IsIndex<T>(index: OrderedMap<T>, items: seq<T>, key: T -> string) {
    && WellFormed(index)
    && index.keys == Dedup(KeysOf(items, key))
    && (forall k :: k in index.values ==> LastWith(items, key, k) == Some(index.values[k]))
    && (forall k :: k !in index.values ==> LastWith(items, key, k) == None)
  }

  /** `m.set(k, x)`: a new key goes to the end of the key list, an old one keeps its place. */
  function Set<T>(index: OrderedMap<T>, k: string, x: T): OrderedMap<T> {
    OrderedMap(if k in index.values then index.keys else index.keys + [k], index.values[k := x])
  }

  /** Setting the next element under its key keeps the index exact. */
  lemma SetStep<T>(index: OrderedMap<T>, all: seq<T>, i: nat, key: T -> string)
    requires i < |all| && IsIndex(index, all[..i], key)
    ensures IsIndex(Set(index, key(all[i]), all[i]), all[..i + 1], key)
  {
    assert all[..i + 1] == all[..i] + [all[i]];
    SetAppends(index, all[..i], key, all[i]);
  }

  lemma SetAppends<T>(index: OrderedMap<T>, items: seq<T>, key: T -> string, x: T)
    requires IsIndex(index, items, key)
    ensures IsIndex(Set(index, key(x), x), items + [x], key)
  {
    SetWellFormed(index, key(x), x);
    KeyListSnoc(items, key, x);
    SetEntries(index, items, key, x);
  }

  lemma SetWellFormed<T>(m: OrderedMap<T>, k: string, x: T)
    requires WellFormed(m)
    ensures WellFormed(Set(m, k, x))
  {
    if k !in m.values {
      DistinctSnoc(m.keys, k);
    }
  }

  lemma SetEntries<T>(index: OrderedMap<T>, items: seq<T>, key: T -> string, x: T)
    requires forall k :: k in index.values ==> LastWith(items, key, k) == Some(index.values[k])
    requires forall k :: k !in index.values ==> LastWith(items, key, k) == None
    ensures forall k :: k in Set(index, key(x), x).values ==> LastWith(items + [x], key, k) == Some(Set(index, key(x), x).values[k])
    ensures forall k :: k !in Set(index, key(x), x).values ==> LastWith(items + [x], key, k) == None
  {
    var n := Set(index, key(x), x);
    forall k ensures (k in n.values ==> LastWith(items + [x], key, k) == Some(n.values[k]))
                  && (k !in n.values ==> LastWith(items + [x], key, k) == None) {
      LastWithSnoc(items, key, x, k);
    }
  }

  /** The loop filling the map: `m.set(key(x), x)` for every element, in order. */
  method IndexBy<T>(items: seq<T>, key: T -> string) returns (index: OrderedMap<T>)
    ensures IsIndex(index, items, key)
  {
    index := OrderedMap([], map[]);
    for i := 0 to |items|
      invariant IsIndex(index, items[..i], key)
    {
      var x := items[i];
      var k := key(x);
      ghost var before := index;
      if k !in index.values {
        index := index.(keys := index.keys + [k]);
      }
      index := index.(values := index.values[k := x]);
      assert index == Set(before, k, x);
      SetStep(before, items, i, key);
    }
    assert items[..|items|] == items;
  }
}
