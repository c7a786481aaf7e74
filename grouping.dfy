/**
 * Grouping a list into a map from key to the list of values under that key,
 * the Go idiom `m[k] = append(m[k], v)` run over a slice. Both the role's
 * permission map (pkg/models/db/db_role.go) and the Postman routes by prefix
 * (pkg/postman/collector.go) are built this way.
 */
module Grouping {

  /** The slice the loop `out = append(out, f(x))` builds, one item at a time. */
  function Mapped<T, V>(items: seq<T>, f: T -> V): (r: seq<V>)
    ensures |r| == |items|
    decreases |items|
  {
    if items == [] then []
    else Mapped(items[..|items| - 1], f) + [f(items[|items| - 1])]
  }

  /** One more turn of the loop appends the image of the next item. */
  lemma MappedSnoc<T, V>(items: seq<T>, f: T -> V, i: int)
    requires 0 <= i < |items|
    ensures Mapped(items[..i + 1], f) == Mapped(items[..i], f) + [f(items[i])]
  {
    assert items[..i + 1][..i] == items[..i];
  }

  /** Each slot of the mapped slice holds the image of the item in the same slot. */
  lemma {:induction false} MappedAt<T, V>(items: seq<T>, f: T -> V, i: int)
    requires 0 <= i < |items|
    ensures Mapped(items, f)[i] == f(items[i])
    decreases |items|
  {
    var front := items[..|items| - 1];
    if i < |front| {
      MappedAt(front, f, i);
      assert front[i] == items[i];
    }
  }

  /**
   * The keys of a map in the order a Go `range` over it visits them: each
   * key once, in an order the language leaves unspecified.
   */
  method RangeOrder<V>(m: map<string, V>) returns (order: seq<string>)
    ensures forall i, j :: 0 <= i < j < |order| ==> order[i] != order[j]
    ensures forall k :: k in order <==> k in m
  {
    order := [];
    var remaining := m.Keys;
    while remaining != {}
      invariant remaining <= m.Keys
      invariant forall i, j :: 0 <= i < j < |order| ==> order[i] != order[j]
      invariant forall k :: k in order <==> k in m && k !in remaining
      decreases |remaining|
    {
      var k :| k in remaining;
      order := order + [k];
      remaining := remaining - {k};
    }
  }

  /** The map the loop builds, one item at a time. */
  function GroupedBy<T, V>(items: seq<T>, key: T -> string, val: T -> V): map<string, seq<V>>
    decreases |items|
  {
    if items == [] then map[]
    else
      var m := GroupedBy(items[..|items| - 1], key, val);
      var k := key(items[|items| - 1]);
      m[k := (if k in m then m[k] else []) + [val(items[|items| - 1])]]
  }

  /** The loop `m[key(x)] = append(m[key(x)], val(x))` over the items. */
  method GroupBy<T, V>(items: seq<T>, key: T -> string, val: T -> V) returns (m: map<string, seq<V>>)
    ensures m == GroupedBy(items, key, val)
  {
    m := map[];
    var i := 0;
    while i < |items|
      invariant 0 <= i <= |items|
      invariant m == GroupedBy(items[..i], key, val)
    {
      var k := key(items[i]);
      var existing := if k in m then m[k] else [];
      m := m[k := existing + [val(items[i])]];
      assert items[..i + 1][..i] == items[..i];
      i := i + 1;
    }
    assert items[..i] == items;
  }

  /** The values of the items under key `k`, in item order, duplicates kept. */
  function ValuesUnder<T, V>(items: seq<T>, key: T -> string, val: T -> V, k: string): (r: seq<V>)
    ensures |r| <= |items|
    decreases |items|
  {
    if items == [] then []
    else
      var last := items[|items| - 1];
      ValuesUnder(items[..|items| - 1], key, val, k) + (if key(last) == k then [val(last)] else [])
  }

  /** The keys of the map are exactly the keys of the items. */
  lemma {:induction false} GroupedKeys<T, V>(items: seq<T>, key: T -> string, val: T -> V, k: string)
    ensures k in GroupedBy(items, key, val) <==> exists i :: 0 <= i < |items| && key(items[i]) == k
    decreases |items|
  {
    if items != [] {
      var front := items[..|items| - 1];
      GroupedKeys(front, key, val, k);
      if exists i :: 0 <= i < |front| && key(front[i]) == k {
        var i :| 0 <= i < |front| && key(front[i]) == k;
        assert items[i] == front[i];
      }
      if exists i :: 0 <= i < |items| && key(items[i]) == k {
        var i :| 0 <= i < |items| && key(items[i]) == k;
        if i < |front| {
          assert front[i] == items[i];
        }
      }
    }
  }

  /** A key with no entry in the map has no items. */
  lemma {:induction false} ValuesAbsent<T, V>(items: seq<T>, key: T -> string, val: T -> V, k: string)
    requires k !in GroupedBy(items, key, val)
    ensures ValuesUnder(items, key, val, k) == []
    decreases |items|
  {
    if items != [] {
      ValuesAbsent(items[..|items| - 1], key, val, k);
    }
  }

  /** Under each key the map holds that key's values in item order. */
  lemma {:induction false} GroupedInOrder<T, V>(items: seq<T>, key: T -> string, val: T -> V, k: string)
    requires k in GroupedBy(items, key, val)
    ensures GroupedBy(items, key, val)[k] == ValuesUnder(items, key, val, k)
    decreases |items|
  {
    var front := items[..|items| - 1];
    if k in GroupedBy(front, key, val) {
      GroupedInOrder(front, key, val, k);
    } else {
      ValuesAbsent(front, key, val, k);
    }
  }

  /** A value is under `k` exactly when some item with key `k` carries it. */
  lemma {:induction false} ValuesUnderIff<T, V>(items: seq<T>, key: T -> string, val: T -> V, k: string, v: V)
    ensures v in ValuesUnder(items, key, val, k) <==>
              exists i :: 0 <= i < |items| && key(items[i]) == k && val(items[i]) == v
    decreases |items|
  {
    if items != [] {
      var front := items[..|items| - 1];
      ValuesUnderIff(front, key, val, k, v);
      if exists i :: 0 <= i < |front| && key(front[i]) == k && val(front[i]) == v {
        var i :| 0 <= i < |front| && key(front[i]) == k && val(front[i]) == v;
        assert items[i] == front[i];
      }
      if exists i :: 0 <= i < |items| && key(items[i]) == k && val(items[i]) == v {
        var i :| 0 <= i < |items| && key(items[i]) == k && val(items[i]) == v;
        if i < |front| {
          assert front[i] == items[i];
        }
      }
    }
  }

  /** The keys in order of first appearance. */
  function KeyOrder<T>(items: seq<T>, key: T -> string): (r: seq<string>)
    ensures forall i, j :: 0 <= i < j < |r| ==> r[i] != r[j]
    decreases |items|
  {
    if items == [] then []
    else
      var front := KeyOrder(items[..|items| - 1], key);
      var k := key(items[|items| - 1]);
      if k in front then front else front + [k]
  }

  /** The first-appearance order lists the keys of the map. */
  lemma {:induction false} KeyOrderKeys<T, V>(items: seq<T>, key: T -> string, val: T -> V, k: string)
    ensures k in KeyOrder(items, key) <==> k in GroupedBy(items, key, val)
    decreases |items|
  {
    if items != [] {
      KeyOrderKeys(items[..|items| - 1], key, val, k);
    }
  }

  /** The number of values held under the listed keys. */
  function Total<V>(m: map<string, seq<V>>, keys: seq<string>): nat
    decreases |keys|
  {
    if keys == [] then 0
    else (if keys[0] in m then |m[keys[0]]| else 0) + Total(m, keys[1..])
  }

  lemma {:induction false} TotalUnlisted<V>(m: map<string, seq<V>>, keys: seq<string>, k: string, v: seq<V>)
    requires k !in keys
    ensures Total(m[k := v], keys) == Total(m, keys)
    decreases |keys|
  {
    if keys != [] {
      TotalUnlisted(m, keys[1..], k, v);
    }
  }

  lemma {:induction false} TotalAppend<V>(m: map<string, seq<V>>, keys: seq<string>, k: string)
    ensures Total(m, keys + [k]) == Total(m, keys) + (if k in m then |m[k]| else 0)
    decreases |keys|
  {
    if keys != [] {
      assert (keys + [k])[1..] == keys[1..] + [k];
      TotalAppend(m, keys[1..], k);
    } else {
      assert [k][1..] == [];
    }
  }

  lemma {:induction false} TotalGrow<V>(m: map<string, seq<V>>, keys: seq<string>, k: string, x: V)
    requires k in m
    requires forall i, j :: 0 <= i < j < |keys| ==> keys[i] != keys[j]
    requires k in keys
    ensures Total(m[k := m[k] + [x]], keys) == Total(m, keys) + 1
    decreases |keys|
  {
    if keys[0] == k {
      assert k !in keys[1..];
      TotalUnlisted(m, keys[1..], k, m[k] + [x]);
    } else {
      TotalGrow(m, keys[1..], k, x);
    }
  }

  /** No value is lost or invented: the groups together hold one value per item. */
  lemma {:induction false} GroupedTotal<T, V>(items: seq<T>, key: T -> string, val: T -> V)
    ensures Total(GroupedBy(items, key, val), KeyOrder(items, key)) == |items|
    decreases |items|
  {
    if items != [] {
      var front := items[..|items| - 1];
      var m := GroupedBy(front, key, val);
      var keys := KeyOrder(front, key);
      var k := key(items[|items| - 1]);
      var v := val(items[|items| - 1]);
      GroupedTotal(front, key, val);
      KeyOrderKeys(front, key, val, k);
      if k in keys {
        TotalGrow(m, keys, k, v);
      } else {
        assert [] + [v] == [v];
        assert GroupedBy(items, key, val) == m[k := [v]];
        assert KeyOrder(items, key) == keys + [k];
        TotalUnlisted(m, keys, k, [v]);
        TotalAppend(m[k := [v]], keys, k);
      }
    }
  }
}
