/**
 * A plain JavaScript object used as a dictionary: its own properties in
 * enumeration order, which is the order a `for ... in` loop visits them.
 * Assigning to an existing property keeps its place; a new property goes last.
 */
module OrderedMaps {

  datatype Option<T> = None | Some(value: T)

  type OrderedMap<V> = seq<(string, V)>

  function Keys<V>(m: OrderedMap<V>): (ks: seq<string>)
    ensures |ks| == |m|
    ensures forall i :: 0 <= i < |m| ==> ks[i] == m[i].0
  {
    seq(|m|, i requires 0 <= i < |m| => m[i].0)
  }

  /** No property name appears twice, as in every JavaScript object. */
  predicate UniqueKeys<V>(m: OrderedMap<V>)
  {
    forall i, j :: 0 <= i < j < |m| ==> m[i].0 != m[j].0
  }

  /** `obj[k]`. */
  function Lookup<V>(m: OrderedMap<V>, k: string): (r: Option<V>)
  {
    if m == [] then None
    else if m[0].0 == k then Some(m[0].1)
    else Lookup(m[1..], k)
  }

  /** `obj[k] = v`. */
  function Set<V>(m: OrderedMap<V>, k: string, v: V): (r: OrderedMap<V>)
  {
    if m == [] then [(k, v)]
    else if m[0].0 == k then [(k, v)] + m[1..]
    else [m[0]] + Set(m[1..], k, v)
  }

  /** A property is found exactly when its name is among the keys. */
  lemma {:induction false} LookupKeys<V>(m: OrderedMap<V>, k: string)
    ensures Lookup(m, k).Some? <==> k in Keys(m)
  {
    if m != [] && m[0].0 != k {
      LookupKeys(m[1..], k);
      assert Keys(m) == [m[0].0] + Keys(m[1..]);
    }
  }

  /** In a map without duplicate names, the entry at index `i` is what a lookup of its name finds. */
  lemma {:induction false} LookupAt<V>(m: OrderedMap<V>, i: nat)
    requires UniqueKeys(m) && i < |m|
    ensures Lookup(m, m[i].0) == Some(m[i].1)
  {
    if i > 0 {
      LookupAt(m[1..], i - 1);
    }
  }

  /** After `obj[k] = v`, `obj[k]` is `v` and every other property is as before. */
  lemma {:induction false} LookupSet<V>(m: OrderedMap<V>, k: string, v: V, k': string)
    ensures Lookup(Set(m, k, v), k') == if k' == k then Some(v) else Lookup(m, k')
  {
    if m != [] && m[0].0 != k {
      LookupSet(m[1..], k, v, k');
    }
  }

  /** The names of an entry followed by a map. */
  lemma KeysCons<V>(x: (string, V), m: OrderedMap<V>)
    ensures Keys([x] + m) == [x.0] + Keys(m)
  {
    var l, r := Keys([x] + m), [x.0] + Keys(m);
    assert |l| == |r|;
    forall i | 0 <= i < |l|
      ensures l[i] == r[i]
    {
      if i > 0 {
        assert ([x] + m)[i] == m[i - 1];
      }
    }
  }

  /** Assignment keeps the order of the existing names and appends a new one at the end. */
  lemma {:induction false} KeysSet<V>(m: OrderedMap<V>, k: string, v: V)
    ensures Keys(Set(m, k, v)) == if k in Keys(m) then Keys(m) else Keys(m) + [k]
  {
    if m != [] {
      var tail := m[1..];
      assert m == [m[0]] + tail;
      KeysCons(m[0], tail);
      if m[0].0 != k {
        KeysSet(tail, k, v);
        KeysCons(m[0], Set(tail, k, v));
        assert k in Keys(m) <==> k in Keys(tail);
      } else {
        KeysCons((k, v), tail);
      }
    }
  }

  /** The names of a map extended by one entry. */
  lemma KeysSnoc<V>(m: OrderedMap<V>, x: (string, V))
    ensures Keys(m + [x]) == Keys(m) + [x.0]
  {
    assert forall i :: 0 <= i < |m| ==> (m + [x])[i] == m[i];
  }

  /** A map without duplicates, extended by one entry: the prefix has none and the new name is not in it. */
  lemma UniqueKeysSplit<V>(m: OrderedMap<V>, x: (string, V))
    requires UniqueKeys(m + [x])
    ensures UniqueKeys(m) && x.0 !in Keys(m)
  {
    var mx := m + [x];
    forall i, j | 0 <= i < j < |m|
      ensures m[i].0 != m[j].0
    {
      assert mx[i] == m[i] && mx[j] == m[j];
    }
    forall i | 0 <= i < |m|
      ensures Keys(m)[i] != x.0
    {
      assert mx[i] == m[i] && mx[|m|] == x;
    }
  }

  /** Assignment never introduces a duplicate name. */
  lemma {:induction false} UniqueKeysSet<V>(m: OrderedMap<V>, k: string, v: V)
    requires UniqueKeys(m)
    ensures UniqueKeys(Set(m, k, v))
  {
    var r := Set(m, k, v);
    KeysSet(m, k, v);
    assert Keys(r) == if k in Keys(m) then Keys(m) else Keys(m) + [k];
    forall i, j | 0 <= i < j < |r|
      ensures r[i].0 != r[j].0
    {
      assert Keys(r)[i] == r[i].0 && Keys(r)[j] == r[j].0;
      if k !in Keys(m) && j == |m| {
        assert Keys(m)[i] == m[i].0;
      } else {
        assert Keys(m)[i] == m[i].0 && Keys(m)[j] == m[j].0;
      }
    }
  }

  /** Assigning a property the value it already holds leaves the object unchanged. */
  lemma {:induction false} SetToCurrent<V>(m: OrderedMap<V>, k: string, v: V)
    requires Lookup(m, k) == Some(v)
    ensures Set(m, k, v) == m
  {
    if m[0].0 != k {
      SetToCurrent(m[1..], k, v);
    }
  }

  /** Looking up in a map extended at the end: an earlier entry wins over the new one. */
  lemma {:induction false} LookupAppend<V>(m: OrderedMap<V>, x: (string, V), k: string)
    ensures Lookup(m + [x], k) ==
      if Lookup(m, k).Some? then Lookup(m, k) else if x.0 == k then Some(x.1) else None
  {
    if m != [] {
      assert (m + [x])[1..] == m[1..] + [x];
      LookupAppend(m[1..], x, k);
    }
  }
}
