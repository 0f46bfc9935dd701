/** One section of a saved registry: the records of a map in key order, or a list in its own order;
    and the loops that read them back, refusing a duplicate identity. */
module Sections {
  import opened Base
  import opened Records
  import opened Codec

  // ---- keys in order ----

  predicate IsSmallest(k: Id, keys: set<Id>) {
    k in keys && forall j :: j in keys ==> k <= j
  }

  lemma {:induction false} SmallestExists(keys: set<Id>)
    requires keys != {}
    ensures exists k :: IsSmallest(k, keys)
    decreases |keys|
  {
    var k :| k in keys;
    var rest := keys - {k};
    assert forall j :: j in keys <==> j == k || j in rest;
    if rest == {} {
      assert IsSmallest(k, keys);
    } else {
      SmallestExists(rest);
      var j :| IsSmallest(j, rest);
      assert IsSmallest(if k < j then k else j, keys);
    }
  }

  function SortedKeys(keys: set<Id>): (r: seq<Id>)
    decreases |keys|
  {
    if keys == {} then []
    else
      SmallestExists(keys);
      var k :| IsSmallest(k, keys);
      [k] + SortedKeys(keys - {k})
  }

  predicate Ascending(s: seq<Id>) {
    forall i, j :: 0 <= i < j < |s| ==> s[i] < s[j]
  }

  lemma {:induction false} SortedKeysAre(keys: set<Id>)
    ensures Ascending(SortedKeys(keys)) && |SortedKeys(keys)| == |keys|
    ensures forall k :: k in SortedKeys(keys) <==> k in keys
    decreases |keys|
  {
    if keys != {} {
      SmallestExists(keys);
      var k :| IsSmallest(k, keys);
      FirstKey(keys, k);
      hide SortedKeys;
      SortedKeysAre(keys - {k});
      var rest := SortedKeys(keys - {k});
      assert forall i :: 0 <= i < |rest| ==> rest[i] in keys - {k};
    }
  }

  lemma FirstKey(keys: set<Id>, k: Id)
    requires IsSmallest(k, keys)
    ensures SortedKeys(keys) == [k] + SortedKeys(keys - {k})
  {
    assert k in keys;
  }

  /** The sorted list of a set is the only ascending list of its elements. */
  lemma {:induction false} SortedKeysUnique(keys: set<Id>, s: seq<Id>)
    requires Ascending(s) && forall k :: k in s <==> k in keys
    ensures s == SortedKeys(keys)
    decreases |s|
  {
    if s == [] {
      assert keys == {};
    } else {
      assert s[0] in s;
      FirstKey(keys, s[0]);
      hide SortedKeys;
      assert s == [s[0]] + s[1..] && s[0] !in s[1..];
      SortedKeysUnique(keys - {s[0]}, s[1..]);
    }
  }

  function SortedValues<V>(m: map<Id, V>): (r: seq<V>)
    ensures |r| == |SortedKeys(m.Keys)|
  {
    SortedKeysAre(m.Keys);
    var keys := SortedKeys(m.Keys);
    seq(|keys|, i requires 0 <= i < |keys| => assert keys[i] in keys; m[keys[i]])
  }

  // ---- reading ----

  /** A section being read: the records so far, the rest of the input, and whether it was refused. */
  datatype Filling<V> = Filling(m: map<Id, V>, s: In, failed: bool)

  function Fill<V>(n: nat, get: In -> Got<V>, key: V -> Id, valid: V -> bool, m: map<Id, V>, s: In): (r: Filling<V>) {
    if n == 0 then Filling(m, s, false)
    else
      var g := get(s);
      if !g.s.ok || key(g.v) in m || !valid(g.v) then Filling(m, g.s, true)
      else Fill(n - 1, get, key, valid, m[key(g.v) := g.v], g.s)
  }

  datatype Listing<V> = Listing(list: seq<V>, s: In, failed: bool)

  function Append<V>(n: nat, get: In -> Got<V>, list: seq<V>, s: In): (r: Listing<V>) {
    if n == 0 then Listing(list, s, false)
    else
      var g := get(s);
      if !g.s.ok then Listing(list, g.s, true) else Append(n - 1, get, list + [g.v], g.s)
  }

  // ---- reading undoes writing ----

  /** The map `r` is `m` with the records `xs` under their own keys. */
  ghost predicate Holds<V>(r: map<Id, V>, m: map<Id, V>, xs: seq<V>, key: V -> Id) {
    && (forall k :: k in r <==> k in m || exists i :: 0 <= i < |xs| && key(xs[i]) == k)
    && (forall k :: k in m ==> r[k] == m[k])
    && (forall i :: 0 <= i < |xs| ==> r[key(xs[i])] == xs[i])
  }

  /** The records are new to the map, valid, and differ in their keys. */
  ghost predicate Storable<V>(m: map<Id, V>, xs: seq<V>, key: V -> Id, valid: V -> bool) {
    && (forall i :: 0 <= i < |xs| ==> valid(xs[i]) && key(xs[i]) !in m)
    && (forall i, j :: 0 <= i < j < |xs| ==> key(xs[i]) != key(xs[j]))
  }

  lemma HoldsOneMore<V>(r: map<Id, V>, m: map<Id, V>, xs: seq<V>, key: V -> Id)
    requires xs != [] && key(xs[0]) !in m && Holds(r, m[key(xs[0]) := xs[0]], xs[1..], key)
    ensures Holds(r, m, xs, key)
  {
    var more := m[key(xs[0]) := xs[0]];
    forall k ensures k in r <==> k in m || exists i :: 0 <= i < |xs| && key(xs[i]) == k {
      if i :| 0 <= i < |xs[1..]| && key(xs[1..][i]) == k {
        assert xs[i + 1] == xs[1..][i];
      }
      if i :| 0 <= i < |xs| && key(xs[i]) == k {
        assert i > 0 ==> xs[i] == xs[1..][i - 1];
      }
    }
    forall i | 0 <= i < |xs| ensures r[key(xs[i])] == xs[i] {
      if i > 0 {
        assert xs[i] == xs[1..][i - 1];
      } else {
        assert key(xs[0]) in more && r[key(xs[0])] == more[key(xs[0])];
      }
    }
  }

  lemma StorableOneMore<V>(m: map<Id, V>, xs: seq<V>, key: V -> Id, valid: V -> bool)
    requires xs != [] && Storable(m, xs, key, valid)
    ensures Storable(m[key(xs[0]) := xs[0]], xs[1..], key, valid) && valid(xs[0]) && key(xs[0]) !in m
  {
  }

  /** Reading a list of records with distinct new keys stores exactly them. */
  lemma {:induction false} FillUndoes<V>(xs: seq<V>, put: (V, Bytes) -> Bytes, get: In -> Got<V>, key: V -> Id,
      valid: V -> bool, m: map<Id, V>, t: Bytes)
    requires Undoes(xs, put, get) && Storable(m, xs, key, valid)
    ensures
      var r := Fill(|xs|, get, key, valid, m, In(PutEach(xs, put, t), true));
      r.s == In(t, true) && !r.failed && Holds(r.m, m, xs, key)
    decreases |xs|
  {
    if xs != [] {
      var rest := xs[1..];
      var more := m[key(xs[0]) := xs[0]];
      assert get(In(PutEach(xs, put, t), true)) == Got(xs[0], In(PutEach(rest, put, t), true));
      assert Undoes(rest, put, get);
      hide Undoes, Storable, Holds, PutEach;
      StorableOneMore(m, xs, key, valid);
      FillUndoes(rest, put, get, key, valid, more, t);
      HoldsOneMore(Fill(|rest|, get, key, valid, more, In(PutEach(rest, put, t), true)).m, m, xs, key);
    }
  }

  /** Reading a saved map gives the map back. */
  lemma MapUndoes<V>(m: map<Id, V>, put: (V, Bytes) -> Bytes, get: In -> Got<V>, key: V -> Id,
      valid: V -> bool, t: Bytes)
    requires Filed(m, key) && forall k :: k in m ==> valid(m[k])
    requires Undoes(SortedValues(m), put, get)
    ensures Fill(|m|, get, key, valid, map[], In(PutEach(SortedValues(m), put, t), true)) ==
      Filling(m, In(t, true), false)
  {
    hide SortedKeys, SortedValues, PutEach, Fill, Undoes;
    ValuesAre(m, key);
    var keys := SortedKeys(m.Keys);
    var xs := SortedValues(m);
    FillUndoes(xs, put, get, key, valid, map[], t);
    hide Filed, Ascending;
    var r := Fill(|xs|, get, key, valid, map[], In(PutEach(xs, put, t), true));
    assert forall k :: k in m ==> k in r.m && r.m[k] == m[k];
    assert r.m == m;
  }

  /** The records of a map in key order, each under its own identity. */
  lemma ValuesAre<V>(m: map<Id, V>, key: V -> Id)
    requires Filed(m, key)
    ensures |SortedValues(m)| == |SortedKeys(m.Keys)| == |m|
    ensures forall i :: 0 <= i < |SortedKeys(m.Keys)| ==>
      SortedKeys(m.Keys)[i] in m && SortedValues(m)[i] == m[SortedKeys(m.Keys)[i]]
      && key(SortedValues(m)[i]) == SortedKeys(m.Keys)[i]
    ensures forall k :: k in m ==> exists i :: 0 <= i < |SortedKeys(m.Keys)| && SortedKeys(m.Keys)[i] == k
    ensures Ascending(SortedKeys(m.Keys))
  {
    SortedKeysAre(m.Keys);
    hide SortedKeys;
    assert |m.Keys| == |m|;
    assert forall i :: 0 <= i < |SortedKeys(m.Keys)| ==> SortedKeys(m.Keys)[i] in m.Keys;
  }

  lemma {:induction false} ListUndoes<V>(xs: seq<V>, put: (V, Bytes) -> Bytes, get: In -> Got<V>,
      before: seq<V>, t: Bytes)
    requires Undoes(xs, put, get)
    ensures Append(|xs|, get, before, In(PutEach(xs, put, t), true)) == Listing(before + xs, In(t, true), false)
    decreases |xs|
  {
    if xs != [] {
      ListUndoes(xs[1..], put, get, before + [xs[0]], t);
      assert before + [xs[0]] + xs[1..] == before + xs;
    }
  }

  // ---- more input changes nothing ----

  lemma {:induction false} FillIsLocal<V(!new)>(n: nat, get: In -> Got<V>, key: V -> Id, valid: V -> bool,
      m: map<Id, V>, s: In, t: Bytes)
    requires Local(get, t) && !Fill(n, get, key, valid, m, s).failed
    ensures
      var r := Fill(n, get, key, valid, m, s);
      Fill(n, get, key, valid, m, More(s, t)) == r.(s := More(r.s, t))
    decreases n
  {
    if n > 0 {
      var g := get(s);
      assert get(More(s, t)) == Got(g.v, More(g.s, t));
      FillIsLocal(n - 1, get, key, valid, m[key(g.v) := g.v], g.s, t);
    }
  }

  lemma {:induction false} AppendIsLocal<V(!new)>(n: nat, get: In -> Got<V>, list: seq<V>, s: In, t: Bytes)
    requires Local(get, t) && !Append(n, get, list, s).failed
    ensures
      var r := Append(n, get, list, s);
      Append(n, get, list, More(s, t)) == r.(s := More(r.s, t))
    decreases n
  {
    if n > 0 {
      var g := get(s);
      assert get(More(s, t)) == Got(g.v, More(g.s, t));
      AppendIsLocal(n - 1, get, list + [g.v], g.s, t);
    }
  }

  // ---- the loops ----

  method InsertKey(sorted: seq<Id>, k: Id) returns (r: seq<Id>)
    requires Ascending(sorted) && k !in sorted
    ensures Ascending(r) && forall j :: j in r <==> j in sorted || j == k
  {
    var n := 0;
    while n < |sorted| && sorted[n] < k
      invariant 0 <= n <= |sorted|
      invariant forall i :: 0 <= i < n ==> sorted[i] < k
    {
      n := n + 1;
    }
    assert n < |sorted| ==> k < sorted[n] by {
      assert n < |sorted| ==> sorted[n] in sorted;
    }
    r := sorted[..n] + [k] + sorted[n..];
    InsertedIsAscending(sorted, n, k);
  }

  lemma InsertedIsAscending(sorted: seq<Id>, n: nat, k: Id)
    requires Ascending(sorted) && n <= |sorted|
    requires (forall i :: 0 <= i < n ==> sorted[i] < k) && (n < |sorted| ==> k < sorted[n])
    ensures
      var r := sorted[..n] + [k] + sorted[n..];
      Ascending(r) && forall j :: j in r <==> j in sorted || j == k
  {
    var r := sorted[..n] + [k] + sorted[n..];
    forall i, j | 0 <= i < j < |r| ensures r[i] < r[j] {
      if j == n {
        assert r[i] == sorted[i];
      } else if i == n {
        assert r[j] == sorted[j - 1] && sorted[n] <= sorted[j - 1];
      } else {
        assert r[i] == sorted[if i < n then i else i - 1] && r[j] == sorted[if j < n then j else j - 1];
      }
    }
    assert sorted == sorted[..n] + sorted[n..];
  }

  /** The keys, gathered in any order and sorted. */
  method GatherKeys(all: set<Id>) returns (keys: seq<Id>)
    ensures keys == SortedKeys(all)
  {
    var left := all;
    keys := [];
    while left != {}
      invariant left <= all
      invariant Ascending(keys) && forall k :: k in keys <==> k in all - left
      decreases |left|
    {
      var k :| k in left;
      left := left - {k};
      keys := InsertKey(keys, k);
    }
    SortedKeysUnique(all, keys);
  }

  /** `serialize_sorted` */
  method SerializeSorted<V>(m: map<Id, V>, put: (V, Bytes) -> Bytes, t: Bytes) returns (r: Bytes)
    ensures r == PutEach(SortedValues(m), put, t)
  {
    hide SortedKeys;
    var keys := GatherKeys(m.Keys);
    SortedKeysAre(m.Keys);
    ghost var xs := SortedValues(m);
    r := t;
    for i := |keys| downto 0
      invariant r == PutEach(xs[i..], put, t)
    {
      assert keys[i] in m;
      assert xs[i..] == [xs[i]] + xs[i + 1..];
      r := put(m[keys[i]], r);
    }
    assert xs[0..] == xs;
  }

  method SerializeList<V>(list: seq<V>, put: (V, Bytes) -> Bytes, t: Bytes) returns (r: Bytes)
    ensures r == PutEach(list, put, t)
  {
    r := t;
    for i := |list| downto 0
      invariant r == PutEach(list[i..], put, t)
    {
      assert list[i..] == [list[i]] + list[i + 1..];
      r := put(list[i], r);
    }
    assert list[0..] == list;
  }

  method LoadMap<V>(n: nat, get: In -> Got<V>, key: V -> Id, valid: V -> bool, s: In) returns (r: Filling<V>)
    ensures r == Fill(n, get, key, valid, map[], s)
  {
    r := Filling(map[], s, false);
    for i := 0 to n
      invariant !r.failed
      invariant Fill(n, get, key, valid, map[], s) == Fill(n - i, get, key, valid, r.m, r.s)
    {
      var g := get(r.s);
      if !g.s.ok || key(g.v) in r.m || !valid(g.v) {
        return Filling(r.m, g.s, true);
      }
      r := Filling(r.m[key(g.v) := g.v], g.s, false);
    }
  }

  method LoadList<V>(n: nat, get: In -> Got<V>, s: In) returns (r: Listing<V>)
    ensures r == Append(n, get, [], s)
  {
    r := Listing([], s, false);
    for i := 0 to n
      invariant !r.failed
      invariant Append(n, get, [], s) == Append(n - i, get, r.list, r.s)
    {
      var g := get(r.s);
      if !g.s.ok {
        return Listing(r.list, g.s, true);
      }
      r := Listing(r.list + [g.v], g.s, false);
    }
  }
}
