/** String-keyed JavaScript objects and `Map`s, whose enumeration order is
    the order in which keys were first inserted.

    `keys` is that order and `values` the value currently stored under each
    key. Writing an existing key (`obj[k] = v`, `map.set(k, v)`) replaces its
    value and leaves it where it was; writing a new key appends it. */
module OrderedMaps {
  import opened Wrappers

  datatype OrderedMap<+V> = OrderedMap(keys: seq<string>, values: map<string, V>)
  {
    /** Every key is listed exactly once, and exactly the listed keys have values. */
    ghost predicate Valid() {
      && (forall i, j :: 0 <= i < j < |keys| ==> keys[i] != keys[j])
      && (forall k :: k in values <==> k in keys)
    }
  }

  function Empty<V>(): (m: OrderedMap<V>)
    ensures m.Valid() && m.keys == [] && m.values == map[]
  {
    OrderedMap([], map[])
  }

  function Get<V>(m: OrderedMap<V>, k: string): Option<V> {
    if k in m.values then Some(m.values[k]) else None
  }

  /** `obj[k] = v` / `map.set(k, v)` */
  function Put<V>(m: OrderedMap<V>, k: string, v: V): (r: OrderedMap<V>)
    ensures m.Valid() ==> r.Valid()
    ensures r.values == m.values[k := v]
    ensures |m.keys| <= |r.keys| && r.keys[..|m.keys|] == m.keys
    ensures m.Valid() ==> (|r.keys| == |m.keys| <==> k in m.values)
    ensures k !in m.values ==> r.keys[|m.keys|..] == [k]
  {
    if k in m.values then OrderedMap(m.keys, m.values[k := v])
    else OrderedMap(m.keys + [k], m.values[k := v])
  }

  /** Writing a key twice is writing it once with the second value. */
  lemma PutPut<V>(m: OrderedMap<V>, k: string, v1: V, v2: V)
    ensures Put(Put(m, k, v1), k, v2) == Put(m, k, v2)
  {
    assert m.values[k := v1][k := v2] == m.values[k := v2];
  }

  /** The keys of `ks` that `m` does not hold yet, first occurrences only, in order. */
  function NewKeys<V>(m: OrderedMap<V>, ks: seq<string>): seq<string>
    decreases |ks|
  {
    if ks == [] then []
    else
      var init := NewKeys(m, ks[..|ks| - 1]);
      var k := ks[|ks| - 1];
      if k in m.values || k in init then init else init + [k]
  }

  /** `Object.assign(t, s)` after its first `n` keys: each key of `s` is
      written into `t` in `s`'s order. */
  function AssignFirst<V>(t: OrderedMap<V>, s: OrderedMap<V>, n: nat): OrderedMap<V>
    requires n <= |s.keys| && s.Valid()
  {
    if n == 0 then t
    else Put(AssignFirst(t, s, n - 1), s.keys[n - 1], s.values[s.keys[n - 1]])
  }

  /** `Object.assign(t, s)` */
  function Assign<V>(t: OrderedMap<V>, s: OrderedMap<V>): OrderedMap<V>
    requires s.Valid()
  {
    AssignFirst(t, s, |s.keys|)
  }

  /** After the first `n` writes the object holds `t`'s keys and the keys
      written so far; a written key holds its value from `s`, the others
      keep `t`'s. */
  lemma {:induction false} AssignFirstValues<V>(t: OrderedMap<V>, s: OrderedMap<V>, n: nat)
    requires s.Valid() && n <= |s.keys|
    ensures forall k :: k in AssignFirst(t, s, n).values <==> k in t.values || k in s.keys[..n]
    ensures forall k :: k in s.keys[..n] ==> AssignFirst(t, s, n).values[k] == s.values[k]
    ensures forall k :: k in t.values && k !in s.keys[..n] ==> AssignFirst(t, s, n).values[k] == t.values[k]
  {
    if n > 0 {
      AssignFirstValues(t, s, n - 1);
      assert s.keys[..n] == s.keys[..n - 1] + [s.keys[n - 1]];
    }
  }

  /** The first `n` writes keep `t`'s keys in place and append the new ones in `s`'s order. */
  lemma {:induction false} AssignFirstKeys<V>(t: OrderedMap<V>, s: OrderedMap<V>, n: nat)
    requires t.Valid() && s.Valid() && n <= |s.keys|
    ensures AssignFirst(t, s, n).Valid()
    ensures AssignFirst(t, s, n).keys == t.keys + NewKeys(t, s.keys[..n])
  {
    if n > 0 {
      AssignFirstKeys(t, s, n - 1);
      AssignFirstValues(t, s, n - 1);
      var prev := AssignFirst(t, s, n - 1);
      var k := s.keys[n - 1];
      assert s.keys[..n][..n - 1] == s.keys[..n - 1];
      assert s.keys[..n][n - 1] == k;
      assert k !in s.keys[..n - 1] by {
        forall j | 0 <= j < n - 1 ensures s.keys[j] != k { }
      }
      NewKeysMember(t, s.keys[..n - 1], k);
    }
  }

  lemma {:induction false} NewKeysMember<V>(m: OrderedMap<V>, ks: seq<string>, k: string)
    ensures k in NewKeys(m, ks) <==> k !in m.values && k in ks
    decreases |ks|
  {
    if ks != [] {
      NewKeysMember(m, ks[..|ks| - 1], k);
      assert ks == ks[..|ks| - 1] + [ks[|ks| - 1]];
    }
  }

  /** Object.assign's contract: every key of `s` takes `s`'s value, every
      other key keeps `t`'s value, `t`'s keys keep their positions and the
      keys new to `t` follow in `s`'s order. */
  lemma AssignSpec<V>(t: OrderedMap<V>, s: OrderedMap<V>)
    requires t.Valid() && s.Valid()
    ensures Assign(t, s).Valid()
    ensures Assign(t, s).keys == t.keys + NewKeys(t, s.keys)
    ensures forall k :: k in Assign(t, s).values <==> k in t.values || k in s.values
    ensures forall k :: k in s.values ==> Assign(t, s).values[k] == s.values[k]
    ensures forall k :: k in t.values && k !in s.values ==> Assign(t, s).values[k] == t.values[k]
  {
    AssignFirstKeys(t, s, |s.keys|);
    AssignFirstValues(t, s, |s.keys|);
    assert s.keys[..|s.keys|] == s.keys;
  }
}
