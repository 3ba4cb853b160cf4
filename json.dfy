/**
 * The part of a JSON value (serde_json::Value) that the client builds as a
 * request body. Numbers are the unsigned identifiers the client sends, so a
 * natural number is enough. An object keeps its members in the order serde
 * emits them; every property about objects is stated through `KeySet` and
 * `Get`, which do not depend on that order.
 */
module Json {
  import opened Common

  datatype Json =
    | Null
    | Bool(b: bool)
    | Num(n: nat)
    | Str(s: string)
    | Arr(items: seq<Json>)
    | Obj(fields: seq<(string, Json)>)

  /** The keys present in an object's member list. */
  function KeySet(fields: seq<(string, Json)>): set<string>
  {
    if fields == [] then {} else {fields[0].0} + KeySet(fields[1..])
  }

  /** The value stored under `key`, the first one when the key repeats. */
  function Get(fields: seq<(string, Json)>, key: string): (r: Option<Json>)
    ensures r.Some? <==> key in KeySet(fields)
  {
    if fields == [] then None
    else if fields[0].0 == key then Some(fields[0].1)
    else Get(fields[1..], key)
  }

  /** No key occurs twice, so the member list denotes a JSON object unambiguously. */
  predicate DistinctKeys(fields: seq<(string, Json)>)
  {
    forall i, j :: 0 <= i < j < |fields| ==> fields[i].0 != fields[j].0
  }

  /** No member has the value `null`. */
  predicate NoNullMember(fields: seq<(string, Json)>)
  {
    forall i :: 0 <= i < |fields| ==> fields[i].1 != Null
  }

  lemma {:induction false} KeySetConcat(a: seq<(string, Json)>, b: seq<(string, Json)>)
    ensures KeySet(a + b) == KeySet(a) + KeySet(b)
  {
    if a == [] {
      assert a + b == b;
    } else {
      assert (a + b)[1..] == a[1..] + b;
      KeySetConcat(a[1..], b);
    }
  }

  lemma {:induction false} GetConcat(a: seq<(string, Json)>, b: seq<(string, Json)>, key: string)
    ensures Get(a + b, key) == if key in KeySet(a) then Get(a, key) else Get(b, key)
  {
    if a == [] {
      assert a + b == b;
    } else {
      assert (a + b)[1..] == a[1..] + b;
      GetConcat(a[1..], b, key);
    }
  }

  /**
   * The member list denotes the map `m`: no key repeats, the keys are exactly
   * those of `m`, and each key holds its value in `m`. This is how
   * serde_json's object (a map) is read off the emitted member list.
   */
  predicate Denotes(fields: seq<(string, Json)>, m: map<string, Json>)
  {
    && DistinctKeys(fields)
    && KeySet(fields) == m.Keys
    && forall k :: k in m ==> Get(fields, k) == Some(m[k])
  }

  /** With distinct keys, looking up a member's key finds that member's value. */
  lemma {:induction false} GetDistinct(fields: seq<(string, Json)>, i: nat)
    requires DistinctKeys(fields) && i < |fields|
    ensures Get(fields, fields[i].0) == Some(fields[i].1)
  {
    if i > 0 {
      assert fields[1..][i - 1] == fields[i];
      GetDistinct(fields[1..], i - 1);
    }
  }

  /** A member list denoting a map without `null` values has no `null` member. */
  lemma DenotesNoNull(fields: seq<(string, Json)>, m: map<string, Json>)
    requires Denotes(fields, m)
    requires forall k :: k in m ==> m[k] != Null
    ensures NoNullMember(fields)
  {
    forall i | 0 <= i < |fields| ensures fields[i].1 != Null {
      KeySetMembers(fields, fields[i].0);
      GetDistinct(fields, i);
    }
  }

  /** A key occurs in a member list exactly when some member carries it. */
  lemma {:induction false} KeySetMembers(fields: seq<(string, Json)>, key: string)
    ensures key in KeySet(fields) <==> exists i :: 0 <= i < |fields| && fields[i].0 == key
  {
    if fields != [] {
      KeySetMembers(fields[1..], key);
      if key in KeySet(fields[1..]) {
        var i :| 0 <= i < |fields[1..]| && fields[1..][i].0 == key;
        assert fields[i + 1].0 == key;
      }
      if exists i :: 0 <= i < |fields| && fields[i].0 == key {
        var i :| 0 <= i < |fields| && fields[i].0 == key;
        if i > 0 {
          assert fields[1..][i - 1].0 == key;
        }
      }
    }
  }

  /** Two member lists over disjoint keys concatenate to the union of their maps. */
  lemma DenotesConcat(a: seq<(string, Json)>, b: seq<(string, Json)>, ma: map<string, Json>, mb: map<string, Json>)
    requires Denotes(a, ma) && Denotes(b, mb) && ma.Keys !! mb.Keys
    ensures Denotes(a + b, ma + mb)
  {
    KeySetConcat(a, b);
    forall i, j | 0 <= i < j < |a + b| ensures (a + b)[i].0 != (a + b)[j].0 {
      if j >= |a| && i < |a| {
        KeySetMembers(a, a[i].0);
        KeySetMembers(b, b[j - |a|].0);
      }
    }
    forall k | k in ma + mb ensures Get(a + b, k) == Some((ma + mb)[k]) {
      GetConcat(a, b, k);
    }
  }

  /** A one-member object. */
  lemma DenotesOne(k: string, v: Json)
    ensures Denotes([(k, v)], map[k := v])
  {
  }

  /** A two-member object with distinct keys. */
  lemma DenotesTwo(k1: string, v1: Json, k2: string, v2: Json)
    requires k1 != k2
    ensures Denotes([(k1, v1), (k2, v2)], map[k1 := v1, k2 := v2])
  {
    DenotesOne(k1, v1);
    DenotesOne(k2, v2);
    DenotesConcat([(k1, v1)], [(k2, v2)], map[k1 := v1], map[k2 := v2]);
    assert [(k1, v1)] + [(k2, v2)] == [(k1, v1), (k2, v2)];
    assert map[k1 := v1] + map[k2 := v2] == map[k1 := v1, k2 := v2];
  }

  /** The map of an optional member: the key alone when there is a value, nothing otherwise. */
  function OptionalMap(key: string, value: Option<Json>): (m: map<string, Json>)
    ensures m.Keys <= {key}
    ensures key in m <==> value.Some?
    ensures key in m ==> m[key] == value.value
  {
    if value.Some? then map[key := value.value] else map[]
  }

  /** An optional member: present with its value when there is one, absent otherwise. */
  function Optional(key: string, value: Option<Json>): (fields: seq<(string, Json)>)
    ensures Denotes(fields, OptionalMap(key, value))
  {
    if value.Some? then
      DenotesOne(key, value.value);
      [(key, value.value)]
    else []
  }
}
