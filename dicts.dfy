/**
 * Python dictionaries with string keys, as their (key, value) pairs in insertion order:
 * reading, writing (`d[k] = v` keeps an existing key's position) and `d.update(other)`.
 */
module Dicts {
  import opened Wrappers

  type Dict<V> = seq<(string, V)>

  function Keys<V>(d: Dict<V>): (ks: seq<string>)
    ensures |ks| == |d| && forall i :: 0 <= i < |d| ==> ks[i] == d[i].0
  {
    if d == [] then [] else [d[0].0] + Keys(d[1..])
  }

  predicate HasKey<V>(d: Dict<V>, key: string) {
    exists i :: 0 <= i < |d| && d[i].0 == key
  }

  /** `k in d.keys()` is `k in d`: the key list holds exactly the present keys. */
  lemma KeysAreHasKey<V>(d: Dict<V>)
    ensures forall t :: t in Keys(d) <==> HasKey(d, t)
  {
    forall t ensures t in Keys(d) <==> HasKey(d, t) {
      if t in Keys(d) {
        var i :| 0 <= i < |d| && Keys(d)[i] == t;
        assert d[i].0 == t;
      }
      if HasKey(d, t) {
        var i :| 0 <= i < |d| && d[i].0 == t;
        assert Keys(d)[i] == t;
      }
    }
  }

  /** No key occurs twice: true of every dictionary Python builds. */
  predicate UniqueKeys<V>(d: Dict<V>) {
    forall i, j :: 0 <= i < j < |d| ==> d[i].0 != d[j].0
  }

  /** `d[key]` if present. */
  function Lookup<V>(d: Dict<V>, key: string): (r: Option<V>)
    ensures r.Some? <==> HasKey(d, key)
  {
    if d == [] then None else if d[0].0 == key then Some(d[0].1) else Lookup(d[1..], key)
  }

  /** `d.get(key, default)`. */
  function GetOr<V>(d: Dict<V>, key: string, default: V): V {
    Lookup(d, key).GetOr(default)
  }

  /** `d[key]`, raising KeyError when absent. */
  function Index<V>(d: Dict<V>, key: string): (r: Result<V>)
    ensures r.Ok? <==> HasKey(d, key)
    ensures r.Ok? ==> Lookup(d, key) == Some(r.value)
    ensures r.Err? ==> r.error == KeyError(key)
  {
    match Lookup(d, key)
    case Some(v) => Ok(v)
    case None => Err(KeyError(key))
  }

  /** `d[key] = v`: an existing key keeps its position, a new key goes last. */
  function Put<V>(d: Dict<V>, key: string, v: V): (r: Dict<V>)
    ensures Lookup(r, key) == Some(v)
    ensures forall k :: k != key ==> Lookup(r, k) == Lookup(d, k)
  {
    if d == [] then [(key, v)]
    else if d[0].0 == key then [(key, v)] + d[1..]
    else [d[0]] + Put(d[1..], key, v)
  }

  /** Writing keeps the keys' order: an existing key stays in place, a new one goes last. */
  lemma {:induction false} PutKeys<V>(d: Dict<V>, key: string, v: V)
    ensures Keys(Put(d, key, v)) == if HasKey(d, key) then Keys(d) else Keys(d) + [key]
  {
    if d == [] {
    } else if d[0].0 == key {
      var r := [(key, v)] + d[1..];
      assert r[1..] == d[1..];
      assert HasKey(d, key) by {
        assert d[0].0 == key;
      }
    } else {
      var p := Put(d[1..], key, v);
      var r := [d[0]] + p;
      assert r[1..] == p;
      assert Keys(r) == [d[0].0] + Keys(p);
      PutKeys(d[1..], key, v);
      assert HasKey(d, key) == HasKey(d[1..], key) by {
        assert Lookup(d, key) == Lookup(d[1..], key);
      }
      if !HasKey(d[1..], key) {
        assert [d[0].0] + (Keys(d[1..]) + [key]) == ([d[0].0] + Keys(d[1..])) + [key];
      }
    }
  }

  /** In a dictionary without repeated keys, each key looks up its own value. */
  lemma {:induction false} LookupAt<V>(d: Dict<V>, k: nat)
    requires k < |d| && UniqueKeys(d)
    ensures Lookup(d, d[k].0) == Some(d[k].1)
  {
    if k > 0 {
      assert d[0].0 != d[k].0;
      assert d[1..][k - 1] == d[k];
      LookupAt(d[1..], k - 1);
    }
  }

  lemma {:induction false} PutKeepsUnique<V>(d: Dict<V>, key: string, v: V)
    requires UniqueKeys(d)
    ensures UniqueKeys(Put(d, key, v))
  {
    var r := Put(d, key, v);
    PutKeys(d, key, v);
    forall i, j | 0 <= i < j < |r| ensures r[i].0 != r[j].0 {
      assert Keys(r)[i] == r[i].0 && Keys(r)[j] == r[j].0;
      if HasKey(d, key) {
        assert Keys(d)[i] == d[i].0 && Keys(d)[j] == d[j].0;
      } else if j < |d| {
        assert Keys(d)[i] == d[i].0 && Keys(d)[j] == d[j].0;
      } else {
        assert Keys(d)[i] == d[i].0;
      }
    }
  }

  /** `d.update(other)`: every entry of `other`, in order, written with `Put`. */
  function Update<V>(d: Dict<V>, other: Dict<V>): Dict<V>
    decreases |other|
  {
    if other == [] then d else Update(Put(d, other[0].0, other[0].1), other[1..])
  }

  /** After `d.update(other)` a key has its value from `other` when there, else its old value. */
  lemma {:induction false} UpdateLookup<V>(d: Dict<V>, other: Dict<V>, k: string)
    requires UniqueKeys(other)
    ensures Lookup(Update(d, other), k) == if HasKey(other, k) then Lookup(other, k) else Lookup(d, k)
    decreases |other|
  {
    if other != [] {
      var rest := other[1..];
      assert UniqueKeys(rest);
      UpdateLookup(Put(d, other[0].0, other[0].1), rest, k);
      if k == other[0].0 {
        assert forall j :: 0 <= j < |rest| ==> rest[j].0 != k by {
          forall j | 0 <= j < |rest| ensures rest[j].0 != k {
            assert rest[j] == other[j + 1];
          }
        }
        assert !HasKey(rest, k);
      }
    }
  }

  /** After `d.update(other)` the keys are those of `d` and those of `other`. */
  lemma {:induction false} UpdateKeys<V>(d: Dict<V>, other: Dict<V>, k: string)
    ensures HasKey(Update(d, other), k) <==> HasKey(d, k) || HasKey(other, k)
    decreases |other|
  {
    if other != [] {
      var p := Put(d, other[0].0, other[0].1);
      UpdateKeys(p, other[1..], k);
      if k != other[0].0 {
        assert Lookup(p, k) == Lookup(d, k);
      }
      assert Keys(other) == [other[0].0] + Keys(other[1..]);
    }
  }

  /** `d.update(other)` keeps the old keys where they were: they stay a prefix of the keys. */
  lemma {:induction false} UpdateKeepsOrder<V>(d: Dict<V>, other: Dict<V>)
    ensures Keys(d) <= Keys(Update(d, other))
    decreases |other|
  {
    if other != [] {
      var p := Put(d, other[0].0, other[0].1);
      PutKeys(d, other[0].0, other[0].1);
      UpdateKeepsOrder(p, other[1..]);
    }
  }

  lemma {:induction false} UpdateKeepsUnique<V>(d: Dict<V>, other: Dict<V>)
    requires UniqueKeys(d)
    ensures UniqueKeys(Update(d, other))
    decreases |other|
  {
    if other != [] {
      PutKeepsUnique(d, other[0].0, other[0].1);
      UpdateKeepsUnique(Put(d, other[0].0, other[0].1), other[1..]);
    }
  }
}
