/**
 * Insertion-ordered dictionaries with string keys, as Python dicts and
 * JavaScript object literals behave: assigning to an existing key keeps its
 * position, assigning to a new key appends it.
 */
module PyDict {
  import opened Wrappers
  import opened Json

  type Dict = seq<(string, Json)>

  predicate DistinctKeys(d: Dict) {
    forall i, j :: 0 <= i < j < |d| ==> d[i].0 != d[j].0
  }

  function Keys(d: Dict): (ks: seq<string>)
    ensures |ks| == |d| && forall k :: 0 <= k < |d| ==> ks[k] == d[k].0
  {
    seq(|d|, k requires 0 <= k < |d| => d[k].0)
  }

  /** `d.get(key)`: the value stored under the first entry with that key. */
  function Get(d: Dict, key: string): Option<Json> {
    if d == [] then None
    else if d[0].0 == key then Some(d[0].1)
    else Get(d[1..], key)
  }

  /** `d.get(key)` finds a value exactly when some entry has the key, and the value is that entry's. */
  lemma {:induction false} GetFound(d: Dict, key: string)
    ensures Get(d, key).Some? <==> exists k :: 0 <= k < |d| && d[k].0 == key
    ensures Get(d, key).Some? ==> exists k :: 0 <= k < |d| && d[k] == (key, Get(d, key).value)
  {
    if d != [] && d[0].0 != key {
      GetFound(d[1..], key);
      assert forall k :: 0 <= k < |d[1..]| ==> d[1..][k] == d[k + 1];
      if Get(d, key).Some? {
        var k :| 0 <= k < |d[1..]| && d[1..][k] == (key, Get(d, key).value);
        assert d[k + 1] == (key, Get(d, key).value);
      }
    } else if d != [] {
      assert d[0] == (key, d[0].1);
    }
  }

  /** A member read on a value: the object's entry, `None` for a missing key or a non-object. */
  function Field(j: Json, key: string): Option<Json> {
    if j.JObj? then Get(j.fields, key) else None
  }

  predicate Has(d: Dict, key: string) {
    Get(d, key).Some?
  }

  /** `d.get(key, default)`. */
  function GetOr(d: Dict, key: string, default: Json): Json {
    Get(d, key).GetOr(default)
  }

  /** `d[key] = v` (also `{**d, key: v}`). */
  function Set(d: Dict, key: string, v: Json): Dict {
    if d == [] then [(key, v)]
    else if d[0].0 == key then [(key, v)] + d[1..]
    else [d[0]] + Set(d[1..], key, v)
  }

  /** `d.setdefault(key, v)`, keeping only its effect on the dictionary. */
  function SetDefault(d: Dict, key: string, v: Json): (r: Dict)
    ensures Has(d, key) ==> r == d
    ensures !Has(d, key) ==> r == d + [(key, v)]
  {
    if Has(d, key) then d else SetNew(d, key, v); Set(d, key, v)
  }

  /** After `d[key] = v`, `d.get(key)` is `v`. */
  lemma {:induction false} GetSetSame(d: Dict, key: string, v: Json)
    ensures Get(Set(d, key, v), key) == Some(v)
  {
    if d != [] && d[0].0 != key {
      GetSetSame(d[1..], key, v);
    }
  }

  /** `d[key] = v` leaves every other key's value as it was. */
  lemma {:induction false} GetSetOther(d: Dict, key: string, v: Json, other: string)
    requires other != key
    ensures Get(Set(d, key, v), other) == Get(d, other)
  {
    if d != [] && d[0].0 != key && d[0].0 != other {
      GetSetOther(d[1..], key, v, other);
    }
  }

  /** Assigning to a present key keeps the key order. */
  lemma {:induction false} SetExisting(d: Dict, key: string, v: Json)
    requires Has(d, key)
    ensures Keys(Set(d, key, v)) == Keys(d)
  {
    SetInPlace(d, key, v);
  }

  /** Assigning to a present key changes no entry's key and adds no entry. */
  lemma {:induction false} SetInPlace(d: Dict, key: string, v: Json)
    requires Has(d, key)
    ensures |Set(d, key, v)| == |d| && forall k :: 0 <= k < |d| ==> Set(d, key, v)[k].0 == d[k].0
  {
    if d[0].0 != key {
      SetInPlace(d[1..], key, v);
      assert Set(d, key, v) == [d[0]] + Set(d[1..], key, v);
    }
  }

  /** Assigning to an absent key appends it. */
  lemma {:induction false} SetNew(d: Dict, key: string, v: Json)
    requires !Has(d, key)
    ensures Set(d, key, v) == d + [(key, v)]
  {
    if d != [] {
      SetNew(d[1..], key, v);
      assert [d[0]] + (d[1..] + [(key, v)]) == d + [(key, v)];
    }
  }

  /** `d[key] = v` keeps the keys distinct. */
  lemma {:induction false} SetDistinct(d: Dict, key: string, v: Json)
    requires DistinctKeys(d)
    ensures DistinctKeys(Set(d, key, v))
  {
    if Has(d, key) {
      SetExisting(d, key, v);
      var r := Set(d, key, v);
      assert Keys(r) == Keys(d);
      forall i, j | 0 <= i < j < |r|
        ensures r[i].0 != r[j].0
      {
        assert Keys(r)[i] == Keys(d)[i] && Keys(r)[j] == Keys(d)[j];
      }
    } else {
      GetFound(d, key);
      SetNew(d, key, v);
    }
  }

  /** `delete d[key]` (for every entry with that key). */
  function Remove(d: Dict, key: string): Dict {
    if d == [] then []
    else if d[0].0 == key then Remove(d[1..], key)
    else [d[0]] + Remove(d[1..], key)
  }

  /**
   * `{...d, [key]: v}` where `v` may be `undefined` (`None`): an undefined
   * member reads like a missing one, so it is modelled by removing the key.
   */
  function Assign(d: Dict, key: string, v: Option<Json>): Dict {
    match v
    case Some(x) => Set(d, key, x)
    case None => Remove(d, key)
  }

  lemma {:induction false} GetRemove(d: Dict, key: string, other: string)
    ensures Get(Remove(d, key), other) == if other == key then None else Get(d, other)
  {
    if d != [] {
      GetRemove(d[1..], key, other);
    }
  }

  /** After `{...d, [key]: v}`, reading `key` gives `v` and every other key reads as before. */
  lemma GetAssign(d: Dict, key: string, v: Option<Json>, other: string)
    ensures Get(Assign(d, key, v), other) == if other == key then v else Get(d, other)
  {
    GetRemove(d, key, other);
    if other == key {
      if v.Some? { GetSetSame(d, key, v.value); }
    } else if v.Some? {
      GetSetOther(d, key, v.value, other);
    }
  }

  /** Entries appended after one with the key do not affect the lookup. */
  lemma {:induction false} GetAppendPresent(d: Dict, e: Dict, key: string, n: nat)
    requires n < |d| && d[n].0 == key
    ensures Get(d + e, key) == Get(d, key)
  {
    if d[0].0 != key {
      GetAppendPresent(d[1..], e, key, n - 1);
      assert (d + e)[1..] == d[1..] + e;
    }
  }

  /** Entries before the first one with the key do not affect the lookup. */
  lemma {:induction false} GetSkip(d: Dict, key: string, n: nat)
    requires n <= |d| && forall m :: 0 <= m < n ==> d[m].0 != key
    ensures Get(d, key) == Get(d[n..], key)
  {
    if n > 0 {
      GetSkip(d[1..], key, n - 1);
      assert d[1..][n - 1..] == d[n..];
    }
  }
}
