/** Python's `dict` as the client uses it: an insertion-ordered mapping from
    string keys to values. `d[k] = v` overwrites the value in place when `k`
    is already present and appends `(k, v)` after every existing entry
    otherwise; iteration visits entries in that order. */
module OrderedDict {
  import opened Common

  type Params = seq<(string, Value)>

  /** The keys, in iteration order. */
  function Keys(p: Params): (ks: seq<string>)
    ensures |ks| == |p|
    ensures forall i :: 0 <= i < |p| ==> ks[i] == p[i].0
  {
    if p == [] then [] else [p[0].0] + Keys(p[1..])
  }

  /** What every Python dict satisfies: no key occurs twice. */
  predicate DistinctKeys(p: Params) {
    forall i, j :: 0 <= i < j < |p| ==> p[i].0 != p[j].0
  }

  /** `d.get(k)`: the value stored under `k`, if any. */
  function Get(p: Params, k: string): Option<Value> {
    if p == [] then None
    else if p[0].0 == k then Some(p[0].1)
    else Get(p[1..], k)
  }

  /** `d.get(k, default)`. */
  function GetOr(p: Params, k: string, default: Value): (v: Value)
    ensures k !in Keys(p) ==> v == default
    ensures k in Keys(p) ==> Get(p, k) == Some(v)
  {
    GetPresent(p, k);
    match Get(p, k)
    case Some(v) => v
    case None => default
  }

  /** `d.get(k)` finds a value exactly when `k` is a key of `d`. */
  lemma {:induction false} GetPresent(p: Params, k: string)
    ensures Get(p, k).Some? <==> k in Keys(p)
  {
    if p != [] {
      assert Keys(p) == [p[0].0] + Keys(p[1..]);
      GetPresent(p[1..], k);
    }
  }

  lemma KeysAppendOne(p: Params, k: string, v: Value)
    ensures Keys(p + [(k, v)]) == Keys(p) + [k]
  {
    assert forall i :: 0 <= i < |p| ==> (p + [(k, v)])[i] == p[i];
  }

  /** `d.get(k)` finds the first entry with key `k`. */
  lemma {:induction false} GetFirst(p: Params, i: nat)
    requires i < |p|
    requires forall j :: 0 <= j < i ==> p[j].0 != p[i].0
    ensures Get(p, p[i].0) == Some(p[i].1)
  {
    if i > 0 {
      assert p[0].0 != p[i].0;
      GetFirst(p[1..], i - 1);
    }
  }

  /** `d[k] = v` on the entries of a dict. */
  function Set(p: Params, k: string, v: Value): (r: Params)
  {
    if p == [] then [(k, v)]
    else if p[0].0 == k then [(k, v)] + p[1..]
    else [p[0]] + Set(p[1..], k, v)
  }

  /** A new key goes after every existing entry. */
  lemma {:induction false} SetNew(p: Params, k: string, v: Value)
    requires k !in Keys(p)
    ensures Set(p, k, v) == p + [(k, v)]
  {
    if p != [] {
      assert p[0].0 != k && k !in Keys(p[1..]) by {
        assert Keys(p) == [p[0].0] + Keys(p[1..]);
      }
      assert Set(p, k, v) == [p[0]] + Set(p[1..], k, v);
      SetNew(p[1..], k, v);
      assert [p[0]] + (p[1..] + [(k, v)]) == p + [(k, v)];
    }
  }

  /** An existing key keeps its position and gets the new value; no other
      entry changes. */
  lemma {:induction false} SetExisting(p: Params, k: string, v: Value, i: nat)
    requires DistinctKeys(p)
    requires i < |p| && p[i].0 == k
    ensures Set(p, k, v) == p[i := (k, v)]
  {
    if i > 0 {
      assert p[0].0 != k;
      SetExisting(p[1..], k, v, i - 1);
    }
  }

  /** Setting a key leaves the key sequence alone when the key is present and
      extends it by that key otherwise. */
  lemma {:induction false} SetKeys(p: Params, k: string, v: Value)
    ensures Keys(Set(p, k, v)) == if k in Keys(p) then Keys(p) else Keys(p) + [k]
  {
    if p != [] {
      assert Keys(p) == [p[0].0] + Keys(p[1..]);
      SetKeys(p[1..], k, v);
      if p[0].0 != k {
        assert Keys(Set(p, k, v)) == [p[0].0] + Keys(Set(p[1..], k, v));
      } else {
        assert Keys(Set(p, k, v)) == [k] + Keys(p[1..]);
      }
    }
  }

  /** Reading back after `d[k] = v`: `k` holds `v`, every other key its old value. */
  lemma {:induction false} SetGet(p: Params, k: string, v: Value, k': string)
    ensures Get(Set(p, k, v), k') == if k' == k then Some(v) else Get(p, k')
  {
    if p != [] && p[0].0 != k {
      SetGet(p[1..], k, v, k');
    }
  }

  /** `d[k] = v` keeps a dict a dict. */
  lemma {:induction false} SetDistinct(p: Params, k: string, v: Value)
    requires DistinctKeys(p)
    ensures DistinctKeys(Set(p, k, v))
  {
    SetKeys(p, k, v);
    var r := Set(p, k, v);
    forall i, j | 0 <= i < j < |r| ensures r[i].0 != r[j].0 {
      assert Keys(r)[i] == r[i].0 && Keys(r)[j] == r[j].0;
    }
  }

  /** A mutable Python dict, as the caller and the client share it. */
  class ParamDict {
    var items: Params

    ghost predicate Valid()
      reads this
    {
      DistinctKeys(items)
    }

    /** A dict literal with distinct keys, in the order written. */
    constructor (entries: Params)
      requires DistinctKeys(entries)
      ensures Valid() && items == entries
    {
      items := entries;
    }

    /** `self[k] = v`, in place. */
    method Put(k: string, v: Value)
      requires Valid()
      modifies this
      ensures Valid()
      ensures items == Set(old(items), k, v)
    {
      SetDistinct(items, k, v);
      items := Set(items, k, v);
    }
  }
}
