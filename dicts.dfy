/** Python dictionaries whose key order is observable (JSON objects, HTTP
    headers, exception details), as insertion-ordered lists of pairs.
    `Set` is `d[k] = v`, `Update` is `d.update(e)` and the literal
    `{**d, **e}`. */
module Dicts {
  import opened Wrappers

  type Dict<V> = seq<(string, V)>

  function Keys<V>(d: Dict<V>): seq<string>
  {
    seq(|d|, i requires 0 <= i < |d| => d[i].0)
  }

  predicate Distinct<T(==)>(s: seq<T>)
  {
    forall i, j :: 0 <= i < j < |s| ==> s[i] != s[j]
  }

  /** What every Python dict satisfies: no key occurs twice. */
  predicate DistinctKeys<V>(d: Dict<V>)
  {
    Distinct(Keys(d))
  }

  /** `d.get(k)`: the value stored under `k`, if any. */
  function Lookup<V>(d: Dict<V>, k: string): (r: Option<V>)
    ensures r.Some? <==> k in Keys(d)
    ensures r.Some? ==> (k, r.value) in d
  {
    if d == [] then None
    else
      assert Keys(d) == [d[0].0] + Keys(d[1..]);
      if d[0].0 == k then Some(d[0].1) else Lookup(d[1..], k)
  }

  /** `d[k] = v`: an existing key keeps its position and takes the new value,
      a new key is appended. */
  function Set<V>(d: Dict<V>, k: string, v: V): (r: Dict<V>)
    ensures Lookup(r, k) == Some(v)
    ensures forall k' :: k' != k ==> Lookup(r, k') == Lookup(d, k')
    ensures Keys(r) == if k in Keys(d) then Keys(d) else Keys(d) + [k]
  {
    if d == [] then [(k, v)]
    else
      assert Keys(d) == [d[0].0] + Keys(d[1..]);
      if d[0].0 == k then
        assert Keys([(k, v)] + d[1..]) == [k] + Keys(d[1..]);
        [(k, v)] + d[1..]
      else
        var rest := Set(d[1..], k, v);
        assert Keys([d[0]] + rest) == [d[0].0] + Keys(rest);
        [d[0]] + rest
  }

  /** `d.update(e)`, equivalently `{**d, **e}`: the pairs of `e` are set into
      `d` one after the other. */
  function Update<V>(d: Dict<V>, e: Dict<V>): (r: Dict<V>)
    ensures Keys(d) <= Keys(r)
    ensures forall k :: k in Keys(r) <==> k in Keys(d) || k in Keys(e)
  {
    if e == [] then d
    else
      var prefix := e[..|e| - 1];
      assert Keys(e) == Keys(prefix) + [e[|e| - 1].0];
      Set(Update(d, prefix), e[|e| - 1].0, e[|e| - 1].1)
  }

  lemma {:induction false} LookupConcat<V>(a: Dict<V>, b: Dict<V>, k: string)
    ensures Lookup(a + b, k) == if k in Keys(a) then Lookup(a, k) else Lookup(b, k)
  {
    if a == [] {
      assert a + b == b;
    } else {
      assert (a + b)[0] == a[0] && (a + b)[1..] == a[1..] + b;
      assert Keys(a) == [a[0].0] + Keys(a[1..]);
      LookupConcat(a[1..], b, k);
    }
  }

  /** `Lookup` finds the first entry with the key. */
  lemma {:induction false} LookupFirst<V>(d: Dict<V>, i: nat)
    requires i < |d|
    requires forall j :: 0 <= j < i ==> d[j].0 != d[i].0
    ensures Lookup(d, d[i].0) == Some(d[i].1)
  {
    var k := d[i].0;
    assert d == d[..i] + d[i..];
    LookupConcat(d[..i], d[i..], k);
    forall j | 0 <= j < i
      ensures Keys(d[..i])[j] != k
    {
    }
    assert d[i..] == [d[i]] + d[i + 1..];
  }

  /** In a dict without repeated keys the value of every entry is the one
      `Lookup` finds. */
  lemma LookupEntry<V>(d: Dict<V>, i: nat)
    requires DistinctKeys(d) && i < |d|
    ensures Lookup(d, d[i].0) == Some(d[i].1)
  {
    forall j | 0 <= j < i
      ensures d[j].0 != d[i].0
    {
      assert Keys(d)[j] == d[j].0 && Keys(d)[i] == d[i].0;
    }
    LookupFirst(d, i);
  }

  /** The merge law of `{**d, **e}`: a key of `e` takes `e`'s value, any other
      key keeps `d`'s. */
  lemma {:induction false} UpdateLookup<V>(d: Dict<V>, e: Dict<V>, k: string)
    requires DistinctKeys(e)
    ensures Lookup(Update(d, e), k) == if k in Keys(e) then Lookup(e, k) else Lookup(d, k)
  {
    if e != [] {
      var prefix, last := e[..|e| - 1], e[|e| - 1];
      assert e == prefix + [last];
      assert Keys(e) == Keys(prefix) + [last.0];
      assert DistinctKeys(prefix) by {
        forall i, j | 0 <= i < j < |prefix|
          ensures Keys(prefix)[i] != Keys(prefix)[j]
        {
          assert Keys(e)[i] != Keys(e)[j];
        }
      }
      UpdateLookup(d, prefix, k);
      LookupConcat(prefix, [last], k);
      if k == last.0 {
        assert k !in Keys(prefix) by {
          forall i | 0 <= i < |prefix|
            ensures Keys(prefix)[i] != k
          {
            assert Keys(e)[i] != Keys(e)[|e| - 1];
          }
        }
      }
    }
  }

  /** `Update` keeps a dict free of repeated keys. */
  lemma {:induction false} UpdateDistinct<V>(d: Dict<V>, e: Dict<V>)
    requires DistinctKeys(d)
    ensures DistinctKeys(Update(d, e))
  {
    if e != [] {
      var prefix := e[..|e| - 1];
      UpdateDistinct(d, prefix);
      var u := Update(d, prefix);
      var r := Set(u, e[|e| - 1].0, e[|e| - 1].1);
      assert r == Update(d, e);
      if e[|e| - 1].0 !in Keys(u) {
        assert Keys(r) == Keys(u) + [e[|e| - 1].0];
      }
    }
  }
}
