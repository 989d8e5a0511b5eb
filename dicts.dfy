/**
 * Python's `dict` with string keys: insertion-ordered, and an assignment to an
 * existing key keeps that key's position.
 */
module Dicts {
  import opened Wrappers
  import opened Order

  type Dict<V> = seq<(string, V)>

  function Keys<V>(d: Dict<V>): (ks: seq<string>)
    ensures |ks| == |d|
    ensures forall i :: 0 <= i < |d| ==> ks[i] == d[i].0
  {
    if d == [] then [] else [d[0].0] + Keys(d[1..])
  }

  predicate HasKey<V>(d: Dict<V>, k: string) {
    k in Keys(d)
  }

  /** `d.get(k)`: the value stored under `k`, if any. */
  function Get<V>(d: Dict<V>, k: string): (r: Option<V>)
    ensures r.Some? <==> HasKey(d, k)
  {
    if d == [] then None
    else if d[0].0 == k then Some(d[0].1)
    else
      Get(d[1..], k)
  }

  function GetOr<V>(d: Dict<V>, k: string, default: V): V {
    Get(d, k).GetOr(default)
  }

  /** `d[k] = v`: replaces the value in place, or appends a new entry. */
  function Put<V>(d: Dict<V>, k: string, v: V): (r: Dict<V>)
    ensures Keys(r) == if HasKey(d, k) then Keys(d) else Keys(d) + [k]
  {
    if d == [] then [(k, v)]
    else if d[0].0 == k then [(k, v)] + d[1..]
    else
      var rest := Put(d[1..], k, v);
      assert ([d[0]] + rest)[1..] == rest;
      [d[0]] + rest
  }

  /** After `d[k] = v`, `d[k]` is `v` and every other key reads as before. */
  lemma {:induction false} GetPut<V>(d: Dict<V>, k: string, v: V, k': string)
    ensures Get(Put(d, k, v), k') == if k' == k then Some(v) else Get(d, k')
  {
    if d != [] && d[0].0 != k {
      GetPut(d[1..], k, v, k');
    }
  }

  /** A dictionary with one entry appended: earlier keys read as before, and the new key reads its value. */
  lemma {:induction false} GetSnoc<V>(d: Dict<V>, k: string, v: V, k': string)
    ensures Keys(d + [(k, v)]) == Keys(d) + [k]
    ensures Get(d + [(k, v)], k') == if HasKey(d, k') then Get(d, k') else if k' == k then Some(v) else None
    decreases |d|
  {
    var e := d + [(k, v)];
    if d == [] {
      assert e == [(k, v)] && e[1..] == [];
    } else {
      assert e[0] == d[0] && e[1..] == d[1..] + [(k, v)];
      GetSnoc(d[1..], k, v, k');
      assert Keys(d) == [d[0].0] + Keys(d[1..]);
    }
  }

  /** `{k: v for k, v in d.items() if keep(k)}`: the entries with wanted keys, in order. */
  function Restrict<V>(d: Dict<V>, keep: string -> bool): (r: Dict<V>)
    ensures forall k :: Get(r, k) == if keep(k) then Get(d, k) else None
    ensures |r| <= |d|
  {
    if d == [] then []
    else
      var rest := Restrict(d[1..], keep);
      assert forall k :: Get(d, k) == if d[0].0 == k then Some(d[0].1) else Get(d[1..], k);
      if keep(d[0].0) then [d[0]] + rest else rest
  }

  /** `d.setdefault(k, []).extend(xs)` on a dictionary of lists. */
  function Extend<T>(d: Dict<seq<T>>, k: string, xs: seq<T>): (r: Dict<seq<T>>)
    ensures Get(r, k) == Some(GetOr(d, k, []) + xs)
    ensures forall k' :: k' != k ==> Get(r, k') == Get(d, k')
    ensures Keys(r) == if HasKey(d, k) then Keys(d) else Keys(d) + [k]
  {
    var r := Put(d, k, GetOr(d, k, []) + xs);
    forall k' ensures Get(r, k') == if k' == k then Some(GetOr(d, k, []) + xs) else Get(d, k') {
      GetPut(d, k, GetOr(d, k, []) + xs, k');
    }
    r
  }
}
