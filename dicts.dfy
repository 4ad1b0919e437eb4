/** Python's `dict`: a finite map that remembers the order in which its keys
    were first inserted. Both the docstring parameter map and the schema's
    field map are built by assigning `d[k] = v` once per item, so both are
    modelled by `FromPairs` below. */
module Dicts {
  import opened Common

  /** No element occurs twice. */
  predicate Distinct<T(==)>(s: seq<T>) {
    forall i, j | 0 <= i < j < |s| :: s[i] != s[j]
  }

  /** Dropping the last element keeps a sequence distinct, and that element
      occurs nowhere before it. */
  lemma DistinctSnoc<T>(s: seq<T>, x: T)
    requires Distinct(s + [x])
    ensures Distinct(s) && x !in s
  {
    forall i, j | 0 <= i < j < |s| ensures s[i] != s[j] {
      assert (s + [x])[i] == s[i] && (s + [x])[j] == s[j];
    }
    forall i | 0 <= i < |s| ensures s[i] != x {
      assert (s + [x])[i] == s[i] && (s + [x])[|s|] == x;
    }
  }

  /** `x` occurs in `s` at a smaller position than `y`. */
  ghost predicate Precedes<T>(s: seq<T>, x: T, y: T) {
    exists a, b | 0 <= a < b < |s| :: s[a] == x && s[b] == y
  }

  /** Any two elements of `r` occur in `s` in the same relative order. */
  ghost predicate InOrderOf<T>(r: seq<T>, s: seq<T>) {
    forall i, j | 0 <= i < j < |r| :: Precedes(s, r[i], r[j])
  }

  /** The head of `s` may be put in front of an ordered selection from the
      tail of `s`; the result is ordered and, when `s` is distinct, distinct. */
  lemma ConsInOrder<T>(s: seq<T>, rest: seq<T>)
    requires s != []
    requires forall x | x in rest :: x in s[1..]
    requires InOrderOf(rest, s[1..])
    requires Distinct(s[1..]) ==> Distinct(rest)
    ensures InOrderOf(rest, s) && InOrderOf([s[0]] + rest, s)
    ensures Distinct(s) ==> Distinct(rest) && Distinct([s[0]] + rest)
  {
    var tail := s[1..];
    forall i, j | 0 <= i < j < |rest|
      ensures Precedes(s, rest[i], rest[j])
    {
      assert Precedes(tail, rest[i], rest[j]);
      var a, b :| 0 <= a < b < |tail| && tail[a] == rest[i] && tail[b] == rest[j];
      assert s[a + 1] == rest[i] && s[b + 1] == rest[j];
    }
    var r := [s[0]] + rest;
    forall i, j | 0 <= i < j < |r|
      ensures Precedes(s, r[i], r[j])
    {
      if i == 0 {
        assert r[j] == rest[j - 1] && r[j] in tail;
        var b :| 0 <= b < |tail| && tail[b] == r[j];
        assert s[0] == r[0] && s[b + 1] == r[j];
      } else {
        assert r[i] == rest[i - 1] && r[j] == rest[j - 1];
        assert Precedes(s, rest[i - 1], rest[j - 1]);
      }
    }
    if Distinct(s) {
      assert Distinct(tail);
      assert s[0] !in tail;
      forall i, j | 0 <= i < j < |r| ensures r[i] != r[j] {
        if i == 0 {
          assert r[j] == rest[j - 1] && r[j] in tail;
        } else {
          assert r[i] == rest[i - 1] && r[j] == rest[j - 1];
        }
      }
    }
  }

  /** A dict: its keys in insertion order, and the value stored under each. */
  datatype Dict<K(==, !new), V> = Dict(keys: seq<K>, values: map<K, V>) {

    /** Each stored key is listed exactly once. */
    ghost predicate Valid() {
      Distinct(keys) && forall k :: k in values <==> k in keys
    }

    /** `d.get(k, None)` */
    function Get(k: K): (r: Option<V>)
      ensures r.Some? <==> k in values
      ensures r.Some? ==> r.value == values[k]
    {
      if k in values then Some(values[k]) else None
    }

    /** `d[k] = v`: a new key is appended to the order, an existing key keeps
        its place and only its value changes. */
    function Set(k: K, v: V): (d: Dict<K, V>)
      ensures Valid() ==> d.Valid()
      ensures d.Get(k) == Some(v)
      ensures forall k' | k' != k :: d.Get(k') == Get(k')
      ensures k in values ==> d.keys == keys
      ensures k !in values ==> d.keys == keys + [k]
    {
      Dict(if k in values then keys else keys + [k], values[k := v])
    }
  }

  /** The empty dict `{}`. */
  function Empty<K(==, !new), V>(): (d: Dict<K, V>)
    ensures d.Valid() && forall k :: d.Get(k).None?
  {
    Dict([], map[])
  }

  /** The keys of a sequence of key/value pairs, in order. */
  function Firsts<K, V>(pairs: seq<(K, V)>): seq<K> {
    seq(|pairs|, i requires 0 <= i < |pairs| => pairs[i].0)
  }

  /** The dict obtained by assigning `d[k] = v` for each pair in turn,
      starting from `{}`: what a dict comprehension or a filling loop builds. */
  function FromPairs<K(==, !new), V>(pairs: seq<(K, V)>): (d: Dict<K, V>)
    ensures d.Valid()
    ensures forall k :: k in d.values <==> k in Firsts(pairs)
  {
    if pairs == [] then Empty()
    else
      var n := |pairs| - 1;
      assert Firsts(pairs) == Firsts(pairs[..n]) + [pairs[n].0];
      FromPairs(pairs[..n]).Set(pairs[n].0, pairs[n].1)
  }

  /** When no key repeats, the dict lists its keys in the order of the pairs. */
  lemma {:induction false} FromPairsKeyOrder<K(!new), V>(pairs: seq<(K, V)>)
    requires Distinct(Firsts(pairs))
    ensures FromPairs(pairs).keys == Firsts(pairs)
  {
    if pairs != [] {
      var n := |pairs| - 1;
      assert Firsts(pairs) == Firsts(pairs[..n]) + [pairs[n].0];
      DistinctSnoc(Firsts(pairs[..n]), pairs[n].0);
      FromPairsKeyOrder(pairs[..n]);
    }
  }

  /** The value stored under a key is the one of the LAST pair with that key. */
  lemma {:induction false} FromPairsLastWins<K(!new), V>(pairs: seq<(K, V)>, i: nat)
    requires i < |pairs|
    requires forall j | i < j < |pairs| :: pairs[j].0 != pairs[i].0
    ensures FromPairs(pairs).Get(pairs[i].0) == Some(pairs[i].1)
  {
    var n := |pairs| - 1;
    var d := FromPairs(pairs[..n]);
    assert FromPairs(pairs) == d.Set(pairs[n].0, pairs[n].1);
    if i < n {
      FromPairsLastWins(pairs[..n], i);
      assert d.Get(pairs[i].0) == Some(pairs[i].1);
    }
  }

  /** Assigning the pairs of `b` after those of `a` overrides `a` on every key
      that `b` assigns. */
  lemma {:induction false} FromPairsOverride<K(!new), V>(a: seq<(K, V)>, b: seq<(K, V)>, k: K)
    requires k in Firsts(b)
    ensures FromPairs(a + b).Get(k) == FromPairs(b).Get(k)
  {
    var n := |b| - 1;
    assert (a + b)[..|a + b| - 1] == a + b[..n];
    assert Firsts(b) == Firsts(b[..n]) + [b[n].0];
    if b[n].0 != k {
      FromPairsOverride(a, b[..n], k);
    }
  }
}
