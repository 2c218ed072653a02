/** Insertion-ordered dictionaries, as Python's `dict` and JavaScript's plain objects behave
    when filled by assignment: assigning to a new key appends it, assigning to an existing key
    replaces its value where it stands. */
module Dicts {
  import opened Wrappers

  /** The entries of a dictionary in insertion order. */
  type Dict<K, V> = seq<(K, V)>

  predicate Distinct<T(==)>(xs: seq<T>) {
    forall i, j :: 0 <= i < j < |xs| ==> xs[i] != xs[j]
  }

  function Keys<K, V>(d: Dict<K, V>): (ks: seq<K>)
    ensures |ks| == |d|
    ensures forall i :: 0 <= i < |d| ==> ks[i] == d[i].0
  {
    seq(|d|, i requires 0 <= i < |d| => d[i].0)
  }

  predicate DistinctKeys<K(==), V>(d: Dict<K, V>) {
    Distinct(Keys(d))
  }

  /** `d.get(k)`: the value stored under `k`, if any. */
  function Get<K(==), V>(d: Dict<K, V>, k: K): (r: Option<V>)
    ensures r.Some? <==> k in Keys(d)
    ensures r.Some? ==> (k, r.value) in d
  {
    if d == [] then None
    else if d[0].0 == k then Some(d[0].1)
    else
      assert Keys(d) == [d[0].0] + Keys(d[1..]);
      Get(d[1..], k)
  }

  /** In a dictionary without repeated keys, every entry is what `Get` finds under its key. */
  lemma {:induction false} GetEntry<K, V>(d: Dict<K, V>, i: int)
    requires DistinctKeys(d) && 0 <= i < |d|
    ensures Get(d, d[i].0) == Some(d[i].1)
  {
    if i > 0 {
      assert Keys(d)[0] != Keys(d)[i];
      assert DistinctKeys(d[1..]) by {
        forall a, b | 0 <= a < b < |d[1..]| ensures Keys(d[1..])[a] != Keys(d[1..])[b] {
          assert Keys(d)[a + 1] != Keys(d)[b + 1];
        }
      }
      GetEntry(d[1..], i - 1);
    }
  }

  lemma KeysCons<K, V>(x: (K, V), d: Dict<K, V>)
    ensures Keys([x] + d) == [x.0] + Keys(d)
  {
  }

  lemma GetCons<K, V>(x: (K, V), d: Dict<K, V>, k: K)
    ensures Get([x] + d, k) == if x.0 == k then Some(x.1) else Get(d, k)
  {
    assert ([x] + d)[0] == x && ([x] + d)[1..] == d;
  }

  lemma DistinctKeysTail<K, V>(d: Dict<K, V>)
    requires DistinctKeys(d) && d != []
    ensures DistinctKeys(d[1..]) && d[0].0 !in Keys(d[1..])
  {
    forall a, b | 0 <= a < b < |d[1..]| ensures Keys(d[1..])[a] != Keys(d[1..])[b] {
      assert Keys(d)[a + 1] != Keys(d)[b + 1];
    }
    forall i | 0 <= i < |d[1..]| ensures Keys(d[1..])[i] != d[0].0 {
      assert Keys(d)[0] != Keys(d)[i + 1];
    }
  }

  /** What assigning `d[k] = v` must produce: `k` keeps its place (or is appended), now holds
      `v`, and every other key keeps its value. */
  ghost predicate IsPut<K(!new), V>(d: Dict<K, V>, k: K, v: V, r: Dict<K, V>) {
    && Keys(r) == (if k in Keys(d) then Keys(d) else Keys(d) + [k])
    && (k !in Keys(d) ==> r == d + [(k, v)])
    && Get(r, k) == Some(v)
    && (forall k' :: k' != k ==> Get(r, k') == Get(d, k'))
    && (DistinctKeys(d) ==> DistinctKeys(r))
  }

  lemma PutAtHead<K(!new), V>(d: Dict<K, V>, k: K, v: V)
    requires d != [] && d[0].0 == k
    ensures IsPut(d, k, v, [(k, v)] + d[1..])
  {
    assert d == [d[0]] + d[1..];
    KeysCons(d[0], d[1..]);
    KeysCons((k, v), d[1..]);
    forall k' | k' != k ensures Get([(k, v)] + d[1..], k') == Get(d, k') {
      GetCons((k, v), d[1..], k');
      GetCons(d[0], d[1..], k');
    }
    GetCons((k, v), d[1..], k);
    if DistinctKeys(d) {
      DistinctKeysTail(d);
      assert Keys([(k, v)] + d[1..]) == Keys(d);
    }
  }

  lemma PutPastHead<K(!new), V>(d: Dict<K, V>, k: K, v: V, rest: Dict<K, V>)
    requires d != [] && d[0].0 != k
    requires IsPut(d[1..], k, v, rest)
    ensures IsPut(d, k, v, [d[0]] + rest)
  {
    PutPastHeadKeys(d, k, v, rest);
    GetCons(d[0], rest, k);
    PutPastHeadOthers(d, k, v, rest);
    if DistinctKeys(d) {
      DistinctKeysTail(d);
      DistinctCons(d[0], rest);
    }
  }

  lemma PutPastHeadKeys<K(!new), V>(d: Dict<K, V>, k: K, v: V, rest: Dict<K, V>)
    requires d != [] && d[0].0 != k
    requires Keys(rest) == if k in Keys(d[1..]) then Keys(d[1..]) else Keys(d[1..]) + [k]
    requires k !in Keys(d[1..]) ==> rest == d[1..] + [(k, v)]
    ensures Keys([d[0]] + rest) == (if k in Keys(d) then Keys(d) else Keys(d) + [k])
    ensures k !in Keys(d) ==> [d[0]] + rest == d + [(k, v)]
  {
    var tail := d[1..];
    assert d == [d[0]] + tail;
    KeysCons(d[0], tail);
    KeysCons(d[0], rest);
    assert k in Keys(d) <==> k in Keys(tail);
    if k in Keys(tail) {
      assert Keys(rest) == Keys(tail);
    } else {
      assert Keys(rest) == Keys(tail) + [k];
      assert rest == tail + [(k, v)];
      assert [d[0].0] + (Keys(tail) + [k]) == ([d[0].0] + Keys(tail)) + [k];
      assert [d[0]] + (tail + [(k, v)]) == d + [(k, v)];
    }
  }

  lemma PutPastHeadOthers<K(!new), V>(d: Dict<K, V>, k: K, v: V, rest: Dict<K, V>)
    requires d != []
    requires forall k' :: k' != k ==> Get(rest, k') == Get(d[1..], k')
    ensures forall k' :: k' != k ==> Get([d[0]] + rest, k') == Get(d, k')
  {
    assert d == [d[0]] + d[1..];
    forall k' | k' != k ensures Get([d[0]] + rest, k') == Get(d, k') {
      GetCons(d[0], rest, k');
      GetCons(d[0], d[1..], k');
    }
  }

  lemma DistinctCons<K, V>(x: (K, V), d: Dict<K, V>)
    requires DistinctKeys(d) && x.0 !in Keys(d)
    ensures DistinctKeys([x] + d)
  {
    var r := [x] + d;
    KeysCons(x, d);
    forall a, b | 0 <= a < b < |r| ensures Keys(r)[a] != Keys(r)[b] {
      if a == 0 {
        assert Keys(r)[b] == Keys(d)[b - 1];
      } else {
        assert Keys(d)[a - 1] != Keys(d)[b - 1];
      }
    }
  }

  /** `d[k] = v`. */
  function Put<K(==, !new), V>(d: Dict<K, V>, k: K, v: V): (r: Dict<K, V>)
    ensures Keys(r) == if k in Keys(d) then Keys(d) else Keys(d) + [k]
    ensures k !in Keys(d) ==> r == d + [(k, v)]
    ensures Get(r, k) == Some(v)
    ensures forall k' :: k' != k ==> Get(r, k') == Get(d, k')
    ensures DistinctKeys(d) ==> DistinctKeys(r)
  {
    if d == [] then [(k, v)]
    else if d[0].0 == k then
      PutAtHead(d, k, v);
      [(k, v)] + d[1..]
    else
      var rest := Put(d[1..], k, v);
      PutPastHead(d, k, v, rest);
      [d[0]] + rest
  }

  /** The distinct elements of `xs`, each where it first occurs. */
  function Dedup<T(==, !new)>(xs: seq<T>): (r: seq<T>)
    ensures Distinct(r)
    ensures forall x :: x in r <==> x in xs
  {
    if xs == [] then []
    else
      var d := Dedup(xs[..|xs| - 1]);
      assert xs == xs[..|xs| - 1] + [xs[|xs| - 1]];
      if xs[|xs| - 1] in d then d else d + [xs[|xs| - 1]]
  }

  /** The value of the last pair in `ps` whose key is `k`. */
  function LastValue<K(==), V>(ps: seq<(K, V)>, k: K): Option<V> {
    if ps == [] then None
    else if ps[|ps| - 1].0 == k then Some(ps[|ps| - 1].1)
    else LastValue(ps[..|ps| - 1], k)
  }

  /** The dictionary filled by assigning the pairs of `ps` in order: keys in first-occurrence
      order, each holding the value last assigned to it. */
  function FromPairs<K(==, !new), V>(ps: seq<(K, V)>): (d: Dict<K, V>)
    ensures DistinctKeys(d)
    ensures Keys(d) == Dedup(Keys(ps))
    ensures forall k :: Get(d, k) == LastValue(ps, k)
  {
    if ps == [] then []
    else
      var prefix := ps[..|ps| - 1];
      assert Keys(prefix) == Keys(ps)[..|ps| - 1];
      Put(FromPairs(prefix), ps[|ps| - 1].0, ps[|ps| - 1].1)
  }

  lemma DistinctKeysPrefix<K, V>(d: Dict<K, V>)
    requires DistinctKeys(d) && d != []
    ensures DistinctKeys(d[..|d| - 1]) && d[|d| - 1].0 !in Keys(d[..|d| - 1])
  {
    var prefix := d[..|d| - 1];
    forall a, b | 0 <= a < b < |prefix| ensures Keys(prefix)[a] != Keys(prefix)[b] {
      assert Keys(d)[a] != Keys(d)[b];
    }
    forall i | 0 <= i < |prefix| ensures Keys(prefix)[i] != d[|d| - 1].0 {
      assert Keys(d)[i] != Keys(d)[|d| - 1];
    }
  }

  /** Re-assigning the entries of a dictionary into an empty one rebuilds it unchanged. */
  lemma {:induction false} FromPairsOfDict<K(!new), V>(d: Dict<K, V>)
    requires DistinctKeys(d)
    ensures FromPairs(d) == d
  {
    if d != [] {
      var prefix, x := d[..|d| - 1], d[|d| - 1];
      assert d == prefix + [x];
      DistinctKeysPrefix(d);
      FromPairsOfDict(prefix);
      AppendNewKey(prefix, x);
    }
  }

  lemma AppendNewKey<K(!new), V>(d: Dict<K, V>, x: (K, V))
    requires FromPairs(d) == d && x.0 !in Keys(d)
    ensures FromPairs(d + [x]) == d + [x]
  {
    FromPairsSnoc(d, x);
  }

  /** `d.setdefault(k, v)`. */
  function SetDefault<K(==, !new), V>(d: Dict<K, V>, k: K, v: V): (r: Dict<K, V>)
    ensures Keys(r) == if k in Keys(d) then Keys(d) else Keys(d) + [k]
    ensures Get(r, k) == if k in Keys(d) then Get(d, k) else Some(v)
    ensures forall k' :: k' != k ==> Get(r, k') == Get(d, k')
    ensures DistinctKeys(d) ==> DistinctKeys(r)
  {
    if k in Keys(d) then d else Put(d, k, v)
  }

  /** `for k in ks: d.setdefault(k, v)`. */
  function SetDefaults<K(==, !new), V>(d: Dict<K, V>, ks: seq<K>, v: V): (r: Dict<K, V>)
    ensures forall k :: k in Keys(r) <==> k in Keys(d) || k in ks
    ensures forall k :: k in Keys(d) ==> Get(r, k) == Get(d, k)
    ensures forall k :: k !in Keys(d) && k in ks ==> Get(r, k) == Some(v)
    ensures DistinctKeys(d) ==> DistinctKeys(r)
    ensures (forall k :: k in ks ==> k in Keys(d)) ==> r == d
  {
    if ks == [] then d
    else
      var prefix := ks[..|ks| - 1];
      assert ks == prefix + [ks[|ks| - 1]];
      SetDefault(SetDefaults(d, prefix, v), ks[|ks| - 1], v)
  }

  /** A key is in the dictionary built from `ps` exactly when some pair of `ps` has it. */
  lemma FromPairsHasKey<K(!new), V>(ps: seq<(K, V)>, k: K)
    ensures k in Keys(FromPairs(ps)) <==> exists i :: 0 <= i < |ps| && ps[i].0 == k
  {
    if k in Keys(ps) {
      var i :| 0 <= i < |ps| && Keys(ps)[i] == k;
      assert ps[i].0 == k;
    }
  }

  lemma FromPairsSnoc<K(!new), V>(ps: seq<(K, V)>, x: (K, V))
    ensures FromPairs(ps + [x]) == Put(FromPairs(ps), x.0, x.1)
  {
    assert (ps + [x])[..|ps|] == ps;
  }

  lemma SetDefaultsStep<K(!new), V>(d: Dict<K, V>, ks: seq<K>, j: int, v: V)
    requires 0 <= j < |ks|
    ensures SetDefaults(d, ks[..j + 1], v) == SetDefault(SetDefaults(d, ks[..j], v), ks[j], v)
  {
    assert ks[..j + 1][..j] == ks[..j];
  }

  /** The last assignment to a key is the one that stays. */
  lemma {:induction false} LastValueIsLast<K, V>(ps: seq<(K, V)>, k: K, i: int)
    requires 0 <= i < |ps| && ps[i].0 == k
    requires forall j :: i < j < |ps| ==> ps[j].0 != k
    ensures LastValue(ps, k) == Some(ps[i].1)
  {
    if i < |ps| - 1 {
      LastValueIsLast(ps[..|ps| - 1], k, i);
    }
  }

  /** A last value was assigned by one of the pairs. */
  lemma {:induction false} LastValueIn<K, V>(ps: seq<(K, V)>, k: K)
    requires LastValue(ps, k).Some?
    ensures (k, LastValue(ps, k).value) in ps
  {
    if ps[|ps| - 1].0 != k {
      LastValueIn(ps[..|ps| - 1], k);
    }
  }

  /** Assigning to a key that is already present replaces its entry where it stands. */
  lemma {:induction false} PutAt<K(!new), V>(d: Dict<K, V>, i: int, v: V)
    requires DistinctKeys(d) && 0 <= i < |d|
    ensures Put(d, d[i].0, v) == d[i := (d[i].0, v)]
  {
    var k := d[i].0;
    if i > 0 {
      var tail := d[1..];
      assert Keys(d)[0] != Keys(d)[i];
      PutPastHeadStep(d, k, v);
      DistinctKeysTail(d);
      assert tail[i - 1] == d[i];
      PutAt(tail, i - 1, v);
      UpdateTail(d, i, (k, v));
    }
  }

  lemma PutPastHeadStep<K(!new), V>(d: Dict<K, V>, k: K, v: V)
    requires d != [] && d[0].0 != k
    ensures Put(d, k, v) == [d[0]] + Put(d[1..], k, v)
  {
  }

  lemma UpdateTail<T>(s: seq<T>, j: int, y: T)
    requires 0 < j < |s|
    ensures [s[0]] + s[1..][j - 1 := y] == s[j := y]
  {
  }

  /** Extending a sequence by one element extends its distinct elements by that element
      unless it was already there. */
  lemma DedupStep<T(!new)>(xs: seq<T>, i: int)
    requires 0 <= i < |xs|
    ensures Dedup(xs[..i + 1]) == if xs[i] in Dedup(xs[..i]) then Dedup(xs[..i]) else Dedup(xs[..i]) + [xs[i]]
  {
    assert xs[..i + 1][..i] == xs[..i];
  }
}
