/**
 * JavaScript objects as ordered property lists, and the few sequence helpers
 * the compiler needs (duplicate-freedom, insertion-ordered de-duplication).
 */
module Collections {
  import opened Wrappers

  /** The keys of a property list, in insertion order. */
  function KeysOf<K, V>(es: seq<(K, V)>): (ks: seq<K>)
    ensures |ks| == |es|
    ensures forall i | 0 <= i < |es| :: ks[i] == es[i].0
  {
    if es == [] then [] else [es[0].0] + KeysOf(es[1..])
  }

  /** `obj[k]`: the value stored under `k`, if any. */
  function Lookup<K(==), V>(es: seq<(K, V)>, k: K): (r: Option<V>)
    ensures r.Some? <==> k in KeysOf(es)
    ensures r.Some? ==> (k, r.value) in es
  {
    if es == [] then None
    else if es[0].0 == k then Some(es[0].1)
    else Lookup(es[1..], k)
  }

  /**
   * `obj[k] = v`: an existing key keeps its position and gets the new value,
   * a new key is appended, everything else is left alone.
   */
  function Put<K(==, !new), V>(es: seq<(K, V)>, k: K, v: V): (r: seq<(K, V)>)
    ensures Lookup(r, k) == Some(v)
    ensures forall k' | k' != k :: Lookup(r, k') == Lookup(es, k')
  {
    if es == [] then [(k, v)]
    else if es[0].0 == k then [(k, v)] + es[1..]
    else
      var r := [es[0]] + Put(es[1..], k, v);
      assert r[1..] == Put(es[1..], k, v);
      r
  }

  /** Assigning keeps the keys in place and appends a new one. */
  lemma {:induction false} PutKeys<K(!new), V>(es: seq<(K, V)>, k: K, v: V)
    ensures k in KeysOf(es) ==> KeysOf(Put(es, k, v)) == KeysOf(es)
    ensures k !in KeysOf(es) ==> KeysOf(Put(es, k, v)) == KeysOf(es) + [k]
  {
    if es != [] {
      var r := Put(es, k, v);
      assert KeysOf(es) == [es[0].0] + KeysOf(es[1..]);
      if es[0].0 != k {
        var rest := Put(es[1..], k, v);
        PutKeys(es[1..], k, v);
        assert r == [es[0]] + rest;
        assert KeysOf(r) == [es[0].0] + KeysOf(rest);
        assert k in KeysOf(es) <==> k in KeysOf(es[1..]);
        AppendAssociative([es[0].0], KeysOf(es[1..]), [k]);
      } else {
        assert r == [(k, v)] + es[1..];
        assert KeysOf(r) == [k] + KeysOf(es[1..]);
      }
    }
  }

  /** Assigning a key the object does not yet have appends it at the end. */
  lemma {:induction false} PutFresh<K(!new), V>(es: seq<(K, V)>, k: K, v: V)
    requires k !in KeysOf(es)
    ensures Put(es, k, v) == es + [(k, v)]
  {
    if es != [] {
      assert es[0].0 != k && k !in KeysOf(es[1..]);
      PutFresh(es[1..], k, v);
      assert Put(es, k, v) == [es[0]] + Put(es[1..], k, v);
      assert es == [es[0]] + es[1..];
      AppendAssociative([es[0]], es[1..], [(k, v)]);
    }
  }

  lemma AppendAssociative<T>(a: seq<T>, b: seq<T>, c: seq<T>)
    ensures a + b + c == a + (b + c)
  {
  }

  predicate NoDup<T(==)>(xs: seq<T>) {
    forall i, j | 0 <= i < j < |xs| :: xs[i] != xs[j]
  }

  /**
   * The elements of `xs` in order of first occurrence, each once: what
   * `Array.from(set)` gives after adding `xs` to an empty `Set` in order.
   */
  function Dedup<T(==, !new)>(xs: seq<T>): (r: seq<T>)
    ensures forall x :: x in r <==> x in xs
  {
    if xs == [] then []
    else
      var d := Dedup(xs[..|xs| - 1]);
      var x := xs[|xs| - 1];
      assert forall y :: y in xs <==> y in xs[..|xs| - 1] || y == x by {
        assert xs == xs[..|xs| - 1] + [x];
      }
      if x in d then d else d + [x]
  }

  /** The de-duplicated list holds no element twice. */
  lemma {:induction false} DedupNoDup<T(!new)>(xs: seq<T>)
    ensures NoDup(Dedup(xs))
    decreases |xs|
  {
    if xs != [] {
      DedupNoDup(xs[..|xs| - 1]);
    }
  }

  /** De-duplicating one more element keeps it only if it is new. */
  lemma DedupSnoc<T(!new)>(xs: seq<T>, x: T)
    ensures Dedup(xs + [x]) == if x in Dedup(xs) then Dedup(xs) else Dedup(xs) + [x]
  {
    assert (xs + [x])[..|xs + [x]| - 1] == xs;
  }

  /** De-duplicating a longer list never reorders what the shorter one gave. */
  lemma {:induction false} DedupPrefix<T(!new)>(a: seq<T>, b: seq<T>)
    ensures |Dedup(a)| <= |Dedup(a + b)|
    ensures Dedup(a + b)[..|Dedup(a)|] == Dedup(a)
    decreases |b|
  {
    if b == [] {
      assert a + b == a;
    } else {
      var b' := b[..|b| - 1];
      DedupPrefix(a, b');
      assert (a + b)[..|a + b| - 1] == a + b';
    }
  }
}
