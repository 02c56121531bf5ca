/**
 * Per-driver tracked state is a dictionary that each message overwrites key
 * by key, storing a value only when it differs from the one already held.
 * This module models a batch of such writes as a sequence of (key, value)
 * pairs applied left to right, together with the insertion order a Python
 * dictionary keeps, and proves what the batch does: the last write to a key
 * wins, keys not written keep their value, and applying the same batch twice
 * is the same as applying it once.
 */
module Writes {
  import opened Wrappers

  /** Python's `d.get(k)`. */
  function Lookup<K, V>(m: map<K, V>, k: K): Option<V> {
    if k in m then Some(m[k]) else None
  }

  /** One change-gated write: store `v` at `k` unless `k` already holds `v`. */
  function Put<K(==,!new), V(==)>(m: map<K, V>, k: K, v: V): (r: map<K, V>)
    ensures Lookup(r, k) == Some(v)
    ensures forall k' :: k' != k ==> Lookup(r, k') == Lookup(m, k')
    ensures Lookup(m, k) == Some(v) ==> r == m
  {
    if Lookup(m, k) == Some(v) then m else m[k := v]
  }

  /** The writes `ws` applied in order. */
  function ApplyWrites<K(==,!new), V(==)>(m: map<K, V>, ws: seq<(K, V)>): map<K, V>
    decreases |ws|
  {
    if ws == [] then m
    else Put(ApplyWrites(m, ws[..|ws| - 1]), ws[|ws| - 1].0, ws[|ws| - 1].1)
  }

  /** The value of the last write to `k` in `ws`, if any. */
  function LastWrite<K(==,!new), V(==)>(ws: seq<(K, V)>, k: K): Option<V>
    decreases |ws|
  {
    if ws == [] then None
    else if ws[|ws| - 1].0 == k then Some(ws[|ws| - 1].1)
    else LastWrite(ws[..|ws| - 1], k)
  }

  /** After a batch, a key holds its last written value, or its old value when the batch never wrote it. */
  lemma {:induction false} ApplyWritesAt<K(!new), V>(m: map<K, V>, ws: seq<(K, V)>, k: K)
    ensures Lookup(ApplyWrites(m, ws), k) == LastWrite(ws, k).Or(Lookup(m, k))
    decreases |ws|
  {
    if ws != [] {
      ApplyWritesAt(m, ws[..|ws| - 1], k);
    }
  }

  /** A write batch touches exactly the keys it names. */
  lemma LastWriteIsAWrite<K(!new), V>(ws: seq<(K, V)>, k: K)
    ensures LastWrite(ws, k).Some? <==> exists i :: 0 <= i < |ws| && ws[i].0 == k
    ensures LastWrite(ws, k).Some? ==> (k, LastWrite(ws, k).value) in ws
    decreases |ws|
  {
    if ws != [] {
      var init := ws[..|ws| - 1];
      LastWriteIsAWrite(init, k);
      if ws[|ws| - 1].0 != k {
        if exists i :: 0 <= i < |ws| && ws[i].0 == k {
          var i :| 0 <= i < |ws| && ws[i].0 == k;
          assert init[i].0 == k;
        }
        if LastWrite(init, k).Some? {
          assert (k, LastWrite(init, k).value) in init;
        }
      }
    }
  }

  lemma MapsEqualByLookup<K(!new), V>(a: map<K, V>, b: map<K, V>)
    requires forall k :: Lookup(a, k) == Lookup(b, k)
    ensures a == b
  {
    assert forall k :: k in a <==> Lookup(a, k).Some?;
    assert forall k :: k in a ==> a[k] == Lookup(b, k).value;
  }

  /** Applying the same batch twice changes nothing the second time. */
  lemma ApplyWritesIdempotent<K(!new), V>(m: map<K, V>, ws: seq<(K, V)>)
    ensures ApplyWrites(ApplyWrites(m, ws), ws) == ApplyWrites(m, ws)
  {
    var once := ApplyWrites(m, ws);
    forall k ensures Lookup(ApplyWrites(once, ws), k) == Lookup(once, k) {
      ApplyWritesAt(once, ws, k);
      ApplyWritesAt(m, ws, k);
    }
    MapsEqualByLookup(ApplyWrites(once, ws), once);
  }

  /** Applying `a + b` is applying `a`, then `b`. */
  lemma {:induction false} ApplyWritesAppend<K(!new), V>(m: map<K, V>, a: seq<(K, V)>, b: seq<(K, V)>)
    ensures ApplyWrites(m, a + b) == ApplyWrites(ApplyWrites(m, a), b)
    decreases |b|
  {
    if b == [] {
      assert a + b == a;
    } else {
      var b' := b[..|b| - 1];
      assert (a + b)[..|a + b| - 1] == a + b';
      ApplyWritesAppend(m, a, b');
    }
  }

  /** A key no write in the batch names keeps its value. */
  lemma ApplyWritesUntouched<K(!new), V>(m: map<K, V>, ws: seq<(K, V)>, k: K)
    requires forall i :: 0 <= i < |ws| ==> ws[i].0 != k
    ensures Lookup(ApplyWrites(m, ws), k) == Lookup(m, k)
  {
    ApplyWritesAt(m, ws, k);
    LastWriteIsAWrite(ws, k);
  }

  /** A property every old entry and every write has, every entry after the batch has. */
  lemma {:induction false} ApplyWritesPreserves<K(!new), V>(m: map<K, V>, ws: seq<(K, V)>, P: (K, V) -> bool)
    requires forall k :: k in m ==> P(k, m[k])
    requires forall i :: 0 <= i < |ws| ==> P(ws[i].0, ws[i].1)
    ensures forall k :: k in ApplyWrites(m, ws) ==> P(k, ApplyWrites(m, ws)[k])
    decreases |ws|
  {
    if ws != [] {
      ApplyWritesPreserves(m, ws[..|ws| - 1], P);
    }
  }

  predicate Distinct<K(==)>(s: seq<K>) {
    forall i, j :: 0 <= i < j < |s| ==> s[i] != s[j]
  }

  /** `order` lists the keys of `m`, each once: a dictionary's iteration order. */
  predicate IsOrderOf<K(==,!new), V(==)>(order: seq<K>, m: map<K, V>) {
    Distinct(order) && (forall k :: k in order ==> k in m) && (forall k :: k in m ==> k in order)
  }

  /** The iteration order after a write: a new key goes last, an existing key keeps its place. */
  function PutOrder<K(==)>(order: seq<K>, k: K): seq<K> {
    if k in order then order else order + [k]
  }

  function InsertOrder<K(==,!new), V(==)>(order: seq<K>, ws: seq<(K, V)>): seq<K>
    decreases |ws|
  {
    if ws == [] then order
    else PutOrder(InsertOrder(order, ws[..|ws| - 1]), ws[|ws| - 1].0)
  }

  /** A write batch keeps the iteration order in step with the dictionary and never reorders old keys. */
  lemma {:induction false} InsertOrderIsOrder<K(!new), V>(order: seq<K>, m: map<K, V>, ws: seq<(K, V)>)
    requires IsOrderOf(order, m)
    ensures IsOrderOf(InsertOrder(order, ws), ApplyWrites(m, ws))
    ensures |order| <= |InsertOrder(order, ws)| && InsertOrder(order, ws)[..|order|] == order
    decreases |ws|
  {
    if ws != [] {
      var init := ws[..|ws| - 1];
      InsertOrderIsOrder(order, m, init);
      var o := InsertOrder(order, init);
      var k := ws[|ws| - 1].0;
      if k !in o {
        assert (o + [k])[..|order|] == o[..|order|];
      }
    }
  }

  lemma {:induction false} InsertOrderKnownKeys<K(!new), V>(order: seq<K>, ws: seq<(K, V)>)
    requires forall i :: 0 <= i < |ws| ==> ws[i].0 in order
    ensures InsertOrder(order, ws) == order
    decreases |ws|
  {
    if ws != [] {
      InsertOrderKnownKeys(order, ws[..|ws| - 1]);
    }
  }

  lemma {:induction false} InsertOrderContains<K(!new), V>(order: seq<K>, ws: seq<(K, V)>)
    ensures forall k :: k in order ==> k in InsertOrder(order, ws)
    ensures forall i :: 0 <= i < |ws| ==> ws[i].0 in InsertOrder(order, ws)
    decreases |ws|
  {
    if ws != [] {
      InsertOrderContains(order, ws[..|ws| - 1]);
    }
  }

  /** Recording the same batch twice leaves the iteration order as after the first time. */
  lemma InsertOrderIdempotent<K(!new), V>(order: seq<K>, ws: seq<(K, V)>)
    ensures InsertOrder(InsertOrder(order, ws), ws) == InsertOrder(order, ws)
  {
    InsertOrderContains(order, ws);
    InsertOrderKnownKeys(InsertOrder(order, ws), ws);
  }
}
